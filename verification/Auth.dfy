/** backend/src/auth/auth.service.ts (phone normalisation and the table of
    pending verification codes) and backend/src/auth/dto/auth.dto.ts (the
    phone and one-time-code formats). Time is the caller's clock reading in
    milliseconds; the user lookup and the token that follow a successful
    verification are not part of this model. */
module Auth {
  import opened Wrappers
  import JsText

  /** The code used when `SMS_VERIFICATION_CODE` is not configured. */
  const DefaultCode := "123456"

  /** Five minutes, the lifetime of a code. */
  const CodeLifetime := 300000

  // ----- auth.dto.ts -----

  /** `/^\+968[0-9]{8}$/`: "+968" and eight digits. */
  predicate IsValidPhone(s: string) {
    |s| == 12 && s[..4] == "+968" && forall k :: 4 <= k < 12 ==> JsText.IsDigit(s[k])
  }

  /** `/^[0-9]{6}$/`: six digits. */
  predicate IsValidOtp(s: string) {
    |s| == 6 && forall k :: 0 <= k < 6 ==> JsText.IsDigit(s[k])
  }

  /** `LoginDto`: a non-empty string in the phone format. */
  predicate LoginDtoValid(phone: string) {
    phone != "" && IsValidPhone(phone)
  }

  /** `VerifyOtpDto`: the same phone rule, and a non-empty six-digit code. */
  predicate VerifyOtpDtoValid(phone: string, otp: string) {
    phone != "" && IsValidPhone(phone) && otp != "" && IsValidOtp(otp)
  }

  /** Both DTOs judge the phone alike, and the empty string passes neither
      field. */
  lemma DtoFormats(phone: string, otp: string)
    ensures VerifyOtpDtoValid(phone, otp) <==> LoginDtoValid(phone) && IsValidOtp(otp)
    ensures !LoginDtoValid("") && !VerifyOtpDtoValid(phone, "")
  {
  }

  /** The default code has the one-time-code format. */
  lemma DefaultCodeIsValidOtp()
    ensures IsValidOtp(DefaultCode)
  {
  }

  // ----- normalizePhone -----

  /** `replace(/[\s-]/g, '')`: every white-space character and every '-'
      removed, the rest kept in order. */
  function StripSpacesAndDashes(s: string): (r: string)
    ensures |r| <= |s|
    ensures forall k :: 0 <= k < |r| ==> !JsText.IsSpace(r[k]) && r[k] != '-'
    ensures (forall k :: 0 <= k < |s| ==> !JsText.IsSpace(s[k]) && s[k] != '-') ==> r == s
    ensures |s| == 1 ==> r == (if JsText.IsSpace(s[0]) || s[0] == '-' then [] else s)
  {
    if s == [] then []
    else
      var rest := StripSpacesAndDashes(s[1..]);
      if JsText.IsSpace(s[0]) || s[0] == '-' then rest else [s[0]] + rest
  }

  /** Stripping works character by character: the text is stripped piece
      by piece and the kept pieces are joined in order. With the
      one-character case of the function's contract this pins down every
      result. */
  lemma {:induction false} StripConcat(a: string, b: string)
    ensures StripSpacesAndDashes(a + b) == StripSpacesAndDashes(a) + StripSpacesAndDashes(b)
  {
    if a != [] {
      assert (a + b)[0] == a[0];
      assert (a + b)[1..] == a[1..] + b;
      StripConcat(a[1..], b);
    } else {
      assert a + b == b;
    }
  }

  /** Removing twice removes nothing more. */
  lemma StripIdempotent(s: string)
    ensures StripSpacesAndDashes(StripSpacesAndDashes(s)) == StripSpacesAndDashes(s)
  {
  }

  /** `normalizePhone(phone)`. */
  function NormalizePhone(phone: string): (r: string)
  {
    var normalized := StripSpacesAndDashes(phone);
    if |normalized| > 0 && normalized[0] == '+' then normalized
    else if |normalized| >= 3 && normalized[..3] == "968" then "+" + normalized
    else "+968" + normalized
  }

  /** The result always starts with '+', holds no white space and no '-',
      and is the stripped input with "+", "+968" or nothing put in front. */
  lemma NormalizeShape(phone: string)
    ensures var r := NormalizePhone(phone);
      && r != [] && r[0] == '+'
      && (forall k :: 0 <= k < |r| ==> !JsText.IsSpace(r[k]) && r[k] != '-')
      && var s := StripSpacesAndDashes(phone);
         (r == s || r == "+" + s || r == "+968" + s)
  {
    var s := StripSpacesAndDashes(phone);
    var r := NormalizePhone(phone);
    forall k | 0 <= k < |r| ensures !JsText.IsSpace(r[k]) && r[k] != '-' {
      if r != s {
        assert r == "+" + s || r == "+968" + s;
      }
    }
  }

  /** Normalising a normalised phone changes nothing. */
  lemma NormalizeIdempotent(phone: string)
    ensures NormalizePhone(NormalizePhone(phone)) == NormalizePhone(phone)
  {
    NormalizeShape(phone);
    var r := NormalizePhone(phone);
    assert StripSpacesAndDashes(r) == r;
  }

  /** A phone already in the DTO format is left as it is. */
  lemma ValidPhoneUnchanged(phone: string)
    requires IsValidPhone(phone)
    ensures NormalizePhone(phone) == phone
  {
    assert phone[0] == "+968"[0];
    assert forall k :: 0 <= k < |phone| ==> !JsText.IsSpace(phone[k]) && phone[k] != '-' by {
      forall k | 0 <= k < |phone| ensures !JsText.IsSpace(phone[k]) && phone[k] != '-' {
        if k < 4 {
          assert phone[k] == "+968"[k];
        }
      }
    }
  }

  /** An eight-digit local number that does not begin with "968" gets the
      country code and meets the DTO phone format. */
  lemma LocalNumberNormalizes(local: string)
    requires |local| == 8 && (forall k :: 0 <= k < 8 ==> JsText.IsDigit(local[k]))
    requires local[..3] != "968"
    ensures NormalizePhone(local) == "+968" + local
    ensures IsValidPhone(NormalizePhone(local))
  {
    assert forall k :: 0 <= k < |local| ==> !JsText.IsSpace(local[k]) && local[k] != '-';
    var r := "+968" + local;
    assert r[..4] == "+968";
    assert forall k :: 4 <= k < 12 ==> r[k] == local[k - 4];
  }

  /** An eight-digit local number that begins with "968" is taken to carry
      the country code already: it only gains a '+', and the nine-character
      result does not meet the DTO phone format. */
  lemma LocalNumberStarting968(local: string)
    requires |local| == 8 && (forall k :: 0 <= k < 8 ==> JsText.IsDigit(local[k]))
    requires local[..3] == "968"
    ensures NormalizePhone(local) == "+" + local
    ensures !IsValidPhone(NormalizePhone(local))
  {
    assert forall k :: 0 <= k < |local| ==> !JsText.IsSpace(local[k]) && local[k] != '-';
  }

  // ----- the verification table -----

  datatype Verification = Verification(code: string, expiresAt: int)

  datatype VerifyOutcome =
    | NoCodeSent   // 'No verification code sent to this number'
    | CodeExpired  // 'Verification code expired'
    | WrongCode    // 'Invalid verification code'
    | Verified(phone: string)

  /** `sendVerificationCode`: the code, valid for five minutes from `now`,
      filed under the normalised phone, replacing any earlier entry. */
  function Send(table: map<string, Verification>, phone: string, code: string, now: int): (r: map<string, Verification>)
    ensures NormalizePhone(phone) in r && r[NormalizePhone(phone)] == Verification(code, now + CodeLifetime)
    ensures forall p :: p != NormalizePhone(phone) ==> (p in r <==> p in table) && (p in table ==> r[p] == table[p])
  {
    table[NormalizePhone(phone) := Verification(code, now + CodeLifetime)]
  }

  /** `verifyCode`: no entry fails with the table unchanged; an entry whose
      expiry is strictly before `now` is deleted and fails; a wrong code
      fails and keeps the entry; the right code succeeds and deletes it. */
  function Verify(table: map<string, Verification>, phone: string, code: string, now: int): (r: (VerifyOutcome, map<string, Verification>))
    ensures var p := NormalizePhone(phone);
      && (p !in table ==> r == (NoCodeSent, table))
      && (p in table && now > table[p].expiresAt ==> r == (CodeExpired, table - {p}))
      && (p in table && now <= table[p].expiresAt && table[p].code != code ==> r == (WrongCode, table))
      && (p in table && now <= table[p].expiresAt && table[p].code == code ==> r == (Verified(p), table - {p}))
  {
    var p := NormalizePhone(phone);
    if p !in table then (NoCodeSent, table)
    else if now > table[p].expiresAt then (CodeExpired, table - {p})
    else if table[p].code != code then (WrongCode, table)
    else (Verified(p), table - {p})
  }

  /** A code sent at `sent` still verifies at exactly five minutes later
      and fails one millisecond after that. */
  lemma ExpiryBoundary(table: map<string, Verification>, phone: string, code: string, sent: int)
    ensures Verify(Send(table, phone, code, sent), phone, code, sent + CodeLifetime).0.Verified?
    ensures Verify(Send(table, phone, code, sent), phone, code, sent + CodeLifetime + 1).0 == CodeExpired
  {
  }

  /** A code succeeds at most once: straight after a success the same
      phone has no entry. */
  lemma SingleUse(table: map<string, Verification>, phone: string, code: string, code2: string, now: int, later: int)
    requires Verify(table, phone, code, now).0.Verified?
    ensures Verify(Verify(table, phone, code, now).1, phone, code2, later).0 == NoCodeSent
  {
  }

  /** A wrong code leaves the entry, so the right code can still follow
      in time. */
  lemma RetryAfterWrongCode(table: map<string, Verification>, phone: string, wrong: string, now: int, later: int)
    requires NormalizePhone(phone) in table
    requires wrong != table[NormalizePhone(phone)].code
    requires now <= later <= table[NormalizePhone(phone)].expiresAt
    ensures Verify(table, phone, wrong, now).0 == WrongCode
    ensures Verify(Verify(table, phone, wrong, now).1, phone, table[NormalizePhone(phone)].code, later).0.Verified?
  {
  }

  /** Two spellings of one number share one entry. */
  lemma SpellingsShareEntry(table: map<string, Verification>, phone: string, code: string, now: int)
    ensures Verify(Send(table, phone, code, now), NormalizePhone(phone), code, now).0 == Verified(NormalizePhone(phone))
  {
    NormalizeIdempotent(phone);
  }

  class AuthService {
    const mockVerificationCode: string
    var pendingVerifications: map<string, Verification>

    /** `configured` is the value of `SMS_VERIFICATION_CODE`, if set. */
    constructor (configured: Option<string>)
      ensures mockVerificationCode == configured.GetOr(DefaultCode)
      ensures pendingVerifications == map[]
    {
      mockVerificationCode := configured.GetOr(DefaultCode);
      pendingVerifications := map[];
    }

    method SendVerificationCode(phone: string, now: int) returns (normalizedPhone: string, code: string)
      modifies this
      ensures normalizedPhone == NormalizePhone(phone) && code == mockVerificationCode
      ensures pendingVerifications == Send(old(pendingVerifications), phone, mockVerificationCode, now)
    {
      normalizedPhone := NormalizePhone(phone);
      code := mockVerificationCode;
      var expiresAt := now + CodeLifetime;
      pendingVerifications := pendingVerifications[normalizedPhone := Verification(code, expiresAt)];
    }

    method VerifyCode(phone: string, code: string, now: int) returns (outcome: VerifyOutcome)
      modifies this
      ensures (outcome, pendingVerifications) == Verify(old(pendingVerifications), phone, code, now)
    {
      var normalizedPhone := NormalizePhone(phone);
      if normalizedPhone !in pendingVerifications {
        return NoCodeSent;
      }
      var verification := pendingVerifications[normalizedPhone];
      if now > verification.expiresAt {
        pendingVerifications := pendingVerifications - {normalizedPhone};
        return CodeExpired;
      }
      if verification.code != code {
        return WrongCode;
      }
      pendingVerifications := pendingVerifications - {normalizedPhone};
      outcome := Verified(normalizedPhone);
    }
  }
}
