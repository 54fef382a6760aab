/** The pieces of the JavaScript runtime the TypeScript sources lean on for
    text: the white-space class `\s` (which is also the leading white space
    `parseInt` skips) and `parseInt` without a radix. */
module JsText {
  import opened Wrappers

  /** `\s`: the ECMAScript WhiteSpace and LineTerminator characters. */
  predicate IsSpace(c: char) {
    || c == '\t' || c == '\n' || c == '\U{000B}' || c == '\U{000C}' || c == '\r' || c == ' '
    || c == '\U{00A0}' || c == '\U{1680}' || ('\U{2000}' <= c <= '\U{200A}')
    || c == '\U{2028}' || c == '\U{2029}' || c == '\U{202F}' || c == '\U{205F}'
    || c == '\U{3000}' || c == '\U{FEFF}'
  }

  predicate IsDigit(c: char) {
    '0' <= c <= '9'
  }

  /** A digit of radix 16 (`hex`) or radix 10. */
  predicate IsRadixDigit(c: char, hex: bool) {
    IsDigit(c) || (hex && (('a' <= c <= 'f') || ('A' <= c <= 'F')))
  }

  function DigitValue(c: char, hex: bool): (v: nat)
    requires IsRadixDigit(c, hex)
    ensures v < (if hex then 16 else 10)
  {
    if IsDigit(c) then c as int - '0' as int
    else if 'a' <= c <= 'f' then c as int - 'a' as int + 10
    else c as int - 'A' as int + 10
  }

  predicate AllDigits(s: string, hex: bool) {
    forall k :: 0 <= k < |s| ==> IsRadixDigit(s[k], hex)
  }

  /** The value of a string of digits, most significant first. */
  function Value(s: string, hex: bool): nat
    requires AllDigits(s, hex)
  {
    if s == [] then 0
    else Value(s[..|s| - 1], hex) * (if hex then 16 else 10) + DigitValue(s[|s| - 1], hex)
  }

  /** The string with its leading white space removed. */
  function TrimStart(s: string): (r: string)
    ensures |r| <= |s| && r == s[|s| - |r|..]
    ensures forall k :: 0 <= k < |s| - |r| ==> IsSpace(s[k])
    ensures r == [] || !IsSpace(r[0])
  {
    if s != [] && IsSpace(s[0]) then TrimStart(s[1..]) else s
  }

  /** The length of the longest prefix made of digits. */
  function DigitRun(s: string, hex: bool): (n: nat)
    ensures n <= |s|
    ensures AllDigits(s[..n], hex)
    ensures n < |s| ==> !IsRadixDigit(s[n], hex)
  {
    if s != [] && IsRadixDigit(s[0], hex) then
      var n := DigitRun(s[1..], hex) + 1;
      assert s[..n] == [s[0]] + s[1..][..n - 1];
      n
    else 0
  }

  /** `parseInt(s)` with no radix argument (section 19.2.5 of ECMA-262):
      leading white space is skipped, one sign is read, a `0x`/`0X` prefix
      switches to radix 16, and the longest run of digits is read; `None`
      stands for `NaN`, returned when that run is empty. Minus zero is 0. */
  function ParseInt(s: string): (r: Option<int>)
  {
    var t := TrimStart(s);
    var negative := t != [] && t[0] == '-';
    var u := if t != [] && (t[0] == '-' || t[0] == '+') then t[1..] else t;
    var hex := |u| >= 2 && u[0] == '0' && (u[1] == 'x' || u[1] == 'X');
    var digits := if hex then u[2..] else u;
    var n := DigitRun(digits, hex);
    if n == 0 then None
    else
      var v: int := Value(digits[..n], hex);
      Some(if negative then -v else v)
  }

  /** A string of decimal digits parses to its value. */
  lemma ParseIntOfDigits(s: string)
    requires s != [] && AllDigits(s, false)
    ensures ParseInt(s) == Some(Value(s, false))
  {
    assert IsRadixDigit(s[0], false);
    assert !IsSpace(s[0]) && s[0] != '-' && s[0] != '+';
    assert TrimStart(s) == s;
    assert |s| >= 2 ==> IsRadixDigit(s[1], false) && s[1] != 'x' && s[1] != 'X';
    DigitRunAll(s, false);
    assert s[..|s|] == s;
  }

  /** Text that starts with anything but white space, a sign or a digit is
      `NaN`. */
  lemma ParseIntNaN(s: string)
    requires s != [] && !IsSpace(s[0]) && !IsDigit(s[0]) && s[0] != '-' && s[0] != '+'
    ensures ParseInt(s) == None
  {
    assert TrimStart(s) == s;
  }

  lemma {:induction false} DigitRunAll(s: string, hex: bool)
    requires AllDigits(s, hex)
    ensures DigitRun(s, hex) == |s|
  {
    if s != [] {
      DigitRunAll(s[1..], hex);
    }
  }
}
