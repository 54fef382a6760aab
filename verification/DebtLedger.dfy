/** src/components/app/debt-manager.tsx: a list of debts, each with its
    payments. A debt card shows the total paid and what remains and only
    forwards a payment that does not exceed what remains; the manager
    appends debts and appends a payment to the debt with the given id.
    Amounts are exact `real`s; ids and dates are supplied by the caller in
    place of `crypto.randomUUID()` and `new Date()`. */
module DebtLedger {

  datatype Payment = Payment(id: string, amount: real, date: int)

  datatype Debt = Debt(id: string, creditor: string, initialAmount: real, payments: seq<Payment>)

  /** `addDebtSchema`: a creditor of at least two characters and a positive
      amount. */
  predicate AddDebtValid(creditor: string, initialAmount: real) {
    |creditor| >= 2 && initialAmount > 0.0
  }

  /** `addPaymentSchema`: a positive amount. */
  predicate PaymentValid(amount: real) {
    amount > 0.0
  }

  /** `payments.reduce((sum, p) => sum + p.amount, 0)`, summed from the
      first payment on. */
  function TotalPaid(ps: seq<Payment>): real {
    if ps == [] then 0.0 else TotalPaid(ps[..|ps| - 1]) + ps[|ps| - 1].amount
  }

  /** What is left to pay. */
  function Remaining(d: Debt): real {
    d.initialAmount - TotalPaid(d.payments)
  }

  /** The Add Payment button is enabled only while something remains;
      otherwise it reads 'Paid in Full'. */
  predicate PaymentButtonEnabled(d: Debt) {
    Remaining(d) > 0.0
  }

  /** Appending a payment of amount `a` lowers what remains by exactly
      `a`. */
  lemma PaymentLowersRemaining(d: Debt, p: Payment)
    ensures Remaining(d.(payments := d.payments + [p])) == Remaining(d) - p.amount
  {
    assert (d.payments + [p])[..|d.payments|] == d.payments;
  }

  /** Paying exactly what remains disables the button ('Paid in Full');
      paying less leaves it enabled. */
  lemma PayingRemainderDisablesButton(d: Debt, p: Payment)
    requires 0.0 < p.amount <= Remaining(d)
    ensures PaymentButtonEnabled(d.(payments := d.payments + [p])) <==> p.amount < Remaining(d)
  {
    PaymentLowersRemaining(d, p);
  }

  datatype SubmitOutcome = Overpayment(remaining: real) | Forwarded(debtId: string, amount: real)

  /** `DebtCard.onSubmit`: a payment above what remains is refused with an
      error naming the remainder and never reaches `onAddPayment`; any
      other is forwarded with the card's debt id. */
  function SubmitPayment(d: Debt, amount: real): (r: SubmitOutcome)
    ensures r.Forwarded? <==> amount <= Remaining(d)
    ensures r.Forwarded? ==> r == Forwarded(d.id, amount)
    ensures r.Overpayment? ==> r.remaining == Remaining(d) < amount
  {
    if amount > Remaining(d) then Overpayment(Remaining(d)) else Forwarded(d.id, amount)
  }

  /** Every payment was positive and at most what remained just before
      it. */
  predicate Guarded(d: Debt) {
    forall k :: 0 <= k < |d.payments| ==>
      0.0 < d.payments[k].amount <= d.initialAmount - TotalPaid(d.payments[..k])
  }

  /** A debt of positive amount whose payments all passed the guard is
      never overpaid: the total paid stays within the initial amount. */
  lemma {:induction false} GuardedNeverOverpaid(d: Debt)
    requires d.initialAmount > 0.0 && Guarded(d)
    ensures 0.0 <= TotalPaid(d.payments) <= d.initialAmount
    ensures Remaining(d) >= 0.0
    decreases |d.payments|
  {
    var ps := d.payments;
    if ps != [] {
      var n := |ps| - 1;
      var shorter := d.(payments := ps[..n]);
      forall k | 0 <= k < n
        ensures 0.0 < shorter.payments[k].amount <= shorter.initialAmount - TotalPaid(shorter.payments[..k])
      {
        assert shorter.payments[..k] == ps[..k];
      }
      GuardedNeverOverpaid(shorter);
      assert 0.0 < ps[n].amount <= d.initialAmount - TotalPaid(ps[..n]);
    }
  }

  /** A forwarded payment keeps a guarded debt guarded. */
  lemma ForwardedKeepsGuarded(d: Debt, p: Payment)
    requires Guarded(d) && PaymentValid(p.amount) && SubmitPayment(d, p.amount).Forwarded?
    ensures Guarded(d.(payments := d.payments + [p]))
  {
    var ps := d.payments + [p];
    forall k | 0 <= k < |ps|
      ensures 0.0 < ps[k].amount <= d.initialAmount - TotalPaid(ps[..k])
    {
      if k < |d.payments| {
        assert ps[..k] == d.payments[..k];
      } else {
        assert ps[..k] == d.payments;
      }
    }
  }

  /** `onAddPayment`: every debt with the id gains the payment at the end
      of its history; every other debt is unchanged. */
  function AddPayment(debts: seq<Debt>, debtId: string, p: Payment): (r: seq<Debt>)
    ensures |r| == |debts|
    ensures forall k :: 0 <= k < |r| ==>
      r[k] == if debts[k].id == debtId then debts[k].(payments := debts[k].payments + [p]) else debts[k]
  {
    seq(|debts|, k requires 0 <= k < |debts| =>
      if debts[k].id == debtId then debts[k].(payments := debts[k].payments + [p]) else debts[k])
  }

  /** Debt ids are distinct. */
  predicate IdsDistinct(debts: seq<Debt>) {
    forall i, j :: 0 <= i < j < |debts| ==> debts[i].id != debts[j].id
  }

  class DebtManager {
    var debts: seq<Debt>

    /** Ids are distinct, every debt passed the add-debt schema and every
        payment passed the card's guard. */
    ghost predicate Valid()
      reads this
    {
      && IdsDistinct(debts)
      && forall k :: 0 <= k < |debts| ==> debts[k].initialAmount > 0.0 && Guarded(debts[k])
    }

    constructor ()
      ensures Valid() && debts == []
    {
      debts := [];
    }

    /** `onAddDebt`, with `id` the fresh id. */
    method OnAddDebt(creditor: string, initialAmount: real, id: string)
      requires Valid() && AddDebtValid(creditor, initialAmount)
      requires forall k :: 0 <= k < |debts| ==> debts[k].id != id
      modifies this
      ensures Valid()
      ensures debts == old(debts) + [Debt(id, creditor, initialAmount, [])]
    {
      debts := debts + [Debt(id, creditor, initialAmount, [])];
    }

    /** `onAddPayment`, with `paymentId` and `date` for the new payment. On
        its own it checks nothing; a positive payment within what remains
        on every debt it reaches keeps the ledger valid. */
    method OnAddPayment(debtId: string, amount: real, paymentId: string, date: int)
      requires Valid()
      modifies this
      ensures debts == AddPayment(old(debts), debtId, Payment(paymentId, amount, date))
      ensures (PaymentValid(amount)
               && forall k :: 0 <= k < |old(debts)| && old(debts)[k].id == debtId ==> amount <= Remaining(old(debts)[k]))
              ==> Valid()
    {
      var p := Payment(paymentId, amount, date);
      ghost var before := debts;
      debts := AddPayment(debts, debtId, p);
      if PaymentValid(amount) && forall k :: 0 <= k < |before| && before[k].id == debtId ==> amount <= Remaining(before[k]) {
        forall k | 0 <= k < |debts|
          ensures debts[k].initialAmount > 0.0 && Guarded(debts[k])
        {
          if before[k].id == debtId {
            ForwardedKeepsGuarded(before[k], p);
          }
        }
      }
    }

    /** The payment form of the card for `debts[k]`: a valid payment is
        checked against what remains and, if it fits, added. The ledger
        stays valid either way. */
    method SubmitPaymentAt(k: nat, amount: real, paymentId: string, date: int) returns (outcome: SubmitOutcome)
      requires Valid() && k < |debts| && PaymentValid(amount)
      modifies this
      ensures Valid()
      ensures outcome == SubmitPayment(old(debts)[k], amount)
      ensures outcome.Overpayment? ==> debts == old(debts)
      ensures outcome.Forwarded? ==> debts == AddPayment(old(debts), old(debts)[k].id, Payment(paymentId, amount, date))
      ensures forall j :: 0 <= j < |debts| ==> Remaining(debts[j]) >= 0.0
    {
      outcome := SubmitPayment(debts[k], amount);
      if outcome.Forwarded? {
        OnAddPayment(outcome.debtId, outcome.amount, paymentId, date);
      }
      forall j | 0 <= j < |debts| ensures Remaining(debts[j]) >= 0.0 {
        GuardedNeverOverpaid(debts[j]);
      }
    }
  }
}
