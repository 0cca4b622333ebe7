/** The loan ledger rules of the client console: the remaining balance of a
    loan, the amount the payment form suggests, the bounds a payment amount
    must respect, and when the payment buttons are disabled. Money is a real
    number; the floating-point rounding of the browser is not modelled. */
module Ledger {
  import opened Common
  import opened Records

  /** Slack allowed above the remaining balance. */
  const Tolerance: real := 0.01

  /** `x || 0` for a possibly-missing number. */
  function OrZero(x: Option<real>): real {
    if x.Some? then x.value else 0.0
  }

  function Max(a: real, b: real): real {
    if a >= b then a else b
  }

  /** `(amount || 0) - (totalPaid || 0)`: never floored, so it is negative
      after an overpayment. */
  function RemainingBalance(app: LoanRecord): (r: real)
    ensures r + OrZero(app.totalPaid) == OrZero(app.amount)
    ensures app.amount.Some? && app.totalPaid.Some? ==> r + app.totalPaid.value == app.amount.value
  {
    OrZero(app.amount) - OrZero(app.totalPaid)
  }

  /** `toFixed(2)` on a non-negative number read back as a number: the
      nearest whole number of cents, halves rounded up. */
  function RoundToCents(x: real): (r: real)
    requires x >= 0.0
    ensures r >= 0.0
    ensures x - 0.005 < r <= x + 0.005
    ensures (r * 100.0).Floor as real == r * 100.0
  {
    var n := (x * 100.0 + 0.5).Floor;
    assert n >= 0;
    n as real / 100.0
  }

  /** The pre-filled amount: `Math.max(0, remaining).toFixed(2)`. */
  function DefaultPaymentAmount(app: LoanRecord): (r: real)
    ensures r >= 0.0
    ensures RemainingBalance(app) <= 0.0 ==> r == 0.0
    ensures RemainingBalance(app) > 0.0 ==> RemainingBalance(app) - 0.005 < r <= RemainingBalance(app) + 0.005
  {
    var x := Max(0.0, RemainingBalance(app));
    assert x == 0.0 ==> RoundToCents(x) * 100.0 < 1.0;
    RoundToCents(x)
  }

  /** The outcome of the checks `handleSubmit` makes on the parsed amount
      (`None` stands for `NaN`, what `parseFloat` gives for text that is not a number). */
  datatype PaymentCheck = InvalidAmount | ExceedsBalance | Accepted(amount: real)

  function CheckPayment(remaining: real, amount: Option<real>): (r: PaymentCheck)
    ensures r.Accepted? <==> amount.Some? && 0.0 < amount.value <= remaining + Tolerance
    ensures r.Accepted? ==> r.amount == amount.value
    ensures r == InvalidAmount <==> amount.None? || amount.value <= 0.0
    ensures r == ExceedsBalance <==> amount.Some? && amount.value > 0.0 && amount.value > remaining + Tolerance
  {
    if amount.None? || amount.value <= 0.0 then InvalidAmount
    else if amount.value > remaining + Tolerance then ExceedsBalance
    else Accepted(amount.value)
  }

  /** The submit button's `disabled` expression. A comparison with `NaN` is
      false, so an unparseable amount does not by itself disable the button. */
  predicate SubmitDisabled(isLoading: bool, remaining: real, amount: Option<real>) {
    || isLoading
    || remaining <= 0.0
    || (amount.Some? && amount.value <= 0.0)
    || (amount.Some? && amount.value > remaining + Tolerance)
  }

  /** "Make Payment" on a card is disabled when nothing remains or the loan was rejected. */
  predicate MakePaymentDisabled(app: LoanRecord) {
    RemainingBalance(app) <= 0.0 || app.status == Some("rejected")
  }

  /** An enabled submit button and a parseable amount mean the checks pass. */
  lemma EnabledSubmitPassesChecks(isLoading: bool, remaining: real, amount: Option<real>)
    requires !SubmitDisabled(isLoading, remaining, amount)
    ensures amount.Some? ==> CheckPayment(remaining, amount).Accepted?
    ensures amount.None? ==> CheckPayment(remaining, amount) == InvalidAmount
    ensures !isLoading && remaining > 0.0
  {
  }

  /** A fully paid loan cannot be paid from its card or from the form. */
  lemma FullyPaidLoanIsNotPayable(app: LoanRecord, isLoading: bool, amount: Option<real>)
    requires OrZero(app.totalPaid) >= OrZero(app.amount)
    ensures MakePaymentDisabled(app)
    ensures SubmitDisabled(isLoading, RemainingBalance(app), amount)
  {
  }

  /** Within the tolerance a payment is accepted, a whole unit above it is not. */
  lemma ToleranceBoundary(remaining: real)
    requires remaining > -0.005
    ensures CheckPayment(remaining, Some(remaining + 0.005)).Accepted?
    ensures CheckPayment(remaining, Some(remaining + 1.0)) == ExceedsBalance
  {
  }

  /** The suggested amount passes the checks, and leaves the button enabled,
      whenever at least half a cent remains. */
  lemma {:induction false} DefaultAmountIsAccepted(app: LoanRecord)
    requires RemainingBalance(app) >= 0.005
    ensures CheckPayment(RemainingBalance(app), Some(DefaultPaymentAmount(app))).Accepted?
    ensures !SubmitDisabled(false, RemainingBalance(app), Some(DefaultPaymentAmount(app)))
  {
    var x := RemainingBalance(app);
    var n := (x * 100.0 + 0.5).Floor;
    assert x * 100.0 + 0.5 >= 1.0;
    assert n >= 1;
    assert DefaultPaymentAmount(app) == n as real / 100.0;
  }

  /** Below half a cent the suggestion rounds to 0.00 and the button is disabled. */
  lemma {:induction false} TinyBalanceRoundsToZero(app: LoanRecord)
    requires 0.0 < RemainingBalance(app) < 0.005
    ensures DefaultPaymentAmount(app) == 0.0
    ensures SubmitDisabled(false, RemainingBalance(app), Some(DefaultPaymentAmount(app)))
  {
    var x := RemainingBalance(app);
    var n := (x * 100.0 + 0.5).Floor;
    assert n as real <= x * 100.0 + 0.5 < 1.0;
    assert n == 0;
  }
}
