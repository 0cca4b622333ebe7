/** The client console's payment form: its amount, method and error fields,
    the effect that pre-fills the amount, and the submit handler. */
module PaymentModal {
  import opened Common
  import opened Records
  import opened Ledger

  const DefaultMethod: string := "mobile_money"

  /** What `onSubmit` is called with. */
  datatype PaymentRequest = PaymentRequest(applicationId: Option<string>, amount: real, paymentMethod: string)

  /** The two messages the form can show; the second embeds the remaining
      balance (its locale formatting is not modelled). */
  datatype FormError = InvalidAmountError | ExceedsBalanceError(remaining: real)

  const InvalidAmountText: string := "Please enter a valid positive payment amount."

  function ErrorFor(remaining: real, c: PaymentCheck): Option<FormError> {
    match c
    case InvalidAmount => Some(InvalidAmountError)
    case ExceedsBalance => Some(ExceedsBalanceError(remaining))
    case Accepted(_) => None
  }

  class Form {
    const application: LoanRecord
    /** `parseFloat` of the amount field's text (`None` for `NaN`). */
    var paymentAmount: Option<real>
    var paymentMethod: string
    var error: Option<FormError>

    constructor (application: LoanRecord)
      ensures this.application == application
      ensures paymentAmount == None && paymentMethod == DefaultMethod && error == None
    {
      this.application := application;
      paymentAmount := None;
      paymentMethod := DefaultMethod;
      error := None;
    }

    function Remaining(): real {
      RemainingBalance(application)
    }

    /** The effect run whenever the remaining balance changes. */
    method PrefillAmount()
      modifies this`paymentAmount
      ensures paymentAmount == Some(DefaultPaymentAmount(application))
      ensures paymentAmount.value >= 0.0
    {
      paymentAmount := Some(DefaultPaymentAmount(application));
    }

    method ChangeAmount(parsed: Option<real>)
      modifies this`paymentAmount
      ensures paymentAmount == parsed
    {
      paymentAmount := parsed;
    }

    method ChangeMethod(m: string)
      modifies this`paymentMethod
      ensures paymentMethod == m
    {
      paymentMethod := m;
    }

    /** `handleSubmit`: clear the error, check the amount, then either set
        the matching error or hand the request to `onSubmit`. */
    method HandleSubmit() returns (submitted: Option<PaymentRequest>)
      modifies this`error
      ensures submitted.Some? <==> paymentAmount.Some? && 0.0 < paymentAmount.value <= Remaining() + Tolerance
      ensures submitted.Some? ==> submitted.value == PaymentRequest(application.id, paymentAmount.value, paymentMethod)
      ensures submitted.Some? <==> error == None
      ensures (paymentAmount.None? || paymentAmount.value <= 0.0) ==> error == Some(InvalidAmountError)
      ensures paymentAmount.Some? && 0.0 < paymentAmount.value && paymentAmount.value > Remaining() + Tolerance ==>
                error == Some(ExceedsBalanceError(Remaining()))
    {
      error := None;
      var check := CheckPayment(Remaining(), paymentAmount);
      match check
      case InvalidAmount =>
        error := Some(InvalidAmountError);
        submitted := None;
      case ExceedsBalance =>
        error := Some(ExceedsBalanceError(Remaining()));
        submitted := None;
      case Accepted(amount) =>
        submitted := Some(PaymentRequest(application.id, amount, paymentMethod));
    }

    /** The submit button's `disabled` attribute. */
    predicate SubmitButtonDisabled(isLoading: bool)
      reads this
    {
      SubmitDisabled(isLoading, Remaining(), paymentAmount)
    }

    /** The amount input's and the method select's `disabled` attribute. */
    predicate FieldsDisabled(isLoading: bool) {
      isLoading || Remaining() <= 0.0
    }
  }

  /** Opening the form on a loan with at least half a cent left and
      submitting the suggested amount calls `onSubmit` with it. */
  method PrefilledSubmitScenario(app: LoanRecord) returns (submitted: Option<PaymentRequest>)
    requires RemainingBalance(app) >= 0.005
    ensures submitted == Some(PaymentRequest(app.id, DefaultPaymentAmount(app), DefaultMethod))
  {
    var form := new Form(app);
    form.PrefillAmount();
    DefaultAmountIsAccepted(app);
    assert !form.SubmitButtonDisabled(false);
    submitted := form.HandleSubmit();
  }
}
