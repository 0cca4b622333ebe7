/** The client's loan application form: a nested record edited field by
    field, a required-fields check on the raw text, conversion of the five
    numeric fields, and a token check before the request. */
module ApplyForm {
  import opened Common
  import opened Json
  import opened Http
  import opened Browser

  datatype MobileMoney = MobileMoney(averageBalance: string, transactionFrequency: string)

  /** The form as typed: every field is text, the credit history comes from a select. */
  datatype FormData = FormData(amount: string, duration: string, monthlyIncome: string,
                               creditHistory: string, mobileMoneyHistory: MobileMoney)

  const InitialForm: FormData := FormData("", "", "", "none", MobileMoney("", ""))

  /** The inputs wired to `handleChange`. */
  datatype Field = Amount | Duration | MonthlyIncome | CreditHistory

  /** The inputs wired to `handleMobileMoneyChange`. */
  datatype MoneyField = AverageBalance | TransactionFrequency

  /** `{ ...prevData, [name]: value }`. */
  function WithField(f: FormData, field: Field, value: string): (r: FormData)
    ensures r.mobileMoneyHistory == f.mobileMoneyHistory
    ensures r.amount == if field == Amount then value else f.amount
    ensures r.duration == if field == Duration then value else f.duration
    ensures r.monthlyIncome == if field == MonthlyIncome then value else f.monthlyIncome
    ensures r.creditHistory == if field == CreditHistory then value else f.creditHistory
  {
    match field
    case Amount => f.(amount := value)
    case Duration => f.(duration := value)
    case MonthlyIncome => f.(monthlyIncome := value)
    case CreditHistory => f.(creditHistory := value)
  }

  /** `{ ...prevData, mobileMoneyHistory: { ...prevData.mobileMoneyHistory, [name]: value } }`. */
  function WithMoneyField(f: FormData, field: MoneyField, value: string): (r: FormData)
    ensures r.amount == f.amount && r.duration == f.duration && r.monthlyIncome == f.monthlyIncome
    ensures r.creditHistory == f.creditHistory
    ensures r.mobileMoneyHistory.averageBalance ==
              if field == AverageBalance then value else f.mobileMoneyHistory.averageBalance
    ensures r.mobileMoneyHistory.transactionFrequency ==
              if field == TransactionFrequency then value else f.mobileMoneyHistory.transactionFrequency
  {
    match field
    case AverageBalance => f.(mobileMoneyHistory := f.mobileMoneyHistory.(averageBalance := value))
    case TransactionFrequency => f.(mobileMoneyHistory := f.mobileMoneyHistory.(transactionFrequency := value))
  }

  /** Setting a field to what it already holds changes nothing. */
  lemma WithFieldUnchanged(f: FormData, field: Field)
    ensures WithField(f, field, match field
                                  case Amount => f.amount
                                  case Duration => f.duration
                                  case MonthlyIncome => f.monthlyIncome
                                  case CreditHistory => f.creditHistory) == f
  {
  }

  /** The required check: any of the six fields empty. It looks at the raw
      text, so "0" counts as filled in. */
  predicate MissingRequired(f: FormData) {
    f.amount == "" || f.duration == "" || f.monthlyIncome == "" || f.creditHistory == "" ||
    f.mobileMoneyHistory.averageBalance == "" || f.mobileMoneyHistory.transactionFrequency == ""
  }

  /** The untouched form cannot be sent. */
  lemma InitialFormIsIncomplete()
    ensures MissingRequired(InitialForm)
    ensures InitialForm.creditHistory == "none"
  {
  }

  /** `Number(x)` as sent: `JSON.stringify` writes `NaN` as `null`.
      `number` is JavaScript's conversion, `None` standing for `NaN`. */
  function NumberJson(number: string -> Option<real>, text: string): (v: Value)
    ensures number(text).Some? ==> v == Num(number(text).value)
    ensures number(text).None? ==> v == Null
  {
    match number(text)
    case Some(x) => Num(x)
    case None => Null
  }

  /** `dataToSend`: the five numeric fields converted, the credit history
      kept as entered, the mobile-money record rebuilt with just its two fields. */
  function Payload(f: FormData, number: string -> Option<real>): (v: Value)
    ensures v.Obj? && v.fields.Keys == {"amount", "duration", "monthlyIncome", "creditHistory", "mobileMoneyHistory"}
    ensures v.fields["amount"] == NumberJson(number, f.amount)
    ensures v.fields["duration"] == NumberJson(number, f.duration)
    ensures v.fields["monthlyIncome"] == NumberJson(number, f.monthlyIncome)
    ensures v.fields["creditHistory"] == Str(f.creditHistory)
    ensures v.fields["mobileMoneyHistory"] ==
              Obj(map["averageBalance" := NumberJson(number, f.mobileMoneyHistory.averageBalance),
                      "transactionFrequency" := NumberJson(number, f.mobileMoneyHistory.transactionFrequency)])
  {
    Obj(map["amount" := NumberJson(number, f.amount),
            "duration" := NumberJson(number, f.duration),
            "monthlyIncome" := NumberJson(number, f.monthlyIncome),
            "creditHistory" := Str(f.creditHistory),
            "mobileMoneyHistory" := Obj(map["averageBalance" := NumberJson(number, f.mobileMoneyHistory.averageBalance),
                                            "transactionFrequency" := NumberJson(number, f.mobileMoneyHistory.transactionFrequency)])])
  }

  const RequiredFieldsText: string := "Please fill in all required fields."
  const NoTokenText: string := "Authentication token not found. Please log in."
  const ServerWentWrongText: string := "Something went wrong on the server."

  class Form {
    var formData: FormData
    var submissionStatus: Option<string>
    var errorMessage: string
    var submittedData: Option<Value>
    var isSubmitting: bool

    constructor ()
      ensures formData == InitialForm && submissionStatus == None && errorMessage == ""
      ensures submittedData == None && !isSubmitting
    {
      formData := InitialForm;
      submissionStatus := None;
      errorMessage := "";
      submittedData := None;
      isSubmitting := false;
    }

    /** `handleChange`. */
    method HandleChange(field: Field, value: string)
      modifies this`formData
      ensures formData == WithField(old(formData), field, value)
    {
      formData := WithField(formData, field, value);
    }

    /** `handleMobileMoneyChange`. */
    method HandleMobileMoneyChange(field: MoneyField, value: string)
      modifies this`formData
      ensures formData == WithMoneyField(old(formData), field, value)
    {
      formData := WithMoneyField(formData, field, value);
    }

    /** `handleSubmit`. `number` is JavaScript's `Number`, `response` what
        the request would come back with; `sent` is the body posted, if any.
        A missing field or a missing token stops before the request; a
        resolved request keeps the answer and resets the form. */
    method HandleSubmit(storage: Storage, number: string -> Option<real>, response: Outcome<Value>)
      returns (sent: Option<Value>)
      modifies this`formData, this`submissionStatus, this`errorMessage, this`submittedData, this`isSubmitting
      ensures !isSubmitting
      ensures sent.Some? <==> !MissingRequired(old(formData)) && HasSession(storage.items)
      ensures sent.Some? ==> sent.value == Payload(old(formData), number)
      ensures MissingRequired(old(formData)) ==>
                errorMessage == RequiredFieldsText && submissionStatus == Some("error") &&
                submittedData == None && formData == old(formData)
      ensures !MissingRequired(old(formData)) && !HasSession(storage.items) ==>
                errorMessage == NoTokenText && submissionStatus == Some("error") &&
                submittedData == None && formData == old(formData)
      ensures sent.Some? && response.Resolved? ==>
                submittedData == Some(response.data) && submissionStatus == Some("success") &&
                errorMessage == "" && formData == InitialForm
      ensures sent.Some? && !response.Resolved? ==>
                errorMessage == ExplainedFailure(response, ServerWentWrongText) && submissionStatus == Some("error") &&
                submittedData == None && formData == old(formData)
    {
      submissionStatus := None;
      errorMessage := "";
      submittedData := None;
      isSubmitting := true;
      sent := None;
      if MissingRequired(formData) {
        errorMessage := RequiredFieldsText;
        submissionStatus := Some("error");
        isSubmitting := false;
        return;
      }
      var dataToSend := Payload(formData, number);
      var token := storage.GetItem(AccessToken);
      if !Truthy(token) {
        errorMessage := NoTokenText;
        submissionStatus := Some("error");
        isSubmitting := false;
        return;
      }
      sent := Some(dataToSend);
      match response {
        case Resolved(_, data) =>
          submittedData := Some(data);
          submissionStatus := Some("success");
          errorMessage := "";
          formData := InitialForm;
        case _ =>
          submissionStatus := Some("error");
          errorMessage := ExplainedFailure(response, ServerWentWrongText);
      }
      isSubmitting := false;
    }
  }

  /** Filling in all six fields from the initial form makes it sendable. */
  method FilledFormScenario(storage: Storage, number: string -> Option<real>, response: Outcome<Value>)
    returns (sent: Option<Value>)
    requires HasSession(storage.items)
    ensures sent == Some(Payload(FormData("2500", "12", "0", "none", MobileMoney("600", "25")), number))
  {
    var form := new Form();
    form.HandleChange(Amount, "2500");
    form.HandleChange(Duration, "12");
    form.HandleChange(MonthlyIncome, "0");
    form.HandleMobileMoneyChange(AverageBalance, "600");
    form.HandleMobileMoneyChange(TransactionFrequency, "25");
    assert form.formData.creditHistory == "none";
    sent := form.HandleSubmit(storage, number, response);
  }
}
