/** The scoring script the server runs as a subprocess: it reads one
    application, builds the model's feature row, scores it, explains the
    score, and prints one JSON object. */
module PredictScript {
  import opened Common
  import opened Json
  import opened Features

  /** `credit_mapping.get(history, 0)`: an exact, case-sensitive lookup
      with 0 for anything else. A list or an object cannot be a dict key,
      so looking one up raises TypeError. */
  function MapCreditScore(history: Value): (r: Try<int>)
    ensures history.Str? ==> r == Ok(CreditCode(history.s))
    ensures r.Raise? <==> history.Arr? || history.Obj?
    ensures r.Raise? ==> r.exc == TypeError
    ensures r.Ok? ==> 0 <= r.value <= 3
  {
    match history
    case Str(s) => Ok(CreditCode(s))
    case Arr(_) => Raise(TypeError)
    case Obj(_) => Raise(TypeError)
    case _ => Ok(0)
  }

  /** The five top-level keys the script reads. */
  const InputKeys: set<string> := {"amount", "duration", "monthlyIncome", "creditHistory", "mobileMoneyHistory"}

  /** Everything the script needs is there, with a hashable credit history
      and a mobile-money object holding both of its fields. */
  predicate Complete(data: Value) {
    data.Obj? && InputKeys <= data.fields.Keys &&
    !data.fields["creditHistory"].Arr? && !data.fields["creditHistory"].Obj? &&
    data.fields["mobileMoneyHistory"].Obj? &&
    "averageBalance" in data.fields["mobileMoneyHistory"].fields &&
    "transactionFrequency" in data.fields["mobileMoneyHistory"].fields
  }

  /** `preprocess_input`: the dict literal is evaluated field by field in
      column order, each `[...]` raising on a missing key. */
  function PreprocessInput(data: Value): (r: Try<Row>)
    ensures r.Ok? <==> Complete(data)
    ensures r.Ok? ==>
              var f := data.fields;
              var m := f["mobileMoneyHistory"].fields;
              r.value == Row(f["amount"], f["duration"], f["monthlyIncome"], MapCreditScore(f["creditHistory"]).value,
                             m["averageBalance"], m["transactionFrequency"])
    ensures data.Obj? && "amount" !in data.fields ==> r == Raise(KeyError)
    ensures !data.Obj? ==> r == Raise(TypeError)
  {
    var amount :- Subscript(data, "amount");
    var duration :- Subscript(data, "duration");
    var income :- Subscript(data, "monthlyIncome");
    var history :- Subscript(data, "creditHistory");
    var code :- MapCreditScore(history);
    var money :- Subscript(data, "mobileMoneyHistory");
    var balance :- Subscript(money, "averageBalance");
    var frequency :- Subscript(money, "transactionFrequency");
    Ok(Row(amount, duration, income, code, balance, frequency))
  }

  /** `'approve' if risk_score < 0.3 else 'review'`. */
  function Recommendation(score: real): (r: string)
    ensures r == "approve" <==> score < 0.3
    ensures r == "review" <==> score >= 0.3
  {
    if score < 0.3 then "approve" else "review"
  }

  /** The script never recommends rejection, however high the risk. */
  lemma NeverRejects(score: real)
    ensures Recommendation(score) in {"approve", "review"}
    ensures Recommendation(score) != "reject"
  {
  }

  /** The printed object: exactly the score, the recommendation and the explanation. */
  function ScriptOutput(score: real, x: Explanation): (v: Value)
    ensures v.Obj? && v.fields.Keys == {"riskScore", "recommendation", "explanation"}
    ensures v.fields["riskScore"] == Num(score)
    ensures v.fields["recommendation"] == Str(Recommendation(score))
    ensures v.fields["explanation"] == ExplanationValue(x)
  {
    Obj(map["riskScore" := Num(score), "recommendation" := Str(Recommendation(score)),
            "explanation" := ExplanationValue(x)])
  }

  /** The main block on the parsed argument: an exception ends the script
      (with a non-zero exit code), otherwise the output object is printed. */
  function RunScript(application: Value, model: Model, explainer: Explainer): (r: Try<Value>)
    ensures r.Ok? <==> Complete(application)
    ensures r.Ok? ==>
              var row := PreprocessInput(application).value;
              r.value == ScriptOutput(model.riskOf(row), Explain(explainer, row))
  {
    var row :- PreprocessInput(application);
    var score := model.riskOf(row);
    Ok(ScriptOutput(score, Explain(explainer, row)))
  }
}
