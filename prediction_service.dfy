/** The in-process scoring module: a model and an explainer held in two
    module globals and loaded at most once, a case-insensitive credit
    mapping, a forgiving preprocessing step, and a three-way
    recommendation. */
module PredictionService {
  import opened Common
  import opened Json
  import opened Features

  /** `_credit_mapping.get(history.lower(), 0)`. Only strings have
      `lower()`; a missing history (`None`) raises AttributeError. */
  function MapCreditScore(history: Value): (r: Try<int>)
    ensures r.Ok? <==> history.Str?
    ensures history.Str? ==> r.value == CreditCode(Lower(history.s))
    ensures !history.Str? ==> r == Raise(AttributeError)
  {
    if history.Str? then Ok(CreditCode(Lower(history.s))) else Raise(AttributeError)
  }

  /** The mapping ignores case: a name and its lower-case form score alike. */
  lemma {:induction false} CreditMappingIgnoresCase(s: string)
    ensures MapCreditScore(Str(s)) == MapCreditScore(Str(Lower(s)))
  {
    LowerIdempotent(s);
  }

  /** `_preprocess_input`: every field is read with `get`, so a missing one
      becomes `None` and a missing `mobileMoneyHistory` counts as `{}`. Only
      a request that is not an object, a credit history that is not a
      string, or a mobile-money value that is not an object raise. */
  function PreprocessInput(data: Value): (r: Try<Row>)
    ensures r.Ok? <==>
              data.Obj? && "creditHistory" in data.fields && data.fields["creditHistory"].Str? &&
              ("mobileMoneyHistory" in data.fields ==> data.fields["mobileMoneyHistory"].Obj?)
    ensures r.Raise? ==> r.exc == AttributeError
    ensures r.Ok? ==>
              var f := data.fields;
              var m := if "mobileMoneyHistory" in f then f["mobileMoneyHistory"].fields else map[];
              r.value == Row(if "amount" in f then f["amount"] else Null,
                             if "duration" in f then f["duration"] else Null,
                             if "monthlyIncome" in f then f["monthlyIncome"] else Null,
                             CreditCode(Lower(f["creditHistory"].s)),
                             if "averageBalance" in m then m["averageBalance"] else Null,
                             if "transactionFrequency" in m then m["transactionFrequency"] else Null)
  {
    if !data.Obj? then Raise(AttributeError)
    else
      var money := GetOr(data, "mobileMoneyHistory", Obj(map[])).value;
      var code := MapCreditScore(GetOr(data, "creditHistory", Null).value);
      if code.Raise? then Raise(code.exc)
      else if !money.Obj? then Raise(AttributeError)
      else
        Ok(Row(GetOr(data, "amount", Null).value, GetOr(data, "duration", Null).value,
               GetOr(data, "monthlyIncome", Null).value, code.value,
               GetOr(money, "averageBalance", Null).value, GetOr(money, "transactionFrequency", Null).value))
  }

  /** `'approved'` below 0.3, `'rejected'` from 0.7 on, `'review'` between. */
  function Recommendation(score: real): (r: string)
    ensures r == "approved" <==> score < 0.3
    ensures r == "rejected" <==> score >= 0.7
    ensures r == "review" <==> 0.3 <= score < 0.7
  {
    var recommendation := if score < 0.3 then "approved" else "review";
    if score >= 0.7 then "rejected" else recommendation
  }

  /** How far a recommendation leans toward rejection. */
  function Severity(recommendation: string): nat {
    if recommendation == "approved" then 0 else if recommendation == "review" then 1 else 2
  }

  /** A higher score never gives a milder recommendation. */
  lemma RecommendationMonotone(s1: real, s2: real)
    requires s1 <= s2
    ensures Severity(Recommendation(s1)) <= Severity(Recommendation(s2))
  {
  }

  /** `_explain_prediction`: without an explainer, a zero base value and no importances. */
  function ExplainPrediction(explainer: Option<Explainer>, row: Row): (x: Explanation)
    ensures explainer.None? ==> x == Explanation(0.0, [])
    ensures explainer.Some? ==> x == Explain(explainer.value, row)
  {
    if explainer.None? then Explanation(0.0, []) else Explain(explainer.value, row)
  }

  /** What `get_loan_prediction` returns. */
  datatype Prediction = Prediction(riskScore: real, recommendation: string, explanation: Explanation)

  /** How an attempt to load the model can go: the file is missing, it
      cannot be unpickled, the explainer cannot be built from the loaded
      model, or both are ready. */
  datatype LoadAttempt = FileMissing | Unreadable | ExplainerFailed(model: Model) | Loaded(model: Model, explainer: Explainer)

  /** The module's two globals. */
  class Service {
    var model: Option<Model>
    var explainer: Option<Explainer>

    /** At import time neither is loaded. */
    constructor ()
      ensures model == None && explainer == None
      ensures Valid()
    {
      model := None;
      explainer := None;
    }

    /** The two are loaded together or not at all. */
    predicate Valid()
      reads this
    {
      model.Some? <==> explainer.Some?
    }

    /** `load_ml_model_and_explainer`: a no-op once the model is loaded;
        otherwise the model is set first, and any failure resets both. */
    method LoadMlModelAndExplainer(attempt: LoadAttempt)
      requires Valid()
      modifies this
      ensures Valid()
      ensures old(model).Some? ==> model == old(model) && explainer == old(explainer)
      ensures old(model).None? && attempt.Loaded? ==> model == Some(attempt.model) && explainer == Some(attempt.explainer)
      ensures old(model).None? && !attempt.Loaded? ==> model == None && explainer == None
    {
      if model.Some? {
        return;
      }
      match attempt
      case FileMissing =>
        model, explainer := None, None;
      case Unreadable =>
        model, explainer := None, None;
      case ExplainerFailed(m) =>
        model := Some(m);
        model, explainer := None, None;
      case Loaded(m, e) =>
        model := Some(m);
        explainer := Some(e);
    }

    /** `get_loan_prediction`: RuntimeError before anything else when the
        model is not loaded; otherwise preprocess, score, recommend and explain. */
    method GetLoanPrediction(data: Value) returns (r: Try<Prediction>)
      requires Valid()
      ensures model.None? ==> r == Raise(RuntimeError)
      ensures model.Some? && PreprocessInput(data).Raise? ==> r == Raise(AttributeError)
      ensures model.Some? && PreprocessInput(data).Ok? ==>
                var row := PreprocessInput(data).value;
                var score := model.value.riskOf(row);
                r == Ok(Prediction(score, Recommendation(score), Explain(explainer.value, row)))
    {
      if model.None? {
        return Raise(RuntimeError);
      }
      var features := PreprocessInput(data);
      if features.Raise? {
        return Raise(features.exc);
      }
      var score := model.value.riskOf(features.value);
      var recommendation := Recommendation(score);
      var explanation := ExplainPrediction(explainer, features.value);
      r := Ok(Prediction(score, recommendation, explanation));
    }
  }

  /** A second load never replaces what the first one loaded. */
  method LoadTwiceScenario(m: Model, e: Explainer, later: LoadAttempt) returns (s: Service)
    ensures s.model == Some(m) && s.explainer == Some(e)
  {
    s := new Service();
    s.LoadMlModelAndExplainer(Loaded(m, e));
    s.LoadMlModelAndExplainer(later);
  }
}
