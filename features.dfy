/** What the scoring script and the scoring module share: the model's
    column order, the credit-history table, and the shapes of the model
    and of the explainer, both opaque functions of one feature row. */
module Features {
  import opened Common
  import opened Json

  /** The column order the model was trained with. */
  const FeatureColumns: seq<string> :=
    ["amount", "duration", "monthly_income", "credit_history_encoded", "avg_balance", "txn_frequency"]

  /** `{'none': 0, 'fair': 1, 'good': 2, 'excellent': 3}`. */
  const CreditMapping: map<string, int> := map["none" := 0, "fair" := 1, "good" := 2, "excellent" := 3]

  /** `credit_mapping.get(name, 0)` on a string key. */
  function CreditCode(name: string): (c: int)
    ensures 0 <= c <= 3
    ensures name in CreditMapping ==> c == CreditMapping[name]
    ensures name !in CreditMapping ==> c == 0
  {
    if name in CreditMapping then CreditMapping[name] else 0
  }

  /** One row of the model's input, field by field. */
  datatype Row = Row(amount: Value, duration: Value, monthlyIncome: Value, creditHistoryEncoded: int,
                     avgBalance: Value, txnFrequency: Value)

  /** The row as the one-line data frame lays it out: named columns in
      the trained order. */
  function Columns(row: Row): (cols: seq<(string, Value)>)
    ensures |cols| == |FeatureColumns|
    ensures forall i :: 0 <= i < |cols| ==> cols[i].0 == FeatureColumns[i]
    ensures cols[3].1 == Num(row.creditHistoryEncoded as real)
  {
    [("amount", row.amount), ("duration", row.duration), ("monthly_income", row.monthlyIncome),
     ("credit_history_encoded", Num(row.creditHistoryEncoded as real)),
     ("avg_balance", row.avgBalance), ("txn_frequency", row.txnFrequency)]
  }

  /** The trained classifier: the probability of the positive (risky) class. */
  datatype Model = Model(riskOf: Row -> real)

  /** The SHAP explainer: the base value and one value per column, for the
      positive class. */
  datatype Explainer = Explainer(baseValue: Row -> real, shapValues: Row -> seq<real>)

  /** `{'base_value': ..., 'feature_importances': {...}}`, importances in column order. */
  datatype Explanation = Explanation(baseValue: real, featureImportances: seq<(string, real)>)

  /** Python's `zip`: pairs up to the shorter of the two lists. */
  function Zip(names: seq<string>, values: seq<real>): (pairs: seq<(string, real)>)
    ensures |pairs| == Min(|names|, |values|)
    ensures forall i :: 0 <= i < |pairs| ==> pairs[i] == (names[i], values[i])
  {
    seq(Min(|names|, |values|), i requires 0 <= i < Min(|names|, |values|) => (names[i], values[i]))
  }

  /** The explanation both scorers build from an explainer. */
  function Explain(e: Explainer, row: Row): (x: Explanation)
    ensures x.baseValue == e.baseValue(row)
    ensures |x.featureImportances| == Min(|FeatureColumns|, |e.shapValues(row)|)
    ensures forall i :: 0 <= i < |x.featureImportances| ==>
              x.featureImportances[i] == (FeatureColumns[i], e.shapValues(row)[i])
  {
    Explanation(e.baseValue(row), Zip(FeatureColumns, e.shapValues(row)))
  }

  /** The explanation as JSON. */
  function ExplanationValue(x: Explanation): (v: Value)
    ensures v.Obj? && v.fields.Keys == {"base_value", "feature_importances"}
    ensures v.fields["base_value"] == Num(x.baseValue)
    ensures v.fields["feature_importances"].Obj? &&
            v.fields["feature_importances"].fields.Keys == set i | 0 <= i < |x.featureImportances| :: x.featureImportances[i].0
  {
    Obj(map["base_value" := Num(x.baseValue),
            "feature_importances" := Obj(ToDict(x.featureImportances))])
  }

  /** `dict(pairs)`: a later pair overrides an earlier one with the same name. */
  function ToDict(pairs: seq<(string, real)>): (d: map<string, Value>)
    ensures d.Keys == set i | 0 <= i < |pairs| :: pairs[i].0
  {
    if pairs == [] then map[]
    else
      var last := pairs[|pairs| - 1];
      ToDict(pairs[..|pairs| - 1])[last.0 := Num(last.1)]
  }

  /** The value under a name is that of the last pair carrying it. */
  lemma {:induction false} ToDictLastWins(pairs: seq<(string, real)>, i: nat)
    requires i < |pairs|
    requires forall j :: i < j < |pairs| ==> pairs[j].0 != pairs[i].0
    ensures pairs[i].0 in ToDict(pairs) && ToDict(pairs)[pairs[i].0] == Num(pairs[i].1)
    decreases |pairs|
  {
    if i < |pairs| - 1 {
      var init := pairs[..|pairs| - 1];
      assert init[i] == pairs[i];
      assert forall j :: i < j < |init| ==> init[j] == pairs[j];
      ToDictLastWins(init, i);
    }
  }

  /** The importances written out: each trained column the explainer gave
      a value for carries exactly that SHAP value. */
  lemma ExplainedImportance(e: Explainer, row: Row, i: nat)
    requires i < Min(|FeatureColumns|, |e.shapValues(row)|)
    ensures var importances := ExplanationValue(Explain(e, row)).fields["feature_importances"].fields;
            FeatureColumns[i] in importances && importances[FeatureColumns[i]] == Num(e.shapValues(row)[i])
  {
    var pairs := Explain(e, row).featureImportances;
    assert forall j, k :: 0 <= j < k < |FeatureColumns| ==> FeatureColumns[j] != FeatureColumns[k];
    ToDictLastWins(pairs, i);
  }
}
