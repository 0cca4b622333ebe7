/** The loan application record as the two consoles read it from the API.
    Every field may be absent (JavaScript `undefined`), hence the Options. */
module Records {
  import opened Common

  datatype LoanRecord = LoanRecord(
    id: Option<string>,
    amount: Option<real>,
    totalPaid: Option<real>,
    status: Option<string>,
    riskScore: Option<real>,
    // `explanation.feature_importances` as `Object.entries` lists it
    featureImportances: Option<seq<(string, real)>>)
}
