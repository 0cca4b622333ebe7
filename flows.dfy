/** How the pieces meet: what the client forms send against what the
    server and the two scorers accept, and how the two scorers differ. */
module Flows {
  import opened Common
  import opened Json
  import Server
  import SignupForm
  import ApplyForm
  import PredictScript
  import PredictionService
  import StatusUpdateModal

  /** An address the signup form accepts also passes the server's check. */
  lemma {:induction false} ClientEmailPassesServer(s: string)
    requires SignupForm.ValidateEmail(s)
    ensures Server.EmailPrefixOk(s)
  {
    SignupForm.ScanFindsMatch(s);
    var a, d :| SignupForm.EmailWitness(s, a, d);
    assert Server.EmailWitness(s, a, d);
    Server.WitnessPassesScan(s, a, d);
  }

  /** The converse fails: the server matches a prefix only, so an address
      with a trailing space or a second `@` is accepted there and refused
      by the form. */
  lemma ServerAcceptsWhatClientRefuses()
    ensures Server.EmailPrefixOk("a@b.c d") && !SignupForm.ValidateEmail("a@b.c d")
    ensures Server.EmailPrefixOk("a@b.c@d") && !SignupForm.ValidateEmail("a@b.c@d")
  {
    var s1 := "a@b.c d";
    assert Server.EmailWitness(s1, 1, 3);
    Server.WitnessPassesScan(s1, 1, 3);
    SignupForm.WhitespaceRejected(s1, 5);
    var s2 := "a@b.c@d";
    assert Server.EmailWitness(s2, 1, 3);
    Server.WitnessPassesScan(s2, 1, 3);
    SignupForm.SecondAtRejected(s2, 1, 5);
  }

  /** A form the application page sends carries every key the server
      requires. */
  lemma ApplyPayloadHasRequiredFields(f: ApplyForm.FormData, number: string -> Option<real>)
    ensures AllPresent(ApplyForm.Payload(f, number), Server.RequiredFields) == Ok(true)
  {
  }

  /** Both scorers can preprocess what the application page sends. */
  lemma {:induction false} ApplyPayloadIsScorable(f: ApplyForm.FormData, number: string -> Option<real>)
    ensures PredictScript.PreprocessInput(ApplyForm.Payload(f, number)).Ok?
    ensures PredictionService.PreprocessInput(ApplyForm.Payload(f, number)).Ok?
  {
    var p := ApplyForm.Payload(f, number);
    assert PredictScript.InputKeys <= p.fields.Keys;
    assert PredictScript.Complete(p);
  }

  /** The two recommendation rules agree on approval; above 0.7 the
      script says "review" where the in-process service says "rejected". */
  lemma RecommendationRulesCompared(score: real)
    ensures PredictScript.Recommendation(score) == "approve" <==> PredictionService.Recommendation(score) == "approved"
    ensures 0.3 <= score < 0.7 ==> PredictScript.Recommendation(score) == PredictionService.Recommendation(score)
    ensures score >= 0.7 ==>
              PredictScript.Recommendation(score) == "review" && PredictionService.Recommendation(score) == "rejected"
  {
  }

  /** The script's credit lookup is case-sensitive and the service's is
      not: "Good" encodes as 0 in one and 2 in the other. */
  lemma {:induction false} CreditEncodingsDiffer()
    ensures PredictScript.MapCreditScore(Str("Good")) == Ok(0)
    ensures PredictionService.MapCreditScore(Str("Good")) == Ok(2)
  {
    assert Lower("Good") == "good";
  }

  /** The status form offers exactly the statuses the server accepts. */
  lemma StatusListsAgree()
    ensures StatusUpdateModal.ValidStatuses == Server.ValidStatuses
  {
  }

  /** The body the status form sends (`{status, note}`); a status outside
      the list, such as a record's own "fully_paid", is refused with a 400
      and the list of valid statuses. */
  lemma {:induction false} OffListStatusRefused(encodeIds: bool, appId: string, request: StatusUpdateModal.StatusRequest)
    requires Server.IsValidObjectId(appId) && request.newStatus !in StatusUpdateModal.ValidStatuses
    ensures var body := Obj(map["status" := Str(request.newStatus), "note" := Str(request.note)]);
            Server.CheckStatusRequest(encodeIds, appId, Some(body)) ==
              Server.Stop(Server.Reply(encodeIds, 400, Obj(map["error" := Str("Valid status is required"),
                                                               "valid_statuses" := Server.ValidStatusList()])))
  {
    var body := Obj(map["status" := Str(request.newStatus), "note" := Str(request.note)]);
    assert body.fields["status"].s !in Server.ValidStatuses;
  }
}
