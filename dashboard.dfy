/** The client console's dashboard: the fetched applications with their
    loading and error fields, the payment form's open/close state, and the
    payment handler. */
module Dashboard {
  import opened Common
  import opened Http
  import opened Records
  import opened Ledger

  const AuthMissingText: string := "Authentication token not found. Please log in."
  const FetchServerFallback: string := "Failed to fetch applications from server. Please logout and login"
  const FetchOtherFallback: string := "Could not load applications. Please try again."
  const PaymentFailedText: string := "Failed to process payment."

  /** One application card: its balance and whether "Make Payment" is disabled. */
  datatype Card = Card(app: LoanRecord, remaining: real, makePaymentDisabled: bool)

  /** What the dashboard renders, in order of precedence. */
  datatype Screen = LoadingScreen | ErrorScreen(message: string) | EmptyList | CardList(cards: seq<Card>)

  /** A card shows what is left to pay, and its button is disabled exactly
      when nothing is left or the loan was rejected. */
  function CardFor(app: LoanRecord): (c: Card)
    ensures c.app == app && c.remaining == RemainingBalance(app)
    ensures c.makePaymentDisabled <==> c.remaining <= 0.0 || app.status == Some("rejected")
  {
    Card(app, RemainingBalance(app), MakePaymentDisabled(app))
  }

  function Cards(apps: seq<LoanRecord>): (cards: seq<Card>)
    ensures |cards| == |apps|
    ensures forall i :: 0 <= i < |apps| ==> cards[i] == CardFor(apps[i])
  {
    seq(|apps|, i requires 0 <= i < |apps| => CardFor(apps[i]))
  }

  class View {
    var applications: seq<LoanRecord>
    var loading: bool
    var error: Option<string>
    var showPaymentModal: bool
    var currentApplicationForPayment: Option<LoanRecord>
    var isProcessingPayment: bool

    constructor ()
      ensures applications == [] && loading && error == None
      ensures !showPaymentModal && currentApplicationForPayment == None && !isProcessingPayment
    {
      applications := [];
      loading := true;
      error := None;
      showPaymentModal := false;
      currentApplicationForPayment := None;
      isProcessingPayment := false;
    }

    /** The fetch run on mount. `token` is what storage holds under
        `access_token`; `response` is what the GET would come back with. */
    method FetchApplications(token: Option<string>, response: Outcome<seq<LoanRecord>>) returns (requested: bool)
      modifies this`applications, this`loading, this`error
      ensures requested == Truthy(token)
      ensures !loading
      ensures !requested ==> error == Some(AuthMissingText) && applications == old(applications)
      ensures requested && response.Resolved? ==> error == None && applications == response.data
      ensures requested && !response.Resolved? ==>
                applications == old(applications) &&
                error == Some(CaughtMessage(response, FetchServerFallback, FetchOtherFallback))
    {
      loading := true;
      error := None;
      if !Truthy(token) {
        error := Some(AuthMissingText);
        loading := false;
        return false;
      }
      requested := true;
      if response.Resolved? {
        applications := response.data;
      } else {
        error := Some(CaughtMessage(response, FetchServerFallback, FetchOtherFallback));
      }
      loading := false;
    }

    method OpenPaymentModal(app: LoanRecord)
      modifies this`currentApplicationForPayment, this`showPaymentModal
      ensures currentApplicationForPayment == Some(app) && showPaymentModal
    {
      currentApplicationForPayment := Some(app);
      showPaymentModal := true;
    }

    method ClosePaymentModal()
      modifies this`currentApplicationForPayment, this`showPaymentModal, this`error
      ensures !showPaymentModal && currentApplicationForPayment == None && error == None
    {
      showPaymentModal := false;
      currentApplicationForPayment := None;
      error := None;
    }

    /** `handlePaymentSubmit` as written. On HTTP 200 it shows the success
        alert and then calls `fetchApplications`, a name that is only
        declared inside the mount effect; the ReferenceError lands in the
        catch block, so the form stays open and the failure message is set.
        `alerted` says whether the success alert was shown. */
    method HandlePaymentSubmit(response: Outcome<map<string, string>>) returns (alerted: bool)
      modifies this`isProcessingPayment, this`error
      ensures !isProcessingPayment
      ensures alerted <==> response.Resolved? && response.status == 200
      ensures alerted ==> error == Some(PaymentFailedText)
      ensures response.Resolved? && response.status != 200 ==> error == None
      ensures !response.Resolved? ==> error == Some(ServerErrorOr(response, PaymentFailedText))
    {
      isProcessingPayment := true;
      error := None;
      alerted := false;
      if response.Resolved? {
        if response.status == 200 {
          alerted := true;
          // `await fetchApplications()` throws: the name is not in scope here.
          error := Some(PaymentFailedText);
        }
      } else {
        error := Some(ServerErrorOr(response, PaymentFailedText));
      }
      isProcessingPayment := false;
    }

    /** The handler as its comments describe it: after a successful payment
        the applications are fetched again and the form is closed. */
    method HandlePaymentSubmitCorrected(response: Outcome<map<string, string>>, token: Option<string>,
                                        refetch: Outcome<seq<LoanRecord>>) returns (alerted: bool)
      modifies this`isProcessingPayment, this`error, this`applications, this`loading,
               this`showPaymentModal, this`currentApplicationForPayment
      ensures !isProcessingPayment
      ensures alerted <==> response.Resolved? && response.status == 200
      ensures alerted ==> !loading && !showPaymentModal && currentApplicationForPayment == None && error == None
      ensures alerted && Truthy(token) && refetch.Resolved? ==> applications == refetch.data
      ensures !alerted ==> applications == old(applications) && loading == old(loading) &&
                           showPaymentModal == old(showPaymentModal) &&
                           currentApplicationForPayment == old(currentApplicationForPayment)
      ensures !response.Resolved? ==> error == Some(ServerErrorOr(response, PaymentFailedText))
    {
      isProcessingPayment := true;
      error := None;
      alerted := false;
      if response.Resolved? {
        if response.status == 200 {
          alerted := true;
          var _ := FetchApplications(token, refetch);
          ClosePaymentModal();
        }
      } else {
        error := Some(ServerErrorOr(response, PaymentFailedText));
      }
      isProcessingPayment := false;
    }

    /** Render precedence: loading, then the error, then the empty message or the cards. */
    function Render(): (s: Screen)
      reads this
      ensures loading ==> s == LoadingScreen
      ensures !loading && Truthy(error) ==> s == ErrorScreen(error.value)
      ensures s.CardList? ==>
                |s.cards| == |applications| > 0 &&
                forall i :: 0 <= i < |applications| ==> s.cards[i] == CardFor(applications[i])
      ensures s == EmptyList <==> !loading && !Truthy(error) && applications == []
    {
      if loading then LoadingScreen
      else if Truthy(error) then ErrorScreen(error.value)
      else if applications == [] then EmptyList
      else CardList(Cards(applications))
    }

    /** The payment form is rendered only beside the list, with an application chosen. */
    predicate PaymentFormShown()
      reads this
    {
      !loading && !Truthy(error) && showPaymentModal && currentApplicationForPayment.Some?
    }
  }

  /** A successful payment ends on the full-page error screen with the
      failure text, while the corrected handler ends on the refreshed list. */
  method PaymentSuccessScenario(app: LoanRecord, token: string, refreshed: seq<LoanRecord>)
    returns (asWrittenScreen: Screen, correctedScreen: Screen)
    requires token != "" && refreshed != []
    ensures asWrittenScreen == ErrorScreen(PaymentFailedText)
    ensures correctedScreen == CardList(Cards(refreshed))
  {
    var ok: Outcome<map<string, string>> := Resolved(200, map[]);
    var asWritten := new View();
    var _ := asWritten.FetchApplications(Some(token), Resolved(200, [app]));
    asWritten.OpenPaymentModal(app);
    var alerted := asWritten.HandlePaymentSubmit(ok);
    assert asWritten.showPaymentModal && !asWritten.PaymentFormShown();
    asWrittenScreen := asWritten.Render();

    var corrected := new View();
    var _ := corrected.FetchApplications(Some(token), Resolved(200, [app]));
    corrected.OpenPaymentModal(app);
    alerted := corrected.HandlePaymentSubmitCorrected(ok, Some(token), Resolved(200, refreshed));
    assert !corrected.PaymentFormShown();
    correctedScreen := corrected.Render();
  }
}
