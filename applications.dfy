/** The admin console's application list: fetching, the status form's
    open/close state, the status-update handler, and the feature-importance
    list shown on each card. */
module Applications {
  import opened Common
  import opened Http
  import opened Records
  import opened StatusUpdateModal

  const AuthMissingText: string := "Authentication token not found. Please log in."
  const FetchServerFallback: string := "Failed to fetch applications from server."
  const FetchOtherFallback: string := "Could not load applications. Please check your network."
  const UpdateFailedText: string := "Failed to update status."

  /** Entries whose magnitude is at most this are dropped from the chart. */
  const ImportanceThreshold: real := 0.0001

  // ---------------------------------------------------------------------------
  // Feature names: `name.replace(/_/g, ' ').replace(/\b\w/g, s => s.toUpperCase())`
  // ---------------------------------------------------------------------------

  /** `\w`: an ASCII letter, digit or underscore. */
  predicate IsWordChar(c: char) {
    ('a' <= c <= 'z') || ('A' <= c <= 'Z') || ('0' <= c <= '9') || c == '_'
  }

  function ReplaceUnderscores(s: string): (r: string)
    ensures |r| == |s|
    ensures forall i :: 0 <= i < |s| ==> r[i] == if s[i] == '_' then ' ' else s[i]
  {
    seq(|s|, i requires 0 <= i < |s| => if s[i] == '_' then ' ' else s[i])
  }

  /** Upper-case every word character that starts a word; `prevIsWord`
      says whether the character before `s` was a word character. */
  function CapitalizeWords(s: string, prevIsWord: bool): string {
    if s == [] then []
    else [if IsWordChar(s[0]) && !prevIsWord then ToUpperChar(s[0]) else s[0]]
         + CapitalizeWords(s[1..], IsWordChar(s[0]))
  }

  function FormatFeatureName(name: string): string {
    CapitalizeWords(ReplaceUnderscores(name), false)
  }

  /** `\b\w` matches at `i`: a word character at the start or after a non-word character. */
  predicate WordStart(s: string, i: int)
    requires 0 <= i < |s|
  {
    IsWordChar(s[i]) && (i == 0 || !IsWordChar(s[i - 1]))
  }

  lemma {:induction false} CapitalizeWordsAt(s: string, prevIsWord: bool, i: int)
    requires 0 <= i < |s|
    ensures |CapitalizeWords(s, prevIsWord)| == |s|
    ensures CapitalizeWords(s, prevIsWord)[i] ==
            if IsWordChar(s[i]) && (if i == 0 then !prevIsWord else !IsWordChar(s[i - 1]))
            then ToUpperChar(s[i]) else s[i]
  {
    if i == 0 {
      CapitalizeWordsLength(s[1..], IsWordChar(s[0]));
    } else {
      CapitalizeWordsAt(s[1..], IsWordChar(s[0]), i - 1);
    }
  }

  lemma {:induction false} CapitalizeWordsLength(s: string, prevIsWord: bool)
    ensures |CapitalizeWords(s, prevIsWord)| == |s|
  {
    if s != [] {
      CapitalizeWordsLength(s[1..], IsWordChar(s[0]));
    }
  }

  /** The formatted name has the same length, contains no `_`, and at each
      position holds the spaced-out character, upper-cased at word starts. */
  lemma FormatFeatureNameSpec(name: string)
    ensures |FormatFeatureName(name)| == |name|
    ensures '_' !in FormatFeatureName(name)
    ensures forall i :: 0 <= i < |name| ==>
              FormatFeatureName(name)[i] ==
              var t := ReplaceUnderscores(name); if WordStart(t, i) then ToUpperChar(t[i]) else t[i]
  {
    var t := ReplaceUnderscores(name);
    CapitalizeWordsLength(t, false);
    forall i | 0 <= i < |name|
      ensures FormatFeatureName(name)[i] == if WordStart(t, i) then ToUpperChar(t[i]) else t[i]
      ensures FormatFeatureName(name)[i] != '_'
    {
      CapitalizeWordsAt(t, false, i);
    }
  }

  /** Formatting an already formatted name changes nothing. */
  lemma FormatFeatureNameIdempotent(name: string)
    ensures FormatFeatureName(FormatFeatureName(name)) == FormatFeatureName(name)
  {
    var f := FormatFeatureName(name);
    var t := ReplaceUnderscores(name);
    FormatFeatureNameSpec(name);
    FormatFeatureNameSpec(f);
    var t2 := ReplaceUnderscores(f);
    assert t2 == f;
    forall i | 0 <= i < |f|
      ensures FormatFeatureName(f)[i] == f[i]
    {
      assert IsWordChar(f[i]) == IsWordChar(t[i]);
      if i > 0 {
        assert IsWordChar(f[i - 1]) == IsWordChar(t[i - 1]);
      }
    }
  }

  // ---------------------------------------------------------------------------
  // The feature-importance list of one card
  // ---------------------------------------------------------------------------

  datatype FeatureItem = FeatureItem(name: string, value: real, absoluteValue: real)

  function Abs(x: real): real {
    if x < 0.0 then -x else x
  }

  /** `.map(...)` then `.filter(item => item.absoluteValue > 0.0001)` over the entries. */
  function FeatureItems(entries: seq<(string, real)>): seq<FeatureItem> {
    if entries == [] then []
    else
      var (name, value) := entries[0];
      (if Abs(value) > ImportanceThreshold then [FeatureItem(FormatFeatureName(name), value, Abs(value))] else [])
      + FeatureItems(entries[1..])
  }

  /** Absent importances give the empty list. */
  function FeatureImportancesData(app: LoanRecord): (items: seq<FeatureItem>)
    ensures app.featureImportances.None? ==> items == []
    ensures |items| <= if app.featureImportances.Some? then |app.featureImportances.value| else 0
    ensures forall k :: 0 <= k < |items| ==> items[k].absoluteValue > ImportanceThreshold
  {
    if app.featureImportances.None? then []
    else
      FeatureItemsBounds(app.featureImportances.value);
      FeatureItems(app.featureImportances.value)
  }

  lemma {:induction false} FeatureItemsBounds(entries: seq<(string, real)>)
    ensures |FeatureItems(entries)| <= |entries|
    ensures forall k :: 0 <= k < |FeatureItems(entries)| ==>
              FeatureItems(entries)[k].absoluteValue > ImportanceThreshold &&
              FeatureItems(entries)[k].absoluteValue == Abs(FeatureItems(entries)[k].value)
  {
    if entries != [] {
      FeatureItemsBounds(entries[1..]);
    }
  }

  /** The list of a concatenation is the concatenation of the lists: entry order is kept. */
  lemma {:induction false} FeatureItemsAppend(a: seq<(string, real)>, b: seq<(string, real)>)
    ensures FeatureItems(a + b) == FeatureItems(a) + FeatureItems(b)
  {
    if a == [] {
      assert a + b == b;
    } else {
      assert (a + b)[1..] == a[1..] + b;
      FeatureItemsAppend(a[1..], b);
    }
  }

  /** One entry is kept, with its name formatted, exactly when its magnitude exceeds the threshold. */
  lemma FeatureItemsSingle(name: string, value: real)
    ensures Abs(value) > ImportanceThreshold ==>
              FeatureItems([(name, value)]) == [FeatureItem(FormatFeatureName(name), value, Abs(value))]
    ensures Abs(value) <= ImportanceThreshold ==> FeatureItems([(name, value)]) == []
  {
    assert [(name, value)][1..] == [];
  }

  // ---------------------------------------------------------------------------
  // The component state
  // ---------------------------------------------------------------------------

  datatype Screen = LoadingScreen | ErrorScreen(message: string) | EmptyList | CardList(cards: seq<LoanRecord>)

  class View {
    var applications: seq<LoanRecord>
    var loading: bool
    var error: Option<string>
    var showUpdateModal: bool
    var currentApplicationToUpdate: Option<LoanRecord>
    var isUpdatingStatus: bool

    constructor ()
      ensures applications == [] && loading && error == None
      ensures !showUpdateModal && currentApplicationToUpdate == None && !isUpdatingStatus
    {
      applications := [];
      loading := true;
      error := None;
      showUpdateModal := false;
      currentApplicationToUpdate := None;
      isUpdatingStatus := false;
    }

    /** `fetchApplications`: `token` is what storage holds under `access_token`,
        `response` what the GET would come back with. */
    method FetchApplications(token: Option<string>, response: Outcome<seq<LoanRecord>>) returns (requested: bool)
      modifies this`applications, this`loading, this`error
      ensures requested == Truthy(token)
      ensures !loading
      ensures !requested ==> error == Some(AuthMissingText) && applications == old(applications)
      ensures requested && response.Resolved? ==> error == None && applications == response.data
      ensures requested && !response.Resolved? ==>
                applications == old(applications) &&
                error == Some(CaughtMessage(response, FetchServerFallback, FetchOtherFallback))
    {
      loading := true;
      error := None;
      if !Truthy(token) {
        error := Some(AuthMissingText);
        loading := false;
        return false;
      }
      requested := true;
      if response.Resolved? {
        applications := response.data;
      } else {
        error := Some(CaughtMessage(response, FetchServerFallback, FetchOtherFallback));
      }
      loading := false;
    }

    method OpenUpdateModal(app: LoanRecord)
      modifies this`currentApplicationToUpdate, this`showUpdateModal
      ensures currentApplicationToUpdate == Some(app) && showUpdateModal
    {
      currentApplicationToUpdate := Some(app);
      showUpdateModal := true;
    }

    method CloseUpdateModal()
      modifies this`currentApplicationToUpdate, this`showUpdateModal, this`error
      ensures !showUpdateModal && currentApplicationToUpdate == None && error == None
    {
      showUpdateModal := false;
      currentApplicationToUpdate := None;
      error := None;
    }

    /** `handleStatusUpdateSubmit`. On HTTP 200 it navigates to
        `/applications`, fetches again and closes the form (which clears the
        error, also one the refetch may have set). On failure it only sets
        the error: the cached list is never edited locally. */
    method HandleStatusUpdateSubmit(put: Outcome<map<string, string>>, token: Option<string>,
                                    refetch: Outcome<seq<LoanRecord>>) returns (navigatedTo: Option<string>)
      modifies this`isUpdatingStatus, this`error, this`applications, this`loading,
               this`showUpdateModal, this`currentApplicationToUpdate
      ensures !isUpdatingStatus
      ensures navigatedTo.Some? <==> put.Resolved? && put.status == 200
      ensures navigatedTo.Some? ==> navigatedTo.value == "/applications"
      ensures navigatedTo.Some? ==>
                !loading && !showUpdateModal && currentApplicationToUpdate == None && error == None &&
                applications == (if Truthy(token) && refetch.Resolved? then refetch.data else old(applications))
      ensures navigatedTo.None? ==>
                applications == old(applications) && loading == old(loading) &&
                showUpdateModal == old(showUpdateModal) &&
                currentApplicationToUpdate == old(currentApplicationToUpdate)
      ensures !put.Resolved? ==> error == Some(ServerErrorOr(put, UpdateFailedText))
      ensures put.Resolved? && put.status != 200 ==> error == old(error)
    {
      isUpdatingStatus := true;
      navigatedTo := None;
      if put.Resolved? {
        if put.status == 200 {
          navigatedTo := Some("/applications");
          var _ := FetchApplications(token, refetch);
          CloseUpdateModal();
        }
      } else {
        error := Some(ServerErrorOr(put, UpdateFailedText));
      }
      isUpdatingStatus := false;
    }

    function Render(): (s: Screen)
      reads this
      ensures loading ==> s == LoadingScreen
      ensures !loading && Truthy(error) ==> s == ErrorScreen(error.value)
      ensures s.CardList? ==> s.cards == applications && applications != []
      ensures s == EmptyList <==> !loading && !Truthy(error) && applications == []
    {
      if loading then LoadingScreen
      else if Truthy(error) then ErrorScreen(error.value)
      else if applications == [] then EmptyList
      else CardList(applications)
    }

    predicate UpdateFormShown()
      reads this
    {
      !loading && !Truthy(error) && showUpdateModal && currentApplicationToUpdate.Some?
    }
  }

  /** A status update the server refuses with HTTP 500 leaves the cached
      record as it was and shows the server's error. */
  method RejectedUpdateScenario(app: LoanRecord, token: string, serverError: string) returns (screen: Screen)
    requires token != "" && serverError != ""
    ensures screen == ErrorScreen(serverError)
  {
    var view := new View();
    var _ := view.FetchApplications(Some(token), Resolved(200, [app]));
    view.OpenUpdateModal(app);
    var form := new Form(app);
    form.ChangeStatus("rejected");
    var request := form.HandleSubmit();
    var nav := view.HandleStatusUpdateSubmit(Rejected(500, map["error" := serverError]), Some(token), NoResponse(""));
    assert nav == None && view.applications == [app];
    screen := view.Render();
  }
}
