/** The admin console's Redux slice `root`: a loading flag and the list of
    applications, each replaced wholesale by its own action. */
module RootSlice {
  import opened Records
  import ApprovedApplications

  /** The two exported actions, with their payloads. */
  datatype Action = SetLoading(loading: bool) | SetApplications(applications: seq<LoanRecord>)

  datatype State = State(loading: bool, applications: seq<LoanRecord>)

  const InitialState: State := State(true, [])

  /** The reducer: each action assigns its own field and leaves the other. */
  function Reduce(s: State, a: Action): (r: State)
    ensures a.SetLoading? ==> r.loading == a.loading && r.applications == s.applications
    ensures a.SetApplications? ==> r.applications == a.applications && r.loading == s.loading
  {
    match a
    case SetLoading(b) => s.(loading := b)
    case SetApplications(apps) => s.(applications := apps)
  }

  /** Actions of different kinds commute. */
  lemma DifferentKindsCommute(s: State, b: bool, apps: seq<LoanRecord>)
    ensures Reduce(Reduce(s, SetLoading(b)), SetApplications(apps)) ==
            Reduce(Reduce(s, SetApplications(apps)), SetLoading(b))
  {
  }

  /** Of two actions of the same kind, the later one wins. */
  lemma LaterActionWins(s: State, a1: Action, a2: Action)
    requires a1.SetLoading? == a2.SetLoading?
    ensures Reduce(Reduce(s, a1), a2) == Reduce(s, a2)
  {
  }

  /** Until an action is dispatched the approved page has nothing to show. */
  lemma InitialStoreShowsNoApproved()
    ensures ApprovedApplications.Render(InitialState.applications) == ApprovedApplications.NoneFound
  {
  }

  /** The slice's state, updated in place by the reducers. */
  class Slice {
    var loading: bool
    var applications: seq<LoanRecord>

    constructor ()
      ensures State(loading, applications) == InitialState
    {
      loading := true;
      applications := [];
    }

    method SetLoadingReducer(payload: bool)
      modifies this`loading
      ensures loading == payload
    {
      loading := payload;
    }

    method SetApplicationsReducer(payload: seq<LoanRecord>)
      modifies this`applications
      ensures applications == payload
    {
      applications := payload;
    }

    /** Dispatching an action moves the state as `Reduce` says. */
    method Dispatch(a: Action)
      modifies this
      ensures State(loading, applications) == Reduce(old(State(loading, applications)), a)
    {
      match a
      case SetLoading(b) => SetLoadingReducer(b);
      case SetApplications(apps) => SetApplicationsReducer(apps);
    }
  }
}
