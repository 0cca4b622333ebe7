/** The admin console's shell: the login flag kept in step with the stored
    token through window listeners, the routes and the protected route,
    and the navigation bar and footer shown only while logged in. */
module AdminApp {
  import opened Common
  import opened Browser
  import opened AdminNavbar

  datatype Page = SignupPage | LoginPage | ApplicationsPage | NotFoundPage
  datatype Element = Redirect(to: string) | Show(page: Page)

  /** What the shell renders: the navigation bar with its entries when it
      is mounted, the routed element, and whether the footer is shown. */
  datatype Layout = Layout(navbar: Option<seq<NavEntry>>, main: Element, footer: bool)

  /** `ProtectedRoute`: the children when logged in, otherwise a redirect to `/login`. */
  function ProtectedRoute(isLoggedIn: bool, children: Element): (e: Element)
    ensures isLoggedIn ==> e == children
    ensures !isLoggedIn ==> e == Redirect("/login")
  {
    if !isLoggedIn then Redirect("/login") else children
  }

  /** The path with its trailing slashes removed. */
  function TrimTrailingSlashes(s: string): (r: string)
    ensures r <= s
    ensures r == [] || r[|r| - 1] != '/'
    ensures forall k :: |r| <= k < |s| ==> s[k] == '/'
    decreases |s|
  {
    if s != [] && s[|s| - 1] == '/' then TrimTrailingSlashes(s[..|s| - 1]) else s
  }

  /** The form in which React Router compares a location with a route's
      `path`: a route is case-insensitive unless it sets `caseSensitive`,
      which none here does, and trailing slashes are ignored. */
  function RoutePath(path: string): (r: string)
    ensures r != [] && (r == "/" || r[|r| - 1] != '/')
  {
    var t := TrimTrailingSlashes(Lower(path));
    if t == [] then "/" else t
  }

  /** Trimming the slashes `extra` adds gives back what trimming gives
      without them. */
  lemma {:induction false} TrimIgnoresAddedSlashes(s: string, extra: string)
    requires forall k :: 0 <= k < |extra| ==> extra[k] == '/'
    ensures TrimTrailingSlashes(s + extra) == TrimTrailingSlashes(s)
    decreases |extra|
  {
    if extra != [] {
      var shorter := extra[..|extra| - 1];
      assert (s + extra)[|s + extra| - 1] == '/';
      assert (s + extra)[..|s + extra| - 1] == s + shorter;
      assert TrimTrailingSlashes(s + extra) == TrimTrailingSlashes(s + shorter);
      TrimIgnoresAddedSlashes(s, shorter);
    } else {
      assert s + extra == s;
    }
  }

  /** Trailing slashes do not change the route a location matches. */
  lemma {:induction false} RoutePathIgnoresTrailingSlashes(path: string, extra: string)
    requires forall k :: 0 <= k < |extra| ==> extra[k] == '/'
    ensures RoutePath(path + extra) == RoutePath(path)
  {
    assert Lower(path + extra) == Lower(path) + extra;
    TrimIgnoresAddedSlashes(Lower(path), extra);
  }

  /** Letter case does not change the route a location matches. */
  lemma RoutePathIgnoresCase(path: string)
    ensures RoutePath(Lower(path)) == RoutePath(path)
  {
    LowerIdempotent(path);
  }

  /** A lower-case path without a trailing slash is matched as written. */
  lemma CanonicalPathUnchanged(path: string)
    requires path != [] && Lower(path) == path && (path == "/" || path[|path| - 1] != '/')
    ensures RoutePath(path) == path
  {
  }

  /** The two redirect targets are matched as written. */
  lemma ApplicationsPathCanonical()
    ensures RoutePath("/applications") == "/applications"
  {
    CanonicalPath("/applications");
  }

  lemma LoginPathCanonical()
    ensures RoutePath("/login") == "/login"
  {
    CanonicalPath("/login");
  }

  /** A lower-case path ending in a letter is matched as written. */
  lemma CanonicalPath(path: string)
    requires path != [] && 'a' <= path[|path| - 1] <= 'z'
    requires forall c :: c in path ==> !('A' <= c <= 'Z')
    ensures RoutePath(path) == path
  {
    LowerKeepsLowerCase(path);
  }

  /** The element the router picks for `path`. */
  function RouteElement(path: string, isLoggedIn: bool): (e: Element)
    ensures e == Show(ApplicationsPage) <==> RoutePath(path) == "/applications" && isLoggedIn
    ensures e.Redirect? <==>
              (RoutePath(path) == "/" && isLoggedIn) || (RoutePath(path) == "/applications" && !isLoggedIn)
  {
    var p := RoutePath(path);
    if p == "/signup" then Show(SignupPage)
    else if p == "/login" then Show(LoginPage)
    else if p == "/" then (if isLoggedIn then Redirect("/applications") else Show(LoginPage))
    else if p == "/applications" then ProtectedRoute(isLoggedIn, Show(ApplicationsPage))
    else Show(NotFoundPage)
  }

  /** The page finally shown once the (single) redirect is followed. */
  function ResolvedPage(path: string, isLoggedIn: bool): Page {
    var e := RouteElement(path, isLoggedIn);
    if e.Show? then e.page
    else
      RedirectTargetsShowAPage(path, isLoggedIn);
      RouteElement(e.to, isLoggedIn).page
  }

  /** A redirect always lands on a page, never on another redirect. */
  lemma RedirectTargetsShowAPage(path: string, isLoggedIn: bool)
    ensures RouteElement(path, isLoggedIn).Redirect? ==>
            RouteElement(RouteElement(path, isLoggedIn).to, isLoggedIn).Show?
  {
    ApplicationsRoute(isLoggedIn);
    LoginRoute(isLoggedIn);
  }

  /** The applications list is reachable exactly when logged in, from `/`
      or `/applications` in any letter case and with any trailing slashes;
      logged out, those paths end on the login page. */
  lemma ApplicationsOnlyWhenLoggedIn(path: string, isLoggedIn: bool)
    ensures ResolvedPage(path, isLoggedIn) == ApplicationsPage <==>
            isLoggedIn && (RoutePath(path) == "/" || RoutePath(path) == "/applications")
    ensures !isLoggedIn && (RoutePath(path) == "/" || RoutePath(path) == "/applications") ==>
              ResolvedPage(path, isLoggedIn) == LoginPage
  {
    var e := RouteElement(path, isLoggedIn);
    if e.Redirect? {
      if isLoggedIn {
        ApplicationsRoute(isLoggedIn);
      } else {
        LoginRoute(isLoggedIn);
      }
    }
  }

  /** Where the redirects lead: `/applications` is the guarded page ... */
  lemma ApplicationsRoute(isLoggedIn: bool)
    ensures RouteElement("/applications", isLoggedIn) == ProtectedRoute(isLoggedIn, Show(ApplicationsPage))
  {
    ApplicationsPathCanonical();
  }

  /** ... and `/login` the login page. */
  lemma LoginRoute(isLoggedIn: bool)
    ensures RouteElement("/login", isLoggedIn) == Show(LoginPage)
  {
    LoginPathCanonical();
  }

  /** `/applications` in any letter case and followed by any number of
      slashes reaches the guarded page, or the login redirect when logged out. */
  lemma {:induction false} ApplicationsPathVariants(path: string, extra: string, isLoggedIn: bool)
    requires Lower(path) == "/applications"
    requires forall k :: 0 <= k < |extra| ==> extra[k] == '/'
    ensures RouteElement(path + extra, isLoggedIn) == ProtectedRoute(isLoggedIn, Show(ApplicationsPage))
  {
    RoutePathIgnoresTrailingSlashes(path, extra);
    RoutePathIgnoresCase(path);
    SameRouteSameElement(path + extra, Lower(path), isLoggedIn);
    ApplicationsRoute(isLoggedIn);
  }

  /** The element depends on the location only through the route it matches. */
  lemma SameRouteSameElement(a: string, b: string, isLoggedIn: bool)
    requires RoutePath(a) == RoutePath(b)
    ensures RouteElement(a, isLoggedIn) == RouteElement(b, isLoggedIn)
  {
  }

  /** The props the shell passes to the navigation bar: the setter only. */
  function NavbarProp(isLoggedIn: bool): (prop: Option<bool>)
    ensures prop == None
  {
    None
  }

  /** The props the navigation bar is written to receive. */
  function NavbarPropCorrected(isLoggedIn: bool): (prop: Option<bool>)
    ensures prop == Some(isLoggedIn)
  {
    Some(isLoggedIn)
  }

  function LayoutWith(path: string, isLoggedIn: bool, prop: Option<bool>): Layout {
    Layout(if isLoggedIn then Some(DesktopEntries(prop)) else None, RouteElement(path, isLoggedIn), isLoggedIn)
  }

  /** The shell as mounted. */
  function Screen(path: string, isLoggedIn: bool): (l: Layout)
    ensures l.navbar.Some? <==> isLoggedIn
    ensures l.footer <==> isLoggedIn
    ensures l.main == RouteElement(path, isLoggedIn)
  {
    LayoutWith(path, isLoggedIn, NavbarProp(isLoggedIn))
  }

  /** The shell with the login flag also passed to the navigation bar. */
  function ScreenCorrected(path: string, isLoggedIn: bool): (l: Layout)
    ensures l.navbar.Some? <==> isLoggedIn
    ensures l.footer <==> isLoggedIn
    ensures l.main == RouteElement(path, isLoggedIn)
  {
    LayoutWith(path, isLoggedIn, NavbarPropCorrected(isLoggedIn))
  }

  /** As mounted, the navigation bar appears only while logged in, yet
      then shows the logged-out entries and no Logout button. */
  lemma MountedNavbarOffersNoLogout(path: string)
    ensures Screen(path, true).navbar == Some([LoginLink, SignupLink, LoginButton])
    ensures LogoutButton !in Screen(path, true).navbar.value
  {
  }

  /** With the flag passed, the logged-in shell offers the Applications
      menu and Logout. */
  lemma CorrectedNavbarOffersLogout(path: string)
    ensures ScreenCorrected(path, true).navbar == Some([ApplicationsMenu, LogoutButton])
    ensures LogoutButton in ScreenCorrected(path, true).navbar.value
  {
  }

  /** The flag after a setter call, if any. */
  function AfterSetter(flag: bool, setter: Option<bool>): bool {
    if setter.Some? then setter.value else flag
  }

  /** The flag after dispatching `events` in order: each listened event
      re-reads the token; the outcome is `session` for each of them. */
  function FlagAfter(flag: bool, events: seq<Event>, listeners: set<Event>, session: bool): bool
    decreases |events|
  {
    if events == [] then flag
    else
      var before := FlagAfter(flag, events[..|events| - 1], listeners, session);
      if events[|events| - 1] in listeners then session else before
  }

  /** One listened event among those dispatched makes the flag follow the token. */
  lemma {:induction false} ListenedEventDecides(flag: bool, events: seq<Event>, listeners: set<Event>, session: bool, k: nat)
    requires k < |events| && events[k] in listeners
    ensures FlagAfter(flag, events, listeners, session) == session
    decreases |events|
  {
    if k < |events| - 1 {
      ListenedEventDecides(flag, events[..|events| - 1], listeners, session, k);
    }
  }

  /** Events nobody listens to leave the flag alone. */
  lemma {:induction false} UnlistenedEventsKeepFlag(flag: bool, events: seq<Event>, listeners: set<Event>, session: bool)
    requires forall i :: 0 <= i < |events| ==> events[i] !in listeners
    ensures FlagAfter(flag, events, listeners, session) == flag
    decreases |events|
  {
    if events != [] {
      UnlistenedEventsKeepFlag(flag, events[..|events| - 1], listeners, session);
    }
  }

  class Shell {
    var isLoggedIn: bool
    var listeners: set<Event>
    var path: string

    /** The initial flag is whether a non-empty token is stored. */
    constructor (storage: Storage, path: string)
      ensures isLoggedIn == HasSession(storage.items)
      ensures listeners == {} && this.path == path
    {
      isLoggedIn := HasSession(storage.items);
      listeners := {};
      this.path := path;
    }

    /** The mount effect: check now, then listen for `storage` and `app-logout`. */
    method Mount(storage: Storage)
      modifies this`isLoggedIn, this`listeners
      ensures isLoggedIn == HasSession(storage.items)
      ensures listeners == old(listeners) + {StorageEvent, AppLogout}
    {
      isLoggedIn := HasSession(storage.items);
      listeners := listeners + {StorageEvent, AppLogout};
    }

    /** The effect's cleanup removes both listeners. */
    method Unmount()
      modifies this`listeners
      ensures listeners == old(listeners) - {StorageEvent, AppLogout}
    {
      listeners := listeners - {StorageEvent, AppLogout};
    }

    method Dispatch(e: Event, storage: Storage)
      modifies this`isLoggedIn
      ensures isLoggedIn == if e in listeners then HasSession(storage.items) else old(isLoggedIn)
    {
      if e in listeners {
        isLoggedIn := HasSession(storage.items);
      }
    }

    /** Apply what a page handler did: the setter call first, then each
        dispatched event in order, then the navigation. */
    method Apply(fx: Effects, storage: Storage)
      modifies this`isLoggedIn, this`path
      ensures isLoggedIn == FlagAfter(AfterSetter(old(isLoggedIn), fx.setIsLoggedIn), fx.events, listeners, HasSession(storage.items))
      ensures path == if fx.navigateTo.Some? then fx.navigateTo.value else old(path)
    {
      isLoggedIn := AfterSetter(isLoggedIn, fx.setIsLoggedIn);
      ghost var start := isLoggedIn;
      for i := 0 to |fx.events|
        invariant isLoggedIn == FlagAfter(start, fx.events[..i], listeners, HasSession(storage.items))
        invariant path == old(path)
      {
        assert fx.events[..i + 1][..i] == fx.events[..i];
        Dispatch(fx.events[i], storage);
      }
      assert fx.events[..|fx.events|] == fx.events;
      if fx.navigateTo.Some? {
        path := fx.navigateTo.value;
      }
    }

    /** What the shell shows for its current path and flag. */
    function Render(): (l: Layout)
      reads this
      ensures l.navbar.Some? <==> isLoggedIn
      ensures l.main == RouteElement(path, isLoggedIn)
    {
      Screen(path, isLoggedIn)
    }
  }

  /** Logging out through a navigation bar that shows Logout. As mounted
      the bar never renders that button (`MountedNavbarOffersNoLogout`), so
      the bar here receives the login flag as it is written to. Its
      `setIsLoggedIn(true)` is overridden by the `app-logout` listener, and
      the shell shows the login page without its bar. */
  method LogoutScenario(storage: Storage, path: string) returns (layout: Layout)
    requires HasSession(storage.items)
    modifies storage
    ensures layout == Layout(None, Show(LoginPage), false)
    ensures !HasSession(storage.items)
  {
    var shell := new Shell(storage, path);
    shell.Mount(storage);
    var nav := new Navbar(true, NavbarPropCorrected(shell.isLoggedIn));
    assert LogoutButton in nav.Entries();
    var fx := nav.HandleLogout(storage);
    assert fx.events[0] == AppLogout;
    ListenedEventDecides(true, fx.events, shell.listeners, HasSession(storage.items), 0);
    shell.Apply(fx, storage);
    assert !shell.isLoggedIn && shell.path == "/login";
    layout := shell.Render();
  }
}
