/**
 * The route table of frontend/src/App.jsx: which page each path shows and
 * behind which guard, with the wildcard route sending every other path
 * to `/`.
 *
 * A route pattern matches the way the router's patterns do: the pathname
 * starts with "/", its "/"-separated segments equal the pattern's static
 * segments, a `:param` segment binds one non-empty segment, and trailing
 * slashes are ignored.
 */
module App {
  import opened Common
  import opened Text
  import opened Routing
  import ProtectedRoute
  import PublicRoute

  datatype Page =
    | HomePage
    | LoginPage
    | SignupPage
    | PasswordResetPage
    | PasswordResetConfirmPage(uid: string, token: string)
    | DashboardPage
    | SettingsPage

  datatype GuardKind = Unguarded | PublicOnly | ProtectedOnly

  datatype Route = Route(guard: GuardKind, page: Page)

  /** What the router shows for a location. */
  datatype Screen = Wait | Redirect(to: string, state: Option<NavState>, replace: bool) | Show(page: Page)

  /** The segments left once the empty ones that trailing slashes produce are dropped. */
  function DropTrailingEmpty(parts: seq<string>): (r: seq<string>)
    ensures r <= parts
    ensures r == [] || r[|r| - 1] != ""
    ensures forall i :: |r| <= i < |parts| ==> parts[i] == ""
  {
    if parts == [] || parts[|parts| - 1] != "" then parts
    else DropTrailingEmpty(parts[..|parts| - 1])
  }

  /** The segments of a pathname after its leading "/"; none for a pathname without one. */
  function Segments(pathname: string): Option<seq<string>>
  {
    if |pathname| >= 1 && pathname[0] == '/' then Some(DropTrailingEmpty(Split(pathname[1..], "/"))) else None
  }

  /**
   * Lines 32-82: the route whose pattern matches, if any. The router ranks
   * routes rather than taking the first match; since no two patterns of
   * this table match the same pathname, the ranking never has to choose.
   */
  function MatchRoute(pathname: string): (r: Option<Route>)
    ensures r.Some? ==> |pathname| >= 1 && pathname[0] == '/'
    ensures r.Some? ==> (r.value.guard == Unguarded <==> r.value.page == HomePage)
    ensures r.Some? ==> (r.value.guard == ProtectedOnly <==> r.value.page == DashboardPage || r.value.page == SettingsPage)
  {
    match Segments(pathname)
    case None => None
    case Some(segs) => MatchSegments(segs)
  }

  /** The route table against a pathname's segments; the patterns do not overlap, so the order of the tests is immaterial. */
  function MatchSegments(segs: seq<string>): Option<Route>
  {
    if segs == [] then Some(Route(Unguarded, HomePage))
    else if |segs| == 1 then MatchWord(segs[0])
    else if |segs| == 3 && segs[0] == "reset-password" && segs[1] != "" && segs[2] != "" then
      Some(Route(PublicOnly, PasswordResetConfirmPage(segs[1], segs[2])))
    else None
  }

  /** The routes of one static segment; no two patterns of the table match the same segments. */
  function MatchWord(word: string): Option<Route>
  {
    if word == "login" then Some(Route(PublicOnly, LoginPage))
    else if word == "signup" then Some(Route(PublicOnly, SignupPage))
    else if word == "reset-password" then Some(Route(PublicOnly, PasswordResetPage))
    else if word == "dashboard" then Some(Route(ProtectedOnly, DashboardPage))
    else if word == "settings" then Some(Route(ProtectedOnly, SettingsPage))
    else None
  }

  /** The guard's element, with the page in place of the children. */
  function Place(e: Element, page: Page): Screen
  {
    match e
    case Spinner => Wait
    case Navigate(to, state, replace) => Redirect(to, state, replace)
    case Children => Show(page)
  }

  /** Lines 30-86: the guarded page of the matching route, or line 85's redirect to `/`. */
  function Render(location: Location, loading: bool, isAuthenticated: bool): (r: Screen)
    ensures r.Redirect? ==> r.to == "/" || r.to == "/login" || r.to == "/dashboard"
    ensures r.Show? ==> MatchRoute(location.pathname).Some? && r.page == MatchRoute(location.pathname).value.page
    ensures r.Show? && MatchRoute(location.pathname).value.guard == ProtectedOnly ==> !loading && isAuthenticated
  {
    match MatchRoute(location.pathname)
    case None => Redirect("/", None, true)
    case Some(Route(Unguarded, page)) => Show(page)
    case Some(Route(PublicOnly, page)) => Place(PublicRoute.Guard(loading, isAuthenticated), page)
    case Some(Route(ProtectedOnly, page)) => Place(ProtectedRoute.Guard(loading, isAuthenticated, location), page)
  }

  lemma SegmentsOfRoot()
    ensures Segments("/") == Some([])
  {
    assert "/"[1..] == "";
  }

  /** A pathname of one non-empty segment is matched on that segment alone. */
  lemma {:induction false} OneSegment(word: string)
    requires word != "" && '/' !in word
    ensures MatchRoute("/" + word) == MatchWord(word)
  {
    assert ("/" + word)[1..] == word;
    SplitWithoutSeparator(word, "/");
  }

  /** Line 32: `/` shows Home, with no guard, whatever the session. */
  lemma HomeIsUnguarded(location: Location, loading: bool, isAuthenticated: bool)
    requires location.pathname == "/"
    ensures MatchRoute(location.pathname) == Some(Route(Unguarded, HomePage))
    ensures Render(location, loading, isAuthenticated) == Show(HomePage)
  {
    SegmentsOfRoot();
  }

  /** Lines 33-40: `/login` is for visitors only. */
  lemma LoginRoute()
    ensures MatchRoute("/" + "login") == Some(Route(PublicOnly, LoginPage))
  {
    OneSegment("login");
  }

  /** Lines 41-48: `/signup` is for visitors only. */
  lemma SignupRoute()
    ensures MatchRoute("/" + "signup") == Some(Route(PublicOnly, SignupPage))
  {
    OneSegment("signup");
  }

  /** Lines 49-56: `/reset-password` is for visitors only. */
  lemma PasswordResetRoute()
    ensures MatchRoute("/" + "reset-password") == Some(Route(PublicOnly, PasswordResetPage))
  {
    OneSegment("reset-password");
  }

  /** Lines 67-74: `/dashboard` needs a session. */
  lemma DashboardRoute()
    ensures MatchRoute("/" + "dashboard") == Some(Route(ProtectedOnly, DashboardPage))
  {
    OneSegment("dashboard");
  }

  /** Lines 75-82: `/settings` needs a session. */
  lemma SettingsRoute()
    ensures MatchRoute("/" + "settings") == Some(Route(ProtectedOnly, SettingsPage))
  {
    OneSegment("settings");
  }

  /** Line 58: `/reset-password/:uid/:token` binds two non-empty segments, each as it stands. */
  lemma {:induction false} ConfirmRouteBinds(uid: string, token: string)
    requires uid != "" && token != "" && '/' !in uid && '/' !in token
    ensures MatchRoute("/reset-password/" + uid + "/" + token) == Some(Route(PublicOnly, PasswordResetConfirmPage(uid, token)))
  {
    var path := "/reset-password/" + uid + "/" + token;
    assert path[1..] == "reset-password" + ['/'] + (uid + ['/'] + token);
    SplitAfterPrefix("reset-password", '/', uid + ['/'] + token);
    SplitAfterPrefix(uid, '/', token);
    SplitWithoutSeparator(token, "/");
    assert Split(path[1..], "/") == ["reset-password", uid, token];
  }

  /** The confirm page only ever receives one whole path segment as `uid` and one as `token`. */
  lemma {:induction false} ConfirmParamsAreSegments(pathname: string, guard: GuardKind, uid: string, token: string)
    requires MatchRoute(pathname) == Some(Route(guard, PasswordResetConfirmPage(uid, token)))
    ensures guard == PublicOnly
    ensures uid != "" && token != "" && '/' !in uid && '/' !in token
  {
    var parts := Split(pathname[1..], "/");
    SplitPartsAvoid(pathname[1..], '/');
    var segs := DropTrailingEmpty(parts);
    assert segs[1] == parts[1] && segs[2] == parts[2];
  }

  /** Line 85: a path that matches no route is sent to `/`, replacing the history entry. */
  lemma FallbackGoesHome(location: Location, loading: bool, isAuthenticated: bool)
    requires MatchRoute(location.pathname).None?
    ensures Render(location, loading, isAuthenticated) == Redirect("/", None, true)
  {
  }

  /** While the session is loading every guarded page shows only the spinner. */
  lemma GuardedPagesWait(location: Location, isAuthenticated: bool)
    requires MatchRoute(location.pathname).Some? && MatchRoute(location.pathname).value.guard != Unguarded
    ensures Render(location, true, isAuthenticated) == Wait
  {
  }

  /** Once loading is over, every redirect lands on a page that is shown: no redirect leads to another. */
  lemma {:induction false} RedirectsSettleInOneHop(location: Location, isAuthenticated: bool)
    requires Render(location, false, isAuthenticated).Redirect?
    ensures Render(Location(Render(location, false, isAuthenticated).to, "", ""), false, isAuthenticated).Show?
  {
    var target := Location(Render(location, false, isAuthenticated).to, "", "");
    match MatchRoute(location.pathname)
    case None =>
      HomeIsUnguarded(target, false, isAuthenticated);
    case Some(Route(guard, _)) =>
      if guard == PublicOnly {
        assert isAuthenticated && target.pathname == "/dashboard";
        DashboardRoute();
      } else {
        assert guard == ProtectedOnly && !isAuthenticated && target.pathname == "/login";
        LoginRoute();
      }
  }
}
