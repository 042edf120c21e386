/**
 * The login page (frontend/src/pages/Login.jsx): it remembers where the
 * visitor was going, sets `loading` around the awaited `login`, and on
 * success replaces the history entry with that target.
 */
module LoginPage {
  import opened Common
  import opened Text
  import opened Routing
  import opened AuthService
  import opened AuthContext
  import App

  const DefaultTarget := "/dashboard"

  /** `location.state?.from?.pathname`, with "" for anything missing. */
  function FromPathname(state: Option<NavState>): (p: string)
    ensures state.None? || state.value.from.None? ==> p == ""
    ensures state.Some? && state.value.from.Some? ==> p == state.value.from.value.pathname
  {
    if state.Some? && state.value.from.Some? then state.value.from.value.pathname else ""
  }

  /** Line 19: where a successful login leads. */
  function RedirectTarget(state: Option<NavState>): (to: string)
    ensures to != ""
    ensures FromPathname(state) != "" ==> to == FromPathname(state)
    ensures FromPathname(state) == "" ==> to == DefaultTarget
  {
    FirstNonEmpty([FromPathname(state)], DefaultTarget)
  }

  /** Lines 29-31: navigate, replacing the login page in the history, exactly when the login succeeded. */
  function AfterSettle(result: AuthResult, target: string): (nav: Option<Navigation>)
    ensures nav.Some? <==> result.Success?
    ensures nav.Some? ==> nav.value == Navigation(target, true)
  {
    match result
    case Success(_) => Some(Navigation(target, true))
    case Failure(_) => None
  }

  /** A failed login leaves the visitor on the page; a successful one leads to the target. */
  lemma NavigatesOnlyOnSuccess(s: Session, outcome: Outcome<AuthResponse, ServiceError>, state: Option<NavState>)
    ensures AfterSettle(AfterLogin(s, outcome).result, RedirectTarget(state)).Some? <==> outcome.Ok?
    ensures outcome.Ok? ==> AfterSettle(AfterLogin(s, outcome).result, RedirectTarget(state)) == Some(Navigation(RedirectTarget(state), true))
  {
  }

  /**
   * The round trip through the protected-page guard: a visitor without a
   * session who opens a protected page is sent to /login carrying the
   * location, and once logged in is sent back to that same pathname,
   * where the page now shows.
   */
  lemma {:induction false} ReturnsToGuardedPage(location: Routing.Location, page: App.Page)
    requires App.MatchRoute(location.pathname) == Some(App.Route(App.ProtectedOnly, page))
    ensures App.Render(location, false, false) == App.Redirect("/login", Some(NavState(Some(location))), true)
    ensures App.MatchRoute("/" + "login") == Some(App.Route(App.PublicOnly, App.LoginPage))
    ensures RedirectTarget(Some(NavState(Some(location)))) == location.pathname
    ensures App.Render(Routing.Location(location.pathname, "", ""), false, true) == App.Show(page)
  {
    App.LoginRoute();
    assert location.pathname != "";
  }

  /** The page's state: the two inputs and the `loading` flag. */
  class LoginForm {
    var email: string
    var password: string
    var loading: bool

    /** Lines 12-14. */
    constructor()
      ensures email == "" && password == "" && !loading
    {
      email := "";
      password := "";
      loading := false;
    }

    /** Line 60. */
    method SetEmail(value: string)
      modifies this
      ensures email == value && password == old(password) && loading == old(loading)
    {
      email := value;
    }

    /** Line 83. */
    method SetPassword(value: string)
      modifies this
      ensures password == value && email == old(email) && loading == old(loading)
    {
      password := value;
    }

    /**
     * Lines 21-25 up to the await: `loading` is set and `login` is called
     * with the two inputs. The submit button is disabled while loading
     * (line 94), so a submit then does nothing.
     */
    method BeginSubmit() returns (call: Option<AuthCall>)
      modifies this
      ensures email == old(email) && password == old(password) && loading
      ensures call.Some? <==> !old(loading)
      ensures call.Some? ==> call.value == LoginCall(email, password)
    {
      if loading {
        call := None;
      } else {
        loading := true;
        call := Some(LoginCall(email, password));
      }
    }

    /** Lines 27-31, once `login` has settled. */
    method Settle(result: AuthResult, state: Option<NavState>) returns (nav: Option<Navigation>)
      modifies this
      ensures email == old(email) && password == old(password) && !loading
      ensures nav == AfterSettle(result, RedirectTarget(state))
    {
      loading := false;
      var from := RedirectTarget(state);
      nav := None;
      if result.Success? {
        nav := Some(Navigation(from, true));
      }
    }

    /** Lines 21-32 with the auth context's `login` settling with `outcome`. */
    method HandleSubmit(auth: AuthProvider, state: Option<NavState>, outcome: Outcome<AuthResponse, ServiceError>)
      returns (call: Option<AuthCall>, nav: Option<Navigation>)
      modifies this, auth
      ensures email == old(email) && password == old(password)
      ensures old(loading) ==> call.None? && nav.None? && loading && auth.Current() == old(auth.Current())
      ensures !old(loading) ==> !loading && call == Some(LoginCall(email, password))
      ensures !old(loading) ==> auth.Current() == AfterLogin(old(auth.Current()), outcome).session
      ensures !old(loading) ==> nav == AfterSettle(AfterLogin(old(auth.Current()), outcome).result, RedirectTarget(state))
    {
      call := BeginSubmit();
      nav := None;
      if call.Some? {
        var issued, result, toast := auth.Login(email, password, outcome);
        nav := Settle(result, state);
      }
    }
  }
}
