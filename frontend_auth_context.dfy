/**
 * The session store (frontend/src/contexts/AuthContext.jsx): the provider's
 * two pieces of state, `user` and `loading`, the fetch of the current user
 * on mount, and the four operations login, signup, logout and googleLogin.
 *
 * Each operation awaits one auth-service call; the settled outcome of that
 * call is a parameter. Toasts are returned to the caller instead of being
 * shown.
 */
module AuthContext {
  import opened Common
  import opened Text
  import opened Api
  import opened AuthService

  /**
   * `error.response.data` of a rejected call as far as the store reads it.
   * A field that is missing or not of the expected shape is None.
   */
  datatype ErrorData = ErrorData(error: Option<string>, email: Option<seq<string>>, password: Option<seq<string>>)

  type ServiceError = HttpError<ErrorData>

  /** The data of a successful login, signup or Google login: `user` and, for Google, `is_new_user`. */
  datatype AuthResponse = AuthResponse(user: UserData, isNewUser: Option<bool>)

  /** What the operations return: `{success: true, user?}` or `{success: false, error?}`. */
  datatype AuthResult = Success(user: Option<UserData>) | Failure(error: Option<string>)

  datatype Toast = SuccessToast(message: string) | ErrorToast(message: string)

  /** The provider's state. */
  datatype Session = Session(user: Option<UserData>, loading: bool)

  /** What one operation leaves behind: the new state, its return value and its toast. */
  datatype Step = Step(session: Session, result: AuthResult, toast: Toast)

  /** Lines 17-18. */
  const Initial := Session(None, true)

  /** Line 96: `!!user`. */
  predicate IsAuthenticated(s: Session) {
    s.user.Some?
  }

  /** `error.response?.data?.error`, with "" for anything falsy. */
  function ErrorText(e: ServiceError): string {
    if e.response.Some? && e.response.value.data.error.Some? then e.response.value.data.error.value else ""
  }

  /** `list?.[0]`, with "" for anything falsy. */
  function FirstEntry(list: Option<seq<string>>): string {
    if list.Some? && |list.value| > 0 then list.value[0] else ""
  }

  function EmailText(e: ServiceError): string {
    if e.response.Some? then FirstEntry(e.response.value.data.email) else ""
  }

  function PasswordText(e: ServiceError): string {
    if e.response.Some? then FirstEntry(e.response.value.data.password) else ""
  }

  /** Line 44. */
  function LoginFailureMessage(e: ServiceError): (m: string)
    ensures m != "" && (m == ErrorText(e) || m == EmailText(e) || m == "Login failed")
  {
    FirstNonEmpty([ErrorText(e), EmailText(e)], "Login failed")
  }

  /** Lines 57-58. */
  function SignupFailureMessage(e: ServiceError): (m: string)
    ensures m != "" && (m == ErrorText(e) || m == EmailText(e) || m == PasswordText(e) || m == "Signup failed")
  {
    FirstNonEmpty([ErrorText(e), EmailText(e), PasswordText(e)], "Signup failed")
  }

  /** Line 83. */
  function GoogleFailureMessage(e: ServiceError): (m: string)
    ensures m != "" && (m == ErrorText(e) || m == "Google login failed")
  {
    FirstNonEmpty([ErrorText(e)], "Google login failed")
  }

  /** Login's message: the `error` field, else the first `email` entry, else "Login failed". */
  lemma LoginMessagePriority(e: ServiceError)
    ensures ErrorText(e) != "" ==> LoginFailureMessage(e) == ErrorText(e)
    ensures ErrorText(e) == "" && EmailText(e) != "" ==> LoginFailureMessage(e) == EmailText(e)
    ensures ErrorText(e) == "" && EmailText(e) == "" ==> LoginFailureMessage(e) == "Login failed"
  {
    var c := [ErrorText(e), EmailText(e)];
    assert c[0] == ErrorText(e) && c[1] == EmailText(e);
  }

  /** Signup's message: `error`, else the first `email` entry, else the first `password` entry, else "Signup failed". */
  lemma SignupMessagePriority(e: ServiceError)
    ensures ErrorText(e) != "" ==> SignupFailureMessage(e) == ErrorText(e)
    ensures ErrorText(e) == "" && EmailText(e) != "" ==> SignupFailureMessage(e) == EmailText(e)
    ensures ErrorText(e) == "" && EmailText(e) == "" && PasswordText(e) != "" ==> SignupFailureMessage(e) == PasswordText(e)
    ensures ErrorText(e) == "" && EmailText(e) == "" && PasswordText(e) == "" ==> SignupFailureMessage(e) == "Signup failed"
  {
    var c := [ErrorText(e), EmailText(e), PasswordText(e)];
    assert c[0] == ErrorText(e) && c[1] == EmailText(e) && c[2] == PasswordText(e);
  }

  /** Google's message: `error`, else "Google login failed"; a transport failure (no response) gets the fallback. */
  lemma GoogleMessagePriority(e: ServiceError)
    ensures ErrorText(e) != "" ==> GoogleFailureMessage(e) == ErrorText(e)
    ensures ErrorText(e) == "" ==> GoogleFailureMessage(e) == "Google login failed"
    ensures e.response.None? ==> GoogleFailureMessage(e) == "Google login failed"
  {
    var c := [ErrorText(e)];
    assert c[0] == ErrorText(e);
  }

  /** Lines 21-35: the mount fetch; on failure the user is cleared, silently. */
  function AfterFetch(s: Session, outcome: Outcome<UserData, ServiceError>): (t: Session)
    ensures !t.loading
    ensures outcome.Ok? ==> t.user == Some(outcome.value)
    ensures outcome.Err? ==> t.user.None?
  {
    match outcome
    case Ok(userData) => Session(Some(userData), false)
    case Err(_) => Session(None, false)
  }

  /**
   * The shared shape of login, signup and googleLogin (lines 37-87): on
   * success `user := response.user` and `{success: true, user}`; on failure
   * the state is untouched and `{success: false, error: message}`.
   */
  function AfterAuth(s: Session, outcome: Outcome<AuthResponse, ServiceError>, successText: string, failureText: string): (r: Step)
    ensures r.session.loading == s.loading
    ensures outcome.Ok? ==> r.session.user == Some(outcome.value.user) && r.result == Success(Some(outcome.value.user))
    ensures outcome.Ok? ==> r.toast == SuccessToast(successText)
    ensures outcome.Err? ==> r.session == s && r.result == Failure(Some(failureText)) && r.toast == ErrorToast(failureText)
  {
    match outcome
    case Ok(response) => Step(Session(Some(response.user), s.loading), Success(Some(response.user)), SuccessToast(successText))
    case Err(_) => Step(s, Failure(Some(failureText)), ErrorToast(failureText))
  }

  function AfterLogin(s: Session, outcome: Outcome<AuthResponse, ServiceError>): (r: Step)
    ensures outcome.Err? ==> r.result.Failure? && r.result.error == Some(LoginFailureMessage(outcome.error)) && r.result.error.value != ""
  {
    AfterAuth(s, outcome, "Login successful!", if outcome.Err? then LoginFailureMessage(outcome.error) else "")
  }

  function AfterSignup(s: Session, outcome: Outcome<AuthResponse, ServiceError>): (r: Step)
    ensures outcome.Err? ==> r.result.Failure? && r.result.error == Some(SignupFailureMessage(outcome.error)) && r.result.error.value != ""
  {
    AfterAuth(s, outcome, "Account created successfully!", if outcome.Err? then SignupFailureMessage(outcome.error) else "")
  }

  /** Line 80: `is_new_user` picks the success message, nothing else. */
  function GoogleSuccessText(isNewUser: Option<bool>): string {
    if isNewUser == Some(true) then "Account created successfully!" else "Login successful!"
  }

  function AfterGoogleLogin(s: Session, outcome: Outcome<AuthResponse, ServiceError>): (r: Step)
    ensures outcome.Err? ==> r.result.Failure? && r.result.error == Some(GoogleFailureMessage(outcome.error)) && r.result.error.value != ""
  {
    AfterAuth(s, outcome,
              if outcome.Ok? then GoogleSuccessText(outcome.value.isNewUser) else "",
              if outcome.Err? then GoogleFailureMessage(outcome.error) else "")
  }

  /** Lines 64-74: the user is cleared only when the backend call succeeds. */
  function AfterLogout(s: Session, outcome: Outcome<(), ServiceError>): (r: Step)
    ensures r.session.loading == s.loading
    ensures outcome.Ok? ==> r.session.user.None? && r.result == Success(None) && r.toast == SuccessToast("Logged out successfully")
    ensures outcome.Err? ==> r.session == s && r.result == Failure(None) && r.toast == ErrorToast("Logout failed")
  {
    match outcome
    case Ok(_) => Step(Session(None, s.loading), Success(None), SuccessToast("Logged out successfully"))
    case Err(_) => Step(s, Failure(None), ErrorToast("Logout failed"))
  }

  /** One settled operation of the store. */
  datatype Event =
    | Mounted(fetched: Outcome<UserData, ServiceError>)
    | LoggedIn(login: Outcome<AuthResponse, ServiceError>)
    | SignedUp(signup: Outcome<AuthResponse, ServiceError>)
    | LoggedOut(logout: Outcome<(), ServiceError>)
    | GoogleLoggedIn(google: Outcome<AuthResponse, ServiceError>)

  /** The store after one settled operation; only the mount fetch writes `loading`. */
  function Apply(s: Session, e: Event): (t: Session)
    ensures t.loading == (s.loading && !e.Mounted?)
  {
    match e
    case Mounted(o) => AfterFetch(s, o)
    case LoggedIn(o) => AfterLogin(s, o).session
    case SignedUp(o) => AfterSignup(s, o).session
    case LoggedOut(o) => AfterLogout(s, o).session
    case GoogleLoggedIn(o) => AfterGoogleLogin(s, o).session
  }

  function Run(s: Session, events: seq<Event>): Session
    decreases |events|
  {
    if events == [] then s else Run(Apply(s, events[0]), events[1..])
  }

  /** `loading` is written by the mount fetch only: it stays true exactly until a fetch settles. */
  lemma {:induction false} LoadingClearedOnlyByFetch(s: Session, events: seq<Event>)
    ensures Run(s, events).loading == (s.loading && forall i :: 0 <= i < |events| ==> !events[i].Mounted?)
    decreases |events|
  {
    if events != [] {
      LoadingClearedOnlyByFetch(Apply(s, events[0]), events[1..]);
      assert forall i :: 1 <= i < |events| ==> events[i] == events[1..][i - 1];
    }
  }

  /** Once the mount fetch has settled, success or failure, `loading` is false for good. */
  lemma LoadingFalseAfterMount(fetched: Outcome<UserData, ServiceError>, later: seq<Event>)
    ensures !Run(Initial, [Mounted(fetched)] + later).loading
  {
    LoadingClearedOnlyByFetch(Initial, [Mounted(fetched)] + later);
    assert ([Mounted(fetched)] + later)[0].Mounted?;
  }

  /** A failed login, signup, logout or Google login leaves the session exactly as it was. */
  lemma FailuresLeaveSessionUnchanged(s: Session, e: Event)
    requires e.LoggedIn? ==> e.login.Err?
    requires e.SignedUp? ==> e.signup.Err?
    requires e.LoggedOut? ==> e.logout.Err?
    requires e.GoogleLoggedIn? ==> e.google.Err?
    requires !e.Mounted?
    ensures Apply(s, e) == s
  {
  }

  /** The code does not log out locally when the backend call fails: the user stays signed in. */
  lemma FailedLogoutKeepsUser(u: UserData, e: ServiceError)
    ensures IsAuthenticated(AfterLogout(Session(Some(u), false), Err(e)).session)
  {
  }

  /** `is_new_user` changes only the toast: the state and the returned value are the same either way. */
  lemma NewUserFlagOnlySelectsMessage(s: Session, u: UserData, a: Option<bool>, b: Option<bool>)
    ensures AfterGoogleLogin(s, Ok(AuthResponse(u, a))).session == AfterGoogleLogin(s, Ok(AuthResponse(u, b))).session
    ensures AfterGoogleLogin(s, Ok(AuthResponse(u, a))).result == AfterGoogleLogin(s, Ok(AuthResponse(u, b))).result
    ensures AfterGoogleLogin(s, Ok(AuthResponse(u, Some(true)))).toast != AfterGoogleLogin(s, Ok(AuthResponse(u, Some(false)))).toast
  {
  }

  /** The provider component: `user` and `loading` change in place as the awaited calls settle. */
  class AuthProvider {
    var user: Option<UserData>
    var loading: bool

    function Current(): Session
      reads this
    {
      Session(user, loading)
    }

    /** Line 96. */
    function IsAuthenticated(): (b: bool)
      reads this
      ensures b <==> user.Some?
    {
      user != None
    }

    constructor()
      ensures Current() == Initial
    {
      user := None;
      loading := true;
    }

    /** Lines 22-32: `getCurrentUser()`, then `setUser`, and `setLoading(false)` in any case. */
    method FetchUser(outcome: Outcome<UserData, ServiceError>) returns (call: AuthCall)
      modifies this
      ensures call == CurrentUserCall
      ensures Current() == AfterFetch(old(Current()), outcome)
    {
      call := CurrentUserCall;
      match outcome {
        case Ok(userData) => user := Some(userData);
        case Err(_) => user := None;
      }
      loading := false;
    }

    /** Lines 37-48. */
    method Login(email: string, password: string, outcome: Outcome<AuthResponse, ServiceError>)
      returns (call: AuthCall, result: AuthResult, toast: Toast)
      modifies this
      ensures call == LoginCall(email, password)
      ensures Step(Current(), result, toast) == AfterLogin(old(Current()), outcome)
    {
      call := LoginCall(email, password);
      match outcome {
        case Ok(response) =>
          user := Some(response.user);
          toast := SuccessToast("Login successful!");
          result := Success(Some(response.user));
        case Err(error) =>
          var message := LoginFailureMessage(error);
          toast := ErrorToast(message);
          result := Failure(Some(message));
      }
    }

    /** Lines 50-62. */
    method Signup(data: SignupData, outcome: Outcome<AuthResponse, ServiceError>)
      returns (call: AuthCall, result: AuthResult, toast: Toast)
      modifies this
      ensures call == SignupCall(data)
      ensures Step(Current(), result, toast) == AfterSignup(old(Current()), outcome)
    {
      call := SignupCall(data);
      match outcome {
        case Ok(response) =>
          user := Some(response.user);
          toast := SuccessToast("Account created successfully!");
          result := Success(Some(response.user));
        case Err(error) =>
          var message := SignupFailureMessage(error);
          toast := ErrorToast(message);
          result := Failure(Some(message));
      }
    }

    /** Lines 64-74. */
    method Logout(outcome: Outcome<(), ServiceError>) returns (call: AuthCall, result: AuthResult, toast: Toast)
      modifies this
      ensures call == LogoutCall
      ensures Step(Current(), result, toast) == AfterLogout(old(Current()), outcome)
    {
      call := LogoutCall;
      if outcome.Ok? {
        user := None;
        toast := SuccessToast("Logged out successfully");
        result := Success(None);
      } else {
        toast := ErrorToast("Logout failed");
        result := Failure(None);
      }
    }

    /** Lines 76-87. */
    method GoogleLogin(accessToken: string, role: Option<string>, outcome: Outcome<AuthResponse, ServiceError>)
      returns (call: AuthCall, result: AuthResult, toast: Toast)
      modifies this
      ensures call == GoogleLoginCall(accessToken, role)
      ensures Step(Current(), result, toast) == AfterGoogleLogin(old(Current()), outcome)
    {
      call := GoogleLoginCall(accessToken, role);
      match outcome {
        case Ok(response) =>
          user := Some(response.user);
          toast := SuccessToast(if response.isNewUser == Some(true) then "Account created successfully!" else "Login successful!");
          result := Success(Some(response.user));
        case Err(error) =>
          var message := GoogleFailureMessage(error);
          toast := ErrorToast(message);
          result := Failure(Some(message));
      }
    }
  }
}
