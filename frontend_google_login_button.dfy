/**
 * The Google sign-in button (frontend/src/components/GoogleLoginButton.jsx):
 * it hands the credential the Google widget returns, with the button's
 * role, to the auth context's `googleLogin`, and goes to /dashboard when
 * that succeeds.
 */
module GoogleLoginButton {
  import opened Common
  import opened Routing
  import opened AuthService
  import opened AuthContext

  /** Line 6: `role = 'CANDIDATE'` applies only when the prop is not given. */
  function ButtonRole(role: Option<string>): (r: string)
    ensures role.Some? ==> r == role.value
    ensures role.None? ==> r == DefaultRole
  {
    match role
    case Some(given) => given
    case None => DefaultRole
  }

  /** Lines 17-19: a plain navigation to /dashboard exactly when the login succeeded. */
  function AfterGoogle(result: AuthResult): (nav: Option<Navigation>)
    ensures nav.Some? <==> result.Success?
    ensures nav.Some? ==> nav.value == Navigation("/dashboard", false)
  {
    if result.Success? then Some(Navigation("/dashboard", false)) else None
  }

  /** The request the button causes always names a role, so the service's own default never applies. */
  lemma {:induction false} RequestCarriesButtonRole(credential: string, role: Option<string>)
    ensures RequestFor(GoogleLoginCall(credential, Some(ButtonRole(role)))).body.value["role"] == ButtonRole(role)
    ensures RequestFor(GoogleLoginCall(credential, Some(ButtonRole(role)))).body.value["access_token"] == credential
    ensures role.None? ==> RequestFor(GoogleLoginCall(credential, Some(ButtonRole(role)))).body.value["role"] == "CANDIDATE"
  {
    var r := GoogleLoginRequest(credential, Some(ButtonRole(role)));
    assert RequestFor(GoogleLoginCall(credential, Some(ButtonRole(role)))) == r;
  }

  /** The button's state: its role prop and its `loading` flag (which nothing renders). */
  class GoogleButton {
    const role: string
    var loading: bool

    /** Lines 6-7. */
    constructor(role: Option<string>)
      ensures this.role == ButtonRole(role) && !loading
    {
      this.role := ButtonRole(role);
      loading := false;
    }

    /**
     * Lines 11-25: `googleLogin(credential, role)`, then /dashboard on
     * success; `loading` is false again once it settles. The context's
     * `googleLogin` reports failures in its result and does not throw, so
     * the `catch` of lines 20-21 is never taken.
     */
    method HandleGoogleSuccess(auth: AuthProvider, credential: string, outcome: Outcome<AuthResponse, ServiceError>)
      returns (call: AuthCall, nav: Option<Navigation>)
      modifies this, auth
      ensures call == GoogleLoginCall(credential, Some(role))
      ensures auth.Current() == AfterGoogleLogin(old(auth.Current()), outcome).session
      ensures nav == AfterGoogle(AfterGoogleLogin(old(auth.Current()), outcome).result)
      ensures !loading
    {
      loading := true;
      var result, toast;
      call, result, toast := auth.GoogleLogin(credential, Some(role), outcome);
      nav := AfterGoogle(result);
      loading := false;
    }

    /** Lines 27-30: the widget's failure only resets `loading`; nothing is called and nothing navigates. */
    method HandleGoogleError()
      modifies this
      ensures !loading
    {
      loading := false;
    }
  }
}
