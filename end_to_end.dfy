/**
 * The frontend pages and the backend views side by side: what a request
 * the pages send meets on the server, and what the auth store keeps of
 * the reply.
 */
module EndToEnd {
  import opened Common
  import opened Models
  import opened Serializers
  import opened Views
  import AuthService
  import AuthContext
  import SignupPage

  /** The data a login, signup or Google login resolves with, or the error it rejects with. */
  function AuthData(reply: Reply): (o: Outcome<AuthContext.AuthResponse, AuthContext.ServiceError>)
    requires 200 <= reply.status < 300 ==> reply.body.Welcome?
    ensures o.Ok? <==> 200 <= reply.status < 300
    ensures o.Ok? ==> o.value.user == reply.body.user && o.value.isNewUser == reply.body.isNewUser
  {
    if 200 <= reply.status < 300 then Ok(AuthContext.AuthResponse(reply.body.user, reply.body.isNewUser))
    else Err(ClientOutcome(reply).error)
  }

  /**
   * The signup page and the signup serializer compare the same two fields:
   * once the field checks pass, the body the page builds from a form is
   * refused for "Password fields didn't match." exactly when the page
   * itself would have stopped at "Passwords don't match".
   */
  lemma {:induction false} SignupMismatchChecksAgree(form: map<string, string>, rows: map<nat, UserRecord>, checks: Errors)
    requires SignupPage.FormFields <= form.Keys
    requires SignupFieldErrors(rows, AuthService.SignupRequest(SignupPage.ToSignupData(form)).body.value, checks) == map[]
    ensures SignupValidate(rows, AuthService.SignupRequest(SignupPage.ToSignupData(form)).body.value, checks).Accepted? <==>
              SignupPage.BeginSignup(form).Sent?
    ensures SignupPage.BeginSignup(form).Rejected? ==>
              SignupValidate(rows, AuthService.SignupRequest(SignupPage.ToSignupData(form)).body.value, checks)
                == Rejected(map["password" := [PasswordMismatch]])
  {
    var body := AuthService.SignupRequest(SignupPage.ToSignupData(form)).body.value;
    assert body["password"] == form["password"] && body["password2"] == form["password2"];
  }

  /**
   * The same for the reset confirmation: the service does not compare the
   * passwords, the page and the serializer both do, and they agree.
   */
  lemma {:induction false} ConfirmMismatchChecksAgree(uid: string, token: string, p1: string, p2: string, checks: Errors)
    requires Reported(checks, ConfirmFields) + PresenceErrors(AuthService.ConfirmResetRequest(uid, token, p1, p2).body.value, ConfirmFields) == map[]
    ensures ResetConfirmValidate(AuthService.ConfirmResetRequest(uid, token, p1, p2).body.value, checks).Accepted? <==> p1 == p2
    ensures p1 != p2 ==>
              ResetConfirmValidate(AuthService.ConfirmResetRequest(uid, token, p1, p2).body.value, checks)
                == Rejected(map["new_password" := [PasswordMismatch]])
  {
  }

  /**
   * After a login request settles, the store holds exactly the account
   * the backend authenticated, or is unchanged when the backend refused.
   */
  lemma {:induction false} SessionFollowsLogin(
      s: AuthContext.Session, data: Data, checks: Errors, authenticated: Option<StoredUser>,
      tokens: Tokens, settings: Settings, createdAt: string)
    ensures LoginValidate(data, checks, authenticated).Accepted? ==>
              AuthContext.AfterLogin(s, AuthData(LoginReply(data, checks, authenticated, tokens, settings, createdAt))).session.user
                == Some(UserJson(authenticated.value, createdAt))
    ensures LoginValidate(data, checks, authenticated).Rejected? ==>
              AuthContext.AfterLogin(s, AuthData(LoginReply(data, checks, authenticated, tokens, settings, createdAt))).session == s
  {
  }

  /**
   * The Google button's toast says "Account created successfully!" exactly
   * when the backend created the account, and "Login successful!" when it
   * found an existing one.
   */
  lemma {:induction false} GoogleToastTellsCreation(
      naming: Naming, s: AuthContext.Session, rows: map<nat, UserRecord>, nextId: nat, data: Data, checks: Errors,
      info: IdInfo, tokens: Tokens, settings: Settings, createdAt: string)
    requires GoogleHandled(naming, rows, nextId, data, checks, Some(info), tokens, settings, createdAt).reply.status == 200
    ensures (AuthContext.AfterGoogleLogin(s, AuthData(GoogleHandled(naming, rows, nextId, data, checks, Some(info), tokens, settings, createdAt).reply)).toast
               == AuthContext.SuccessToast("Account created successfully!")) <==>
              FindByEmail(rows, info.email).None?
    ensures FindByEmail(rows, info.email).Some? ==>
              AuthContext.AfterGoogleLogin(s, AuthData(GoogleHandled(naming, rows, nextId, data, checks, Some(info), tokens, settings, createdAt).reply)).toast
                == AuthContext.SuccessToast("Login successful!")
  {
    var f := GetOrCreate(naming, rows, nextId, info, GoogleValidate(data, checks).value.role);
    assert f.Ok?;
    assert f.value.created <==> FindByEmail(rows, info.email).None?;
  }
}
