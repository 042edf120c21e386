/**
 * The API views (backend/accounts/views.py): for each endpoint, which
 * status, body and cookies the response has, and how the users table
 * changes. The token minting, Google's verifier, base64 of the key, the
 * reset-token generator and the mail server are parameters: their results
 * are given, not computed.
 */
module Views {
  import opened Common
  import opened Models
  import opened Serializers
  import Api
  import AuthService
  import AuthContext
  import PasswordResetPage
  import App

  /** `settings.DEBUG` and `settings.FRONTEND_URL`. */
  datatype Settings = Settings(debug: bool, frontendUrl: string)

  /** `str(refresh)` and `str(refresh.access_token)` of `RefreshToken.for_user(user)`. */
  datatype Tokens = Tokens(refresh: string, access: string)

  /** Lines 43 and 52: seven days and one hour, in seconds. */
  const RefreshMaxAge: nat := 7 * 24 * 60 * 60
  const AccessMaxAge: nat := 60 * 60
  const SameSiteLax := "Lax"

  /** A `Set-Cookie` the response carries. */
  datatype Cookie = Cookie(value: string, maxAge: nat, httpOnly: bool, secure: bool, sameSite: Option<string>)

  /** What Django's `delete_cookie` sets: the same name, empty and expired. */
  const Expired := Cookie("", 0, false, false, None)

  /** The JSON bodies the views return; `ServerError` stands for an exception the view does not catch. */
  datatype Body =
    | FieldErrors(errors: Errors)
    | ErrorMessage(error: string)
    | Message(message: string)
    | Welcome(message: string, user: UserData, isNewUser: Option<bool>)
    | Profile(user: UserData)
    | ServerError(reason: string)

  datatype Reply = Reply(status: nat, body: Body, cookies: map<string, Cookie>)

  /** A reply together with the users table it leaves. */
  datatype Handled = Handled(reply: Reply, rows: map<nat, UserRecord>, nextId: nat)

  const SignupMessage := "User created successfully"
  const LoginMessage := "Login successful"
  const LogoutMessage := "Logout successful"
  const ResetSentMessage := "If an account exists with this email, a reset link will be sent"
  const MailFailure := "Failed to send email. Please try again later."
  const InvalidLink := "Invalid reset link"
  const ExpiredLink := "Invalid or expired reset link"
  const ResetDone := "Password reset successful. You can now log in with your new password."
  const GoogleMessage := "Google login successful"
  const InvalidGoogleToken := "Invalid Google token"

  /** `UserSerializer(user).data` (serializers.py lines 8-14); `created_at` is given. */
  function UserJson(user: StoredUser, createdAt: string): (u: UserData)
    ensures u.id == user.id && u.email == user.record.email && u.fullName == user.record.fullName
    ensures u.phone == user.record.phone && u.role == user.record.role && u.avatar == user.record.avatar && u.createdAt == createdAt
  {
    UserData(user.id, user.record.email, user.record.fullName, user.record.phone, user.record.role, user.record.avatar, createdAt)
  }

  /**
   * Lines 37-53, 78-94 and 280-296: the two session cookies, both HTTP-only
   * and SameSite=Lax, secure outside debug mode; the refresh token lives
   * 604800 seconds and the access token 3600.
   */
  function SessionCookies(tokens: Tokens, settings: Settings): (c: map<string, Cookie>)
    ensures c.Keys == {"refresh_token", "access_token"}
    ensures c["refresh_token"].value == tokens.refresh && c["refresh_token"].maxAge == 604800
    ensures c["access_token"].value == tokens.access && c["access_token"].maxAge == 3600
    ensures forall k :: k in c ==> c[k].httpOnly && c[k].sameSite == Some("Lax") && c[k].secure == !settings.debug
  {
    map[
      "refresh_token" := Cookie(tokens.refresh, RefreshMaxAge, true, !settings.debug, Some(SameSiteLax)),
      "access_token" := Cookie(tokens.access, AccessMaxAge, true, !settings.debug, Some(SameSiteLax))]
  }

  // ---------------------------------------------------------------- signup

  /** Lines 25-57 once the serializer has spoken; `naming` is the manager's naming rule. */
  function SignupAfterValidation(naming: Naming, rows: map<nat, UserRecord>, nextId: nat, checked: Checked<Data>, tokens: Tokens, settings: Settings, createdAt: string)
    : (h: Handled)
    requires checked.Accepted? ==> SignupRequired <= checked.value.Keys
    ensures h.reply.status in {201, 400, 500}
    ensures checked.Rejected? <==> h.reply.status == 400
    ensures checked.Rejected? ==> h == Handled(Reply(400, FieldErrors(checked.errors), map[]), rows, nextId)
    ensures h.reply.status == 500 ==> h.rows == rows && h.nextId == nextId && h.reply.cookies == map[]
    ensures h.reply.status == 201 <==> checked.Accepted? && SignupCreate(naming, rows, nextId, checked.value).Ok?
    ensures h.reply.status == 201 ==> h.reply.cookies == SessionCookies(tokens, settings)
    ensures h.reply.status == 201 ==> h.reply.body.Welcome? && h.reply.body.message == SignupMessage && h.reply.body.isNewUser.None?
    ensures h.reply.status == 201 ==> h.reply.body.user.email == checked.value["email"] && h.reply.body.user.id == nextId
    ensures h.reply.status == 201 ==> nextId in h.rows && h.reply.body.user == UserJson(StoredUser(nextId, h.rows[nextId]), createdAt)
    ensures h.reply.status == 201 ==> h.rows == SignupCreate(naming, rows, nextId, checked.value).value.rows
    ensures h.reply.status == 201 ==> h.nextId == SignupCreate(naming, rows, nextId, checked.value).value.nextId
  {
    match checked
    case Rejected(errors) => Handled(Reply(400, FieldErrors(errors), map[]), rows, nextId)
    case Accepted(validated) =>
      match SignupCreate(naming, rows, nextId, validated)
      case Err(reason) => Handled(Reply(500, ServerError(reason), map[]), rows, nextId)
      case Ok(created) =>
        var user := UserJson(StoredUser(created.id, created.user), createdAt);
        Handled(Reply(201, Welcome(SignupMessage, user, None), SessionCookies(tokens, settings)), created.rows, created.nextId)
  }

  /**
   * Lines 23-57: 400 with the serializer's errors, or the new user with
   * 201 and the session cookies.
   */
  function SignupHandled(naming: Naming, rows: map<nat, UserRecord>, nextId: nat, data: Data, checks: Errors, tokens: Tokens, settings: Settings, createdAt: string)
    : (h: Handled)
    ensures h.reply.status == 400 <==> SignupValidate(rows, data, checks).Rejected?
    ensures h.reply.status == 201 ==> h.reply.body.Welcome? && h.reply.body.user.email == data["email"]
  {
    SignupAfterValidation(naming, rows, nextId, SignupValidate(rows, data, checks), tokens, settings, createdAt)
  }

  /**
   * With the corrected manager, a signup the serializer accepts is
   * answered with 201, never with a server error, and the table stays valid.
   */
  lemma {:induction false} AcceptedSignupGets201(rows: map<nat, UserRecord>, nextId: nat, data: Data, checks: Errors, tokens: Tokens, settings: Settings, createdAt: string)
    requires Valid(rows, nextId) && NamesGenerated(rows)
    requires SignupValidate(rows, data, checks).Accepted?
    ensures SignupHandled(Corrected, rows, nextId, data, checks, tokens, settings, createdAt).reply.status == 201
    ensures Valid(SignupHandled(Corrected, rows, nextId, data, checks, tokens, settings, createdAt).rows, SignupHandled(Corrected, rows, nextId, data, checks, tokens, settings, createdAt).nextId)
    ensures NamesGenerated(SignupHandled(Corrected, rows, nextId, data, checks, tokens, settings, createdAt).rows)
  {
    AcceptedSignupIsCreated(rows, nextId, data, checks);
  }

  /**
   * As written, a second signup whose email shares the local part of an
   * earlier one passes the serializer but fails at the insert; the view
   * does not catch the error, so the answer is a server error and the
   * table is left as it was.
   */
  lemma {:induction false} AsWrittenSignupFails(rows: map<nat, UserRecord>, nextId: nat, first: Data, second: Data, checks: Errors, tokens: Tokens, settings: Settings, createdAt: string)
    requires SignupHandled(AsWritten, rows, nextId, first, checks, tokens, settings, createdAt).reply.status == 201
    requires var h := SignupHandled(AsWritten, rows, nextId, first, checks, tokens, settings, createdAt);
             SignupValidate(h.rows, second, checks).Accepted? && LocalPart(second["email"]) == LocalPart(first["email"])
    ensures var h := SignupHandled(AsWritten, rows, nextId, first, checks, tokens, settings, createdAt);
            SignupHandled(AsWritten, h.rows, h.nextId, second, checks, tokens, settings, createdAt) == Handled(Reply(500, ServerError(UniqueViolation), map[]), h.rows, h.nextId)
  {
    var h := SignupHandled(AsWritten, rows, nextId, first, checks, tokens, settings, createdAt);
    var validated := SignupValidate(rows, first, checks).value;
    assert h.rows == SignupCreate(AsWritten, rows, nextId, validated).value.rows;
    assert h.rows[nextId].username == Some(LocalPart(first["email"]));
    AcceptedSignupCollidesAsWritten(h.rows, h.nextId, second, checks, nextId);
  }

  /** A signup body with the given email, name and matching passwords. */
  function SignupBody(email: string): Data {
    map["email" := email, "full_name" := "Alice", "password" := "secret-pw", "password2" := "secret-pw"]
  }

  /** The body is accepted whenever no row holds its email. */
  lemma {:induction false} SignupBodyAccepted(rows: map<nat, UserRecord>, email: string)
    requires email != "" && FindByEmail(rows, email).None?
    ensures SignupValidate(rows, SignupBody(email), map[]).Accepted?
    ensures SignupValidate(rows, SignupBody(email), map[]).value["email"] == email
  {
    var data := SignupBody(email);
    assert "role" !in data;
    assert Reported(map[], SignupFields) == map[];
    assert PresenceErrors(data, SignupRequired) == map[];
  }

  /** Two emails that differ only after the `@`. */
  lemma {:induction false} OtherDomainDiffers(p: string, d1: string, d2: string)
    requires d1 != d2
    ensures p + "@" + d1 != p + "@" + d2
  {
    assert (p + "@" + d1)[|p| + 1..] == d1;
    assert (p + "@" + d2)[|p| + 1..] == d2;
  }

  /** On an empty table, a signup with `SignupBody(email)` is answered with 201 and leaves one row. */
  lemma {:induction false} FirstSignup(naming: Naming, email: string, tokens: Tokens, settings: Settings, createdAt: string)
    requires email != ""
    ensures var h := SignupHandled(naming, map[], 1, SignupBody(email), map[], tokens, settings, createdAt);
            h.reply.status == 201 && h.rows.Keys == {1} && h.nextId == 2 && h.rows[1].email == email
  {
    SignupBodyAccepted(map[], email);
    var checked := SignupValidate(map[], SignupBody(email), map[]);
    var validated := checked.value;
    assert forall rec :: !ClashesWithOther(map[], 1, rec);
    var created := SignupCreate(naming, map[], 1, validated);
    assert created.Ok?;
    var h := SignupAfterValidation(naming, map[], 1, checked, tokens, settings, createdAt);
    assert h.rows == map[1 := created.value.user];
  }

  /**
   * As written, for any local part `p` and two domains: on an empty table
   * `p@d1` signs up with 201, and `p@d2` then gets a server error.
   */
  lemma {:induction false} SameNameSignupsAsWritten(p: string, d1: string, d2: string, tokens: Tokens, settings: Settings, createdAt: string)
    requires '@' !in p && d1 != d2
    ensures var h := SignupHandled(AsWritten, map[], 1, SignupBody(p + "@" + d1), map[], tokens, settings, createdAt);
            h.reply.status == 201
            && SignupHandled(AsWritten, h.rows, h.nextId, SignupBody(p + "@" + d2), map[], tokens, settings, createdAt).reply.status == 500
  {
    var first, second := p + "@" + d1, p + "@" + d2;
    OtherDomainDiffers(p, d1, d2);
    LocalPartOf(p, d1);
    LocalPartOf(p, d2);
    FirstSignup(AsWritten, first, tokens, settings, createdAt);
    var h := SignupHandled(AsWritten, map[], 1, SignupBody(first), map[], tokens, settings, createdAt);
    SignupBodyAccepted(h.rows, second);
    AsWrittenSignupFails(map[], 1, SignupBody(first), SignupBody(second), map[], tokens, settings, createdAt);
  }

  /** With the corrected manager, the same two signups are both answered with 201. */
  lemma {:induction false} SameNameSignupsCorrected(p: string, d1: string, d2: string, tokens: Tokens, settings: Settings, createdAt: string)
    requires '@' !in p && d1 != d2
    ensures var h := SignupHandled(Corrected, map[], 1, SignupBody(p + "@" + d1), map[], tokens, settings, createdAt);
            h.reply.status == 201
            && SignupHandled(Corrected, h.rows, h.nextId, SignupBody(p + "@" + d2), map[], tokens, settings, createdAt).reply.status == 201
  {
    var first, second := p + "@" + d1, p + "@" + d2;
    OtherDomainDiffers(p, d1, d2);
    FirstSignup(Corrected, first, tokens, settings, createdAt);
    AcceptedSignupGets201(map[], 1, SignupBody(first), map[], tokens, settings, createdAt);
    var g := SignupHandled(Corrected, map[], 1, SignupBody(first), map[], tokens, settings, createdAt);
    SignupBodyAccepted(g.rows, second);
    AcceptedSignupGets201(g.rows, g.nextId, SignupBody(second), map[], tokens, settings, createdAt);
  }

  /** The input that shows it: `alice@a.com` and then `alice@b.com`. */
  lemma {:induction false} AliceSignsUpTwice(tokens: Tokens, settings: Settings, createdAt: string)
    ensures var h := SignupHandled(AsWritten, map[], 1, SignupBody("alice" + "@" + "a.com"), map[], tokens, settings, createdAt);
            h.reply.status == 201
            && SignupHandled(AsWritten, h.rows, h.nextId, SignupBody("alice" + "@" + "b.com"), map[], tokens, settings, createdAt).reply.status == 500
    ensures var h := SignupHandled(Corrected, map[], 1, SignupBody("alice" + "@" + "a.com"), map[], tokens, settings, createdAt);
            h.reply.status == 201
            && SignupHandled(Corrected, h.rows, h.nextId, SignupBody("alice" + "@" + "b.com"), map[], tokens, settings, createdAt).reply.status == 201
  {
    assert "a.com"[0] != "b.com"[0];
    SameNameSignupsAsWritten("alice", "a.com", "b.com", tokens, settings, createdAt);
    SameNameSignupsCorrected("alice", "a.com", "b.com", tokens, settings, createdAt);
  }

  // ----------------------------------------------------------------- login

  /** Lines 64-98: 400 with the serializer's errors, or the authenticated user with 200 and the session cookies. */
  function LoginReply(data: Data, checks: Errors, authenticated: Option<StoredUser>, tokens: Tokens, settings: Settings, createdAt: string)
    : (r: Reply)
    ensures r.status == 200 <==> LoginValidate(data, checks, authenticated).Accepted?
    ensures r.status != 200 ==> r == Reply(400, FieldErrors(LoginValidate(data, checks, authenticated).errors), map[])
    ensures r.status == 200 ==> authenticated.Some? && authenticated.value.record.isActive
    ensures r.status == 200 ==> r.body == Welcome(LoginMessage, UserJson(authenticated.value, createdAt), None)
    ensures r.status == 200 ==> r.cookies == SessionCookies(tokens, settings)
  {
    match LoginValidate(data, checks, authenticated)
    case Rejected(errors) => Reply(400, FieldErrors(errors), map[])
    case Accepted(attrs) => Reply(200, Welcome(LoginMessage, UserJson(attrs.user, createdAt), None), SessionCookies(tokens, settings))
  }

  // ---------------------------------------------------- logout, current user

  /** Lines 105-114: 200, and both session cookies expired. */
  function LogoutReply(): (r: Reply)
    ensures r.status == 200 && r.body == Message(LogoutMessage)
    ensures r.cookies.Keys == {"access_token", "refresh_token"}
    ensures forall k :: k in r.cookies ==> r.cookies[k].maxAge == 0 && r.cookies[k].value == ""
  {
    Reply(200, Message(LogoutMessage), map["access_token" := Expired, "refresh_token" := Expired])
  }

  /** Lines 121-123: the authenticated user's profile. */
  function CurrentUserReply(user: StoredUser, createdAt: string): (r: Reply)
    ensures r.status == 200 && r.cookies == map[]
    ensures r.body.Profile? && r.body.user.id == user.id && r.body.user.email == user.record.email && r.body.user.role == user.record.role
  {
    Reply(200, Profile(UserJson(user, createdAt)), map[])
  }

  /** A browser's cookie jar after it stores a response's cookies: an expired one is removed. */
  function StoreCookies(jar: map<string, string>, cookies: map<string, Cookie>): (j: map<string, string>)
    ensures forall k :: k in cookies ==> (k in j <==> cookies[k].maxAge > 0) && (k in j ==> j[k] == cookies[k].value)
    ensures forall k :: k !in cookies ==> (k in j <==> k in jar) && (k in j ==> j[k] == jar[k])
  {
    map k | k in jar.Keys + cookies.Keys && (k in cookies ==> cookies[k].maxAge > 0) :: if k in cookies then cookies[k].value else jar[k]
  }

  /**
   * A session lives in the two cookies: a login puts both tokens into the
   * jar, and a logout after it takes both out again, whatever else the jar
   * holds.
   */
  lemma {:induction false} LogoutEndsSession(jar: map<string, string>, tokens: Tokens, settings: Settings)
    ensures StoreCookies(jar, SessionCookies(tokens, settings))["access_token"] == tokens.access
    ensures StoreCookies(jar, SessionCookies(tokens, settings))["refresh_token"] == tokens.refresh
    ensures "access_token" !in StoreCookies(StoreCookies(jar, SessionCookies(tokens, settings)), LogoutReply().cookies)
    ensures "refresh_token" !in StoreCookies(StoreCookies(jar, SessionCookies(tokens, settings)), LogoutReply().cookies)
  {
    var c := SessionCookies(tokens, settings);
    assert "access_token" in c && "refresh_token" in c;
    var out := LogoutReply().cookies;
    assert "access_token" in out && "refresh_token" in out;
  }

  // ------------------------------------------------- password reset request

  /** The message a reset request mails: to the address, with the link. */
  datatype Mail = Mail(to: string, link: string)

  /** A reset request's reply, and the mail the view tried to send, if any. */
  datatype ResetSent = ResetSent(reply: Reply, mail: Option<Mail>)

  /** Line 150. */
  function ResetLink(settings: Settings, uid: string, token: string): string {
    settings.frontendUrl + "/reset-password/" + uid + "/" + token
  }

  /**
   * Lines 132-193 once the serializer has spoken. `uid` and `token` are
   * what the encoder and the token generator give for the user found;
   * `delivered` is whether `send_mail` returned without raising.
   */
  function ResetAfterValidation(rows: map<nat, UserRecord>, checked: Checked<string>, uid: string, token: string, delivered: bool, settings: Settings)
    : (r: ResetSent)
    ensures checked.Rejected? ==> r == ResetSent(Reply(400, FieldErrors(checked.errors), map[]), None)
    ensures checked.Accepted? && FindByEmail(rows, checked.value).None? ==> r == ResetSent(Reply(200, Message(ResetSentMessage), map[]), None)
    ensures checked.Accepted? && FindByEmail(rows, checked.value).Some? ==> r.mail == Some(Mail(checked.value, ResetLink(settings, uid, token)))
    ensures checked.Accepted? && FindByEmail(rows, checked.value).Some? ==>
              r.reply == if delivered then Reply(200, Message(ResetSentMessage), map[]) else Reply(500, ErrorMessage(MailFailure), map[])
  {
    match checked
    case Rejected(errors) => ResetSent(Reply(400, FieldErrors(errors), map[]), None)
    case Accepted(email) =>
      match FindByEmail(rows, email)
      case None => ResetSent(Reply(200, Message(ResetSentMessage), map[]), None)
      case Some(_) =>
        var mail := Mail(email, ResetLink(settings, uid, token));
        if delivered then ResetSent(Reply(200, Message(ResetSentMessage), map[]), Some(mail))
        else ResetSent(Reply(500, ErrorMessage(MailFailure), map[]), Some(mail))
  }

  /** Lines 130-193 with the serializer as written. */
  function ResetRequestHandled(rows: map<nat, UserRecord>, data: Data, checks: Errors, uid: string, token: string, delivered: bool, settings: Settings)
    : (r: ResetSent)
    ensures r.reply.status == 200 ==> r.mail.Some?
    ensures r.mail.Some? ==> FindByEmail(rows, r.mail.value.to).Some?
  {
    ResetAfterValidation(rows, ResetRequestValidate(rows, data, checks), uid, token, delivered, settings)
  }

  /** Lines 130-193 with the corrected serializer. */
  function ResetRequestHandledFixed(rows: map<nat, UserRecord>, data: Data, checks: Errors, uid: string, token: string, delivered: bool, settings: Settings)
    : (r: ResetSent)
    ensures r.mail.Some? ==> FindByEmail(rows, r.mail.value.to).Some?
  {
    ResetAfterValidation(rows, ResetRequestValidateFixed(data, checks), uid, token, delivered, settings)
  }

  /** A body whose `email` passes the field's own checks. */
  predicate WellFormedReset(data: Data, checks: Errors) {
    Reported(checks, {"email"}) + PresenceErrors(data, {"email"}) == map[]
  }

  /**
   * As written, the reply tells whether an address has an account: with
   * the mail delivered, a known address gets 200 and an unknown one 400
   * with "No user found with this email address.".
   */
  lemma {:induction false} AsWrittenRevealsAccounts(rows: map<nat, UserRecord>, data: Data, checks: Errors, uid: string, token: string, settings: Settings)
    requires WellFormedReset(data, checks)
    ensures "email" in data
    ensures FindByEmail(rows, data["email"]).None? ==>
              ResetRequestHandled(rows, data, checks, uid, token, true, settings).reply == Reply(400, FieldErrors(map["email" := [NoSuchUser]]), map[])
    ensures FindByEmail(rows, data["email"]).Some? ==>
              ResetRequestHandled(rows, data, checks, uid, token, true, settings).reply == Reply(200, Message(ResetSentMessage), map[])
  {
    NoErrorsInParts(Reported(checks, {"email"}), PresenceErrors(data, {"email"}));
    assert "email" !in PresenceErrors(data, {"email"});
  }

  /**
   * Corrected, the reply is the same 200 for every well-formed address;
   * only whether a mail goes out depends on the account.
   */
  lemma {:induction false} FixedHidesAccounts(rows: map<nat, UserRecord>, data: Data, checks: Errors, uid: string, token: string, settings: Settings)
    requires WellFormedReset(data, checks)
    ensures ResetRequestHandledFixed(rows, data, checks, uid, token, true, settings).reply == Reply(200, Message(ResetSentMessage), map[])
    ensures ResetRequestHandledFixed(rows, data, checks, uid, token, true, settings).mail.Some? <==> FindByEmail(rows, data["email"]).Some?
  {
    NoErrorsInParts(Reported(checks, {"email"}), PresenceErrors(data, {"email"}));
    assert "email" !in PresenceErrors(data, {"email"});
  }

  /**
   * The link in the mail opens the confirmation page with the link's
   * `uid` and `token`, as long as neither is empty or holds a '/' (the
   * base64url alphabet and the token generator use none).
   */
  lemma {:induction false} ResetLinkOpensConfirmPage(settings: Settings, uid: string, token: string)
    requires uid != "" && token != "" && '/' !in uid && '/' !in token
    ensures ResetLink(settings, uid, token) == settings.frontendUrl + ("/reset-password/" + uid + "/" + token)
    ensures App.MatchRoute("/reset-password/" + uid + "/" + token) == Some(App.Route(App.PublicOnly, App.PasswordResetConfirmPage(uid, token)))
  {
    App.ConfirmRouteBinds(uid, token);
  }

  /** `error.response.data` as the frontend's auth code reads a reply's body. */
  function ClientData(body: Body): AuthContext.ErrorData {
    match body
    case FieldErrors(errors) =>
      AuthContext.ErrorData(None,
        if "email" in errors then Some(errors["email"]) else None,
        if "password" in errors then Some(errors["password"]) else None)
    case ErrorMessage(error) => AuthContext.ErrorData(Some(error), None, None)
    case _ => AuthContext.ErrorData(None, None, None)
  }

  /** A reply as the frontend's adapter delivers it: a 2xx resolves, anything else rejects with the response. */
  function ClientOutcome(reply: Reply): (o: Outcome<(), AuthContext.ServiceError>)
    ensures o.Ok? <==> 200 <= reply.status < 300
    ensures o.Err? ==> o.error.response == Some(Api.HttpResponse(reply.status, ClientData(reply.body)))
  {
    if 200 <= reply.status < 300 then Ok(())
    else Err(Api.HttpError(Some(Api.HttpResponse(reply.status, ClientData(reply.body)))))
  }

  /**
   * What the "forgot password" page then shows. As written, an address
   * without an account gets "Failed to send reset email", since the 400
   * carries no `error` field, and a known one "Password reset email sent!";
   * corrected, both get the latter.
   */
  lemma {:induction false} ResetToastRevealsAccounts(rows: map<nat, UserRecord>, data: Data, checks: Errors, uid: string, token: string, settings: Settings)
    requires WellFormedReset(data, checks)
    ensures "email" in data
    ensures FindByEmail(rows, data["email"]).None? ==>
              PasswordResetPage.RequestToast(ClientOutcome(ResetRequestHandled(rows, data, checks, uid, token, true, settings).reply))
                == AuthContext.ErrorToast("Failed to send reset email")
    ensures FindByEmail(rows, data["email"]).Some? ==>
              PasswordResetPage.RequestToast(ClientOutcome(ResetRequestHandled(rows, data, checks, uid, token, true, settings).reply))
                == AuthContext.SuccessToast("Password reset email sent!")
    ensures PasswordResetPage.RequestToast(ClientOutcome(ResetRequestHandledFixed(rows, data, checks, uid, token, true, settings).reply))
              == AuthContext.SuccessToast("Password reset email sent!")
  {
    AsWrittenRevealsAccounts(rows, data, checks, uid, token, settings);
    FixedHidesAccounts(rows, data, checks, uid, token, settings);
  }

  // -------------------------------------------- password reset confirmation

  /**
   * Lines 201-234. `decoded` is the key the `uid` decodes to (None when
   * decoding fails); `tokenValid` is the generator's verdict on the token
   * for that user. The checks come in the source's order.
   */
  function ResetConfirmHandled(rows: map<nat, UserRecord>, nextId: nat, data: Data, checks: Errors, decoded: Option<nat>, tokenValid: bool)
    : (h: Handled)
    ensures h.reply.cookies == map[]
    ensures h.reply.status != 200 ==> h.rows == rows && h.nextId == nextId
    ensures ResetConfirmValidate(data, checks).Rejected? ==> h.reply == Reply(400, FieldErrors(ResetConfirmValidate(data, checks).errors), map[])
    ensures ResetConfirmValidate(data, checks).Accepted? && (decoded.None? || decoded.value !in rows) ==>
              h.reply == Reply(400, ErrorMessage(InvalidLink), map[])
    ensures ResetConfirmValidate(data, checks).Accepted? && decoded.Some? && decoded.value in rows && !tokenValid ==>
              h.reply == Reply(400, ErrorMessage(ExpiredLink), map[])
    ensures h.reply.status == 200 ==> h.reply.body == Message(ResetDone) && ResetConfirmValidate(data, checks).Accepted?
    ensures h.reply.status == 200 ==> decoded.Some? && decoded.value in rows && tokenValid
  {
    match ResetConfirmValidate(data, checks)
    case Rejected(errors) => Handled(Reply(400, FieldErrors(errors), map[]), rows, nextId)
    case Accepted(validated) =>
      if decoded.None? || decoded.value !in rows then Handled(Reply(400, ErrorMessage(InvalidLink), map[]), rows, nextId)
      else if !tokenValid then Handled(Reply(400, ErrorMessage(ExpiredLink), map[]), rows, nextId)
      else
        var id := decoded.value;
        var changed := rows[id].(password := Some(validated["new_password"]));
        var saved := changed.(username := Some(FilledUsername(changed.username, changed.email, Some(id))));
        match WriteRow(rows, nextId, Some(id), saved)
        case IntegrityError => Handled(Reply(500, ServerError(UniqueViolation), map[]), rows, nextId)
        case Saved(_, after, next) => Handled(Reply(200, Message(ResetDone), map[]), after, next)
  }

  /**
   * On a valid table, a reset that passes both checks goes through and
   * changes the user's password and nothing else.
   */
  lemma {:induction false} ResetChangesOnlyPassword(rows: map<nat, UserRecord>, nextId: nat, data: Data, checks: Errors, id: nat)
    requires Valid(rows, nextId) && NamesSet(rows)
    requires ResetConfirmValidate(data, checks).Accepted? && id in rows
    ensures ResetConfirmHandled(rows, nextId, data, checks, Some(id), true).reply == Reply(200, Message(ResetDone), map[])
    ensures ResetConfirmHandled(rows, nextId, data, checks, Some(id), true).rows == rows[id := rows[id].(password := Some(data["new_password"]))]
    ensures ResetConfirmHandled(rows, nextId, data, checks, Some(id), true).nextId == nextId
  {
    var validated := ResetConfirmValidate(data, checks).value;
    var changed := rows[id].(password := Some(validated["new_password"]));
    assert FilledUsername(changed.username, changed.email, Some(id)) == changed.username.value;
    forall k | k in rows && k != id
      ensures !Clash(rows[k], changed)
    {
      assert !Clash(rows[k], rows[id]);
    }
    assert !ClashesWithOther(rows, id, changed);
  }

  // ------------------------------------------------------------ Google login

  /** The fields of Google's verified token the view reads: `email`, and `name` and `picture` when present. */
  datatype IdInfo = IdInfo(email: string, name: Option<string>, picture: Option<string>)

  /** A user `get_or_create` returned, whether it created it, and the table after. */
  datatype Fetched = Fetched(user: StoredUser, created: bool, rows: map<nat, UserRecord>, nextId: nat)

  /** `idinfo.get(key, '')`. */
  function OrEmpty(value: Option<string>): string {
    if value.Some? then value.value else ""
  }

  /** Lines 264-268. */
  function GoogleDefaults(info: IdInfo, role: string): map<string, Value> {
    map["full_name" := Str(OrEmpty(info.name)), "avatar" := Str(OrEmpty(info.picture)), "role" := Str(role)]
  }

  /**
   * Lines 262-269: the row holding the email, untouched, or a new row with
   * the defaults, named by `save` under `naming`. When the insert is
   * refused, `get_or_create` looks the email up again, finds nothing, and
   * re-raises the integrity error.
   */
  function GetOrCreate(naming: Naming, rows: map<nat, UserRecord>, nextId: nat, info: IdInfo, role: string): (r: Outcome<Fetched, string>)
    ensures FindByEmail(rows, info.email).Some? ==>
              r == Ok(Fetched(StoredUser(FindByEmail(rows, info.email).value, rows[FindByEmail(rows, info.email).value]), false, rows, nextId))
    ensures r.Ok? && r.value.created ==> FindByEmail(rows, info.email).None? && r.value.user.id == nextId
    ensures r.Ok? && r.value.created ==> r.value.rows == rows[nextId := r.value.user.record]
    ensures r.Ok? && r.value.created ==> r.value.user.record.email == info.email && r.value.user.record.role == role
    ensures r.Ok? && r.value.created ==> r.value.user.record.fullName == OrEmpty(info.name) && r.value.user.record.avatar == Some(OrEmpty(info.picture))
    ensures r.Ok? && r.value.created ==> r.value.user.record.username == Some(InsertedUsername(naming, info.email, nextId))
    ensures r.Err? ==> r == Err(UniqueViolation) && FindByEmail(rows, info.email).None?
    ensures r.Ok? ==> r.value.user.record.email == info.email
  {
    match FindByEmail(rows, info.email)
    case Some(k) => Ok(Fetched(StoredUser(k, rows[k]), false, rows, nextId))
    case None =>
      var user := Build(info.email, GoogleDefaults(info, role)).(username := Some(InsertedUsername(naming, info.email, nextId)));
      match WriteRow(rows, nextId, None, user)
      case IntegrityError => Err(UniqueViolation)
      case Saved(id, after, next) => Ok(Fetched(StoredUser(id, user), true, after, next))
  }

  /** Lines 242-307. `verified` is Google's token info, None when the verifier raises `ValueError`. */
  function GoogleHandled(naming: Naming, rows: map<nat, UserRecord>, nextId: nat, data: Data, checks: Errors, verified: Option<IdInfo>, tokens: Tokens, settings: Settings, createdAt: string)
    : (h: Handled)
    ensures h.reply.status in {200, 400, 500}
    ensures h.reply.status != 200 ==> h.rows == rows && h.nextId == nextId && h.reply.cookies == map[]
    ensures GoogleValidate(data, checks).Rejected? ==> h.reply == Reply(400, FieldErrors(GoogleValidate(data, checks).errors), map[])
    ensures GoogleValidate(data, checks).Accepted? && verified.None? ==> h.reply == Reply(400, ErrorMessage(InvalidGoogleToken), map[])
    ensures h.reply.status == 200 ==> GoogleValidate(data, checks).Accepted? && verified.Some?
    ensures h.reply.status == 200 ==> h.reply.cookies == SessionCookies(tokens, settings)
    ensures h.reply.status == 200 ==> h.reply.body.Welcome? && h.reply.body.message == GoogleMessage
    ensures h.reply.status == 200 ==>
              var f := GetOrCreate(naming, rows, nextId, verified.value, GoogleValidate(data, checks).value.role);
              f.Ok? && h.reply.body.user == UserJson(f.value.user, createdAt) && h.reply.body.isNewUser == Some(f.value.created)
              && h.rows == f.value.rows && h.nextId == f.value.nextId
  {
    match GoogleValidate(data, checks)
    case Rejected(errors) => Handled(Reply(400, FieldErrors(errors), map[]), rows, nextId)
    case Accepted(attrs) =>
      match verified
      case None => Handled(Reply(400, ErrorMessage(InvalidGoogleToken), map[]), rows, nextId)
      case Some(info) =>
        match GetOrCreate(naming, rows, nextId, info, attrs.role)
        case Err(reason) => Handled(Reply(500, ServerError(reason), map[]), rows, nextId)
        case Ok(fetched) =>
          var body := Welcome(GoogleMessage, UserJson(fetched.user, createdAt), Some(fetched.created));
          Handled(Reply(200, body, SessionCookies(tokens, settings)), fetched.rows, fetched.nextId)
  }

  /**
   * A Google login for an email that has an account returns that account
   * as stored, whatever role the request asks for, with `is_new_user`
   * false, and leaves the table alone.
   */
  lemma {:induction false} GoogleKeepsExistingUser(naming: Naming, rows: map<nat, UserRecord>, nextId: nat, data: Data, checks: Errors, info: IdInfo, tokens: Tokens, settings: Settings, createdAt: string)
    requires GoogleValidate(data, checks).Accepted?
    requires FindByEmail(rows, info.email).Some?
    ensures GoogleHandled(naming, rows, nextId, data, checks, Some(info), tokens, settings, createdAt).reply.status == 200
    ensures GoogleHandled(naming, rows, nextId, data, checks, Some(info), tokens, settings, createdAt).rows == rows
    ensures GoogleHandled(naming, rows, nextId, data, checks, Some(info), tokens, settings, createdAt).reply.body.isNewUser == Some(false)
    ensures GoogleHandled(naming, rows, nextId, data, checks, Some(info), tokens, settings, createdAt).reply.body.user.role
              == rows[FindByEmail(rows, info.email).value].role
  {
    var k := FindByEmail(rows, info.email).value;
    assert GetOrCreate(naming, rows, nextId, info, GoogleValidate(data, checks).value.role) == Ok(Fetched(StoredUser(k, rows[k]), false, rows, nextId));
  }

  /**
   * With the corrected naming, for an email without an account, on a
   * valid table whose usernames were generated, a new user is
   * created with the requested role, `is_new_user` is true, and the table
   * stays valid.
   */
  lemma {:induction false} GoogleCreatesNewUser(rows: map<nat, UserRecord>, nextId: nat, data: Data, checks: Errors, info: IdInfo, tokens: Tokens, settings: Settings, createdAt: string)
    requires Valid(rows, nextId) && NamesGenerated(rows)
    requires GoogleValidate(data, checks).Accepted?
    requires FindByEmail(rows, info.email).None?
    ensures GoogleHandled(Corrected, rows, nextId, data, checks, Some(info), tokens, settings, createdAt).reply.status == 200
    ensures GoogleHandled(Corrected, rows, nextId, data, checks, Some(info), tokens, settings, createdAt).reply.body.isNewUser == Some(true)
    ensures GoogleHandled(Corrected, rows, nextId, data, checks, Some(info), tokens, settings, createdAt).reply.body.user.role == GoogleValidate(data, checks).value.role
    ensures Valid(GoogleHandled(Corrected, rows, nextId, data, checks, Some(info), tokens, settings, createdAt).rows,
                  GoogleHandled(Corrected, rows, nextId, data, checks, Some(info), tokens, settings, createdAt).nextId)
    ensures NamesGenerated(GoogleHandled(Corrected, rows, nextId, data, checks, Some(info), tokens, settings, createdAt).rows)
  {
    var role := GoogleValidate(data, checks).value.role;
    var user := Build(info.email, GoogleDefaults(info, role)).(username := Some(InsertedUsername(Corrected, info.email, nextId)));
    forall k | k in rows && k != nextId
      ensures !Clash(rows[k], user)
    {
      GeneratedUsernamesDiffer(rows[k].email, k, info.email, nextId);
    }
    assert !ClashesWithOther(rows, nextId, user);
    WriteKeepsValid(rows, nextId, None, user);
  }

  /**
   * As written, a Google login for a new email whose local part is already
   * some row's username is refused by the database; `ValueError` is the
   * only exception the view catches, so the answer is a server error and
   * the table is left as it was.
   */
  lemma {:induction false} AsWrittenGoogleFails(rows: map<nat, UserRecord>, nextId: nat, data: Data, checks: Errors, info: IdInfo, tokens: Tokens, settings: Settings, createdAt: string, k: nat)
    requires GoogleValidate(data, checks).Accepted?
    requires FindByEmail(rows, info.email).None?
    requires k in rows && k != nextId && rows[k].username == Some(LocalPart(info.email))
    ensures GoogleHandled(AsWritten, rows, nextId, data, checks, Some(info), tokens, settings, createdAt)
              == Handled(Reply(500, ServerError(UniqueViolation), map[]), rows, nextId)
  {
    var role := GoogleValidate(data, checks).value.role;
    var user := Build(info.email, GoogleDefaults(info, role)).(username := Some(InsertedUsername(AsWritten, info.email, nextId)));
    assert Clash(rows[k], user);
    assert GetOrCreate(AsWritten, rows, nextId, info, role) == Err(UniqueViolation);
  }

  /**
   * The same input through both views as written: after `alice@a.com`
   * signs up, a Google login as `alice@b.com` gets a server error.
   */
  lemma {:induction false} AliceSignupThenGoogle(data: Data, checks: Errors, name: Option<string>, picture: Option<string>, tokens: Tokens, settings: Settings, createdAt: string)
    requires GoogleValidate(data, checks).Accepted?
    ensures var h := SignupHandled(AsWritten, map[], 1, SignupBody("alice" + "@" + "a.com"), map[], tokens, settings, createdAt);
            h.reply.status == 201
            && GoogleHandled(AsWritten, h.rows, h.nextId, data, checks, Some(IdInfo("alice" + "@" + "b.com", name, picture)), tokens, settings, createdAt).reply.status == 500
  {
    var first, second := "alice" + "@" + "a.com", "alice" + "@" + "b.com";
    assert "a.com"[0] != "b.com"[0];
    OtherDomainDiffers("alice", "a.com", "b.com");
    LocalPartOf("alice", "a.com");
    LocalPartOf("alice", "b.com");
    FirstSignup(AsWritten, first, tokens, settings, createdAt);
    var h := SignupHandled(AsWritten, map[], 1, SignupBody(first), map[], tokens, settings, createdAt);
    assert FindByEmail(h.rows, second).None?;
    AsWrittenGoogleFails(h.rows, h.nextId, data, checks, IdInfo(second, name, picture), tokens, settings, createdAt, 1);
  }

  // ------------------------------------------------- the response object

  /** DRF's `Response`: status and body fixed at construction, cookies added afterwards. */
  class Response {
    const status: nat
    const body: Body
    var cookies: map<string, Cookie>

    constructor(body: Body, status: nat)
      ensures Snapshot() == Reply(status, body, map[])
    {
      this.status := status;
      this.body := body;
      cookies := map[];
    }

    function Snapshot(): Reply
      reads this
    {
      Reply(status, body, cookies)
    }

    /** `response.set_cookie(...)`: the named cookie is replaced, the others stay. */
    method SetCookie(key: string, value: string, maxAge: nat, httpOnly: bool, secure: bool, sameSite: Option<string>)
      modifies this
      ensures cookies == old(cookies)[key := Cookie(value, maxAge, httpOnly, secure, sameSite)]
    {
      cookies := cookies[key := Cookie(value, maxAge, httpOnly, secure, sameSite)];
    }

    /** `response.delete_cookie(key)`. */
    method DeleteCookie(key: string)
      modifies this
      ensures cookies == old(cookies)[key := Expired]
    {
      cookies := cookies[key := Expired];
    }
  }

  /** The two `set_cookie` calls every successful login path makes. */
  method SetSessionCookies(response: Response, tokens: Tokens, settings: Settings)
    modifies response
    ensures response.cookies == old(response.cookies) + SessionCookies(tokens, settings)
  {
    response.SetCookie("refresh_token", tokens.refresh, RefreshMaxAge, true, !settings.debug, Some(SameSiteLax));
    response.SetCookie("access_token", tokens.access, AccessMaxAge, true, !settings.debug, Some(SameSiteLax));
  }

  /** `SignupView.post`, with the manager's naming rule `naming`. */
  method SignupView(naming: Naming, store: UserStore, data: Data, checks: Errors, tokens: Tokens, settings: Settings, createdAt: string)
    returns (response: Response)
    modifies store
    ensures fresh(response)
    ensures response.Snapshot() == SignupHandled(naming, old(store.rows), old(store.nextId), data, checks, tokens, settings, createdAt).reply
    ensures store.rows == SignupHandled(naming, old(store.rows), old(store.nextId), data, checks, tokens, settings, createdAt).rows
    ensures store.nextId == SignupHandled(naming, old(store.rows), old(store.nextId), data, checks, tokens, settings, createdAt).nextId
  {
    var checked := SignupValidate(store.rows, data, checks);
    response := SaveAndReply(naming, store, checked, tokens, settings, createdAt);
  }

  /** Lines 25-57 of `SignupView.post`, once the serializer has spoken. */
  method SaveAndReply(naming: Naming, store: UserStore, checked: Checked<Data>, tokens: Tokens, settings: Settings, createdAt: string)
    returns (response: Response)
    requires checked.Accepted? ==> SignupRequired <= checked.value.Keys
    modifies store
    ensures fresh(response)
    ensures response.Snapshot() == SignupAfterValidation(naming, old(store.rows), old(store.nextId), checked, tokens, settings, createdAt).reply
    ensures store.rows == SignupAfterValidation(naming, old(store.rows), old(store.nextId), checked, tokens, settings, createdAt).rows
    ensures store.nextId == SignupAfterValidation(naming, old(store.rows), old(store.nextId), checked, tokens, settings, createdAt).nextId
  {
    match checked {
      case Rejected(errors) =>
        response := new Response(FieldErrors(errors), 400);
      case Accepted(validated) =>
        var created := SignupCreate(naming, store.rows, store.nextId, validated);
        if created.Err? {
          response := new Response(ServerError(created.error), 500);
        } else {
          store.rows, store.nextId := created.value.rows, created.value.nextId;
          response := new Response(Welcome(SignupMessage, UserJson(StoredUser(created.value.id, created.value.user), createdAt), None), 201);
          SetSessionCookies(response, tokens, settings);
          assert map[] + SessionCookies(tokens, settings) == SessionCookies(tokens, settings);
        }
    }
  }

  /** `LoginView.post`. */
  method LoginView(data: Data, checks: Errors, authenticated: Option<StoredUser>, tokens: Tokens, settings: Settings, createdAt: string)
    returns (response: Response)
    ensures fresh(response)
    ensures response.Snapshot() == LoginReply(data, checks, authenticated, tokens, settings, createdAt)
  {
    match LoginValidate(data, checks, authenticated) {
      case Rejected(errors) =>
        response := new Response(FieldErrors(errors), 400);
      case Accepted(attrs) =>
        response := new Response(Welcome(LoginMessage, UserJson(attrs.user, createdAt), None), 200);
        SetSessionCookies(response, tokens, settings);
        assert map[] + SessionCookies(tokens, settings) == SessionCookies(tokens, settings);
    }
  }

  /** `LogoutView.post`: the access cookie is deleted first, then the refresh cookie. */
  method LogoutView() returns (response: Response)
    ensures fresh(response)
    ensures response.Snapshot() == LogoutReply()
  {
    response := new Response(Message(LogoutMessage), 200);
    response.DeleteCookie("access_token");
    response.DeleteCookie("refresh_token");
  }

  /**
   * Which `validate_email` the reset request runs: the serializer as
   * written, which refuses an address without an account, or the
   * corrected one, which leaves that to the view.
   */
  datatype ResetCheck = UnknownRefused | UnknownAccepted

  /** `PasswordResetRequestView.post`, with the serializer `check` names. */
  method PasswordResetRequestView(check: ResetCheck, store: UserStore, data: Data, checks: Errors, uid: string, token: string, delivered: bool, settings: Settings)
    returns (response: Response, mail: Option<Mail>)
    ensures fresh(response)
    ensures check.UnknownRefused? ==> response.Snapshot() == ResetRequestHandled(store.rows, data, checks, uid, token, delivered, settings).reply
    ensures check.UnknownRefused? ==> mail == ResetRequestHandled(store.rows, data, checks, uid, token, delivered, settings).mail
    ensures check.UnknownAccepted? ==> response.Snapshot() == ResetRequestHandledFixed(store.rows, data, checks, uid, token, delivered, settings).reply
    ensures check.UnknownAccepted? ==> mail == ResetRequestHandledFixed(store.rows, data, checks, uid, token, delivered, settings).mail
  {
    mail := None;
    var checked := if check.UnknownRefused? then ResetRequestValidate(store.rows, data, checks) else ResetRequestValidateFixed(data, checks);
    match checked {
      case Rejected(errors) =>
        response := new Response(FieldErrors(errors), 400);
      case Accepted(email) =>
        if FindByEmail(store.rows, email).None? {
          response := new Response(Message(ResetSentMessage), 200);
        } else {
          mail := Some(Mail(email, ResetLink(settings, uid, token)));
          if !delivered {
            response := new Response(ErrorMessage(MailFailure), 500);
          } else {
            response := new Response(Message(ResetSentMessage), 200);
          }
        }
    }
  }

  /** `PasswordResetConfirmView.post`: `set_password`, then `save`. */
  method PasswordResetConfirmView(store: UserStore, data: Data, checks: Errors, decoded: Option<nat>, tokenValid: bool)
    returns (response: Response)
    modifies store
    ensures fresh(response)
    ensures response.Snapshot() == ResetConfirmHandled(old(store.rows), old(store.nextId), data, checks, decoded, tokenValid).reply
    ensures store.rows == ResetConfirmHandled(old(store.rows), old(store.nextId), data, checks, decoded, tokenValid).rows
    ensures store.nextId == ResetConfirmHandled(old(store.rows), old(store.nextId), data, checks, decoded, tokenValid).nextId
  {
    match ResetConfirmValidate(data, checks) {
      case Rejected(errors) =>
        response := new Response(FieldErrors(errors), 400);
      case Accepted(validated) =>
        if decoded.None? || decoded.value !in store.rows {
          response := new Response(ErrorMessage(InvalidLink), 400);
        } else if !tokenValid {
          response := new Response(ErrorMessage(ExpiredLink), 400);
        } else {
          var id := decoded.value;
          var changed := store.rows[id].(password := Some(validated["new_password"]));
          var saved := changed.(username := Some(FilledUsername(changed.username, changed.email, Some(id))));
          var written := WriteRow(store.rows, store.nextId, Some(id), saved);
          if written.IntegrityError? {
            response := new Response(ServerError(UniqueViolation), 500);
          } else {
            store.rows, store.nextId := written.rows, written.nextId;
            response := new Response(Message(ResetDone), 200);
          }
        }
    }
  }

  /** `GoogleLoginView.post`, with the naming rule `naming` for a created user. */
  method GoogleLoginView(naming: Naming, store: UserStore, data: Data, checks: Errors, verified: Option<IdInfo>, tokens: Tokens, settings: Settings, createdAt: string)
    returns (response: Response)
    modifies store
    ensures fresh(response)
    ensures response.Snapshot() == GoogleHandled(naming, old(store.rows), old(store.nextId), data, checks, verified, tokens, settings, createdAt).reply
    ensures store.rows == GoogleHandled(naming, old(store.rows), old(store.nextId), data, checks, verified, tokens, settings, createdAt).rows
    ensures store.nextId == GoogleHandled(naming, old(store.rows), old(store.nextId), data, checks, verified, tokens, settings, createdAt).nextId
  {
    match GoogleValidate(data, checks) {
      case Rejected(errors) =>
        response := new Response(FieldErrors(errors), 400);
      case Accepted(attrs) =>
        if verified.None? {
          response := new Response(ErrorMessage(InvalidGoogleToken), 400);
        } else {
          var fetched := GetOrCreate(naming, store.rows, store.nextId, verified.value, attrs.role);
          if fetched.Err? {
            response := new Response(ServerError(fetched.error), 500);
          } else {
            store.rows, store.nextId := fetched.value.rows, fetched.value.nextId;
            response := new Response(Welcome(GoogleMessage, UserJson(fetched.value.user, createdAt), Some(fetched.value.created)), 200);
            SetSessionCookies(response, tokens, settings);
            assert map[] + SessionCookies(tokens, settings) == SessionCookies(tokens, settings);
          }
        }
    }
  }
}
