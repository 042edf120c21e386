/**
 * The auth service (frontend/src/services/authService.js): seven named
 * operations, each one request to a fixed backend path whose body is built
 * from the operation's arguments, and each returning `response.data` of a
 * successful response or rethrowing the adapter's error.
 */
module AuthService {
  import opened Common
  import opened Api

  /** A request as the service hands it to the adapter: `api.get(url)` or `api.post(url, body)`. */
  datatype HttpRequest = HttpRequest(httpMethod: HttpMethod, url: string, body: Option<map<string, string>>)

  /** What `signup(data)` reads from its argument; `phone` may be missing. */
  datatype SignupData = SignupData(
    email: string,
    password: string,
    password2: string,
    fullName: string,
    role: string,
    phone: Option<string>)

  /** The seven operations with their arguments; the role of a Google login may be omitted. */
  datatype AuthCall =
    | SignupCall(data: SignupData)
    | LoginCall(email: string, password: string)
    | LogoutCall
    | CurrentUserCall
    | RequestResetCall(email: string)
    | ConfirmResetCall(uid: string, token: string, newPassword: string, newPassword2: string)
    | GoogleLoginCall(accessToken: string, role: Option<string>)

  const DefaultRole := "CANDIDATE"

  /** `data.phone || ''`. */
  function PhoneOrEmpty(phone: Option<string>): (p: string)
    ensures phone.Some? ==> p == phone.value
    ensures phone.None? ==> p == ""
  {
    match phone
    case Some(v) => if v != "" then v else ""
    case None => ""
  }

  /** Lines 11-21. */
  function SignupRequest(data: SignupData): (r: HttpRequest)
    ensures r.httpMethod == Post && r.url == "/api/auth/signup/" && r.body.Some?
    ensures r.body.value.Keys == {"email", "password", "password2", "full_name", "role", "phone"}
    ensures r.body.value["email"] == data.email && r.body.value["password"] == data.password
    ensures r.body.value["password2"] == data.password2 && r.body.value["role"] == data.role
    ensures r.body.value["full_name"] == data.fullName
    ensures r.body.value["phone"] == PhoneOrEmpty(data.phone)
  {
    HttpRequest(Post, "/api/auth/signup/", Some(map[
      "email" := data.email,
      "password" := data.password,
      "password2" := data.password2,
      "full_name" := data.fullName,
      "role" := data.role,
      "phone" := PhoneOrEmpty(data.phone)]))
  }

  /** Lines 26-32: the body is exactly `{email, password}`. */
  function LoginRequest(email: string, password: string): (r: HttpRequest)
    ensures r.httpMethod == Post && r.url == "/api/auth/login/" && r.body.Some?
    ensures r.body.value.Keys == {"email", "password"}
    ensures r.body.value["email"] == email && r.body.value["password"] == password
  {
    HttpRequest(Post, "/api/auth/login/", Some(map["email" := email, "password" := password]))
  }

  /**
   * Lines 63-71: `newPassword` travels as `new_password` and `newPassword2`
   * as `new_password2`, `uid` and `token` unchanged; nothing compares the
   * two passwords here.
   */
  function ConfirmResetRequest(uid: string, token: string, newPassword: string, newPassword2: string): (r: HttpRequest)
    ensures r.httpMethod == Post && r.url == "/api/auth/password-reset/confirm/" && r.body.Some?
    ensures r.body.value.Keys == {"uid", "token", "new_password", "new_password2"}
    ensures r.body.value["uid"] == uid && r.body.value["token"] == token
    ensures r.body.value["new_password"] == newPassword && r.body.value["new_password2"] == newPassword2
  {
    HttpRequest(Post, "/api/auth/password-reset/confirm/", Some(map[
      "uid" := uid,
      "token" := token,
      "new_password" := newPassword,
      "new_password2" := newPassword2]))
  }

  /** Lines 76-82: an omitted role is sent as CANDIDATE. */
  function GoogleLoginRequest(accessToken: string, role: Option<string>): (r: HttpRequest)
    ensures r.httpMethod == Post && r.url == "/api/auth/google/" && r.body.Some?
    ensures r.body.value.Keys == {"access_token", "role"}
    ensures r.body.value["access_token"] == accessToken
    ensures r.body.value["role"] == if role.Some? then role.value else DefaultRole
  {
    var sent := match role case Some(given) => given case None => DefaultRole;
    HttpRequest(Post, "/api/auth/google/", Some(map["access_token" := accessToken, "role" := sent]))
  }

  /** The one request each operation issues. */
  function RequestFor(call: AuthCall): (r: HttpRequest)
    ensures r.body.None? <==> call.LogoutCall? || call.CurrentUserCall?
  {
    match call
    case SignupCall(data) => SignupRequest(data)
    case LoginCall(email, password) => LoginRequest(email, password)
    case LogoutCall => HttpRequest(Post, "/api/auth/logout/", None)
    case CurrentUserCall => HttpRequest(Get, "/api/auth/user/", None)
    case RequestResetCall(email) => HttpRequest(Post, "/api/auth/password-reset/", Some(map["email" := email]))
    case ConfirmResetCall(uid, token, p1, p2) => ConfirmResetRequest(uid, token, p1, p2)
    case GoogleLoginCall(accessToken, role) => GoogleLoginRequest(accessToken, role)
  }

  /** `getCurrentUser` is the only GET; every other operation POSTs. */
  lemma OnlyCurrentUserIsGet(call: AuthCall)
    ensures RequestFor(call).httpMethod == Get <==> call.CurrentUserCall?
    ensures !call.CurrentUserCall? ==> RequestFor(call).httpMethod == Post
  {
  }

  /** Every operation has its own path: two calls share a path only when they are the same operation. */
  lemma PathsIdentifyOperations(a: AuthCall, b: AuthCall)
    ensures RequestFor(a).url == RequestFor(b).url <==> OperationIndex(a) == OperationIndex(b)
  {
  }

  function OperationIndex(call: AuthCall): nat
  {
    match call
    case SignupCall(_) => 0
    case LoginCall(_, _) => 1
    case LogoutCall => 2
    case CurrentUserCall => 3
    case RequestResetCall(_) => 4
    case ConfirmResetCall(_, _, _, _) => 5
    case GoogleLoginCall(_, _) => 6
  }

  /**
   * `return response.data`: a settled request yields the response's data,
   * and a rejected one rethrows the adapter's error unchanged.
   */
  function Result<D, E>(settled: Outcome<HttpResponse<D>, HttpError<E>>): (r: Outcome<D, HttpError<E>>)
    ensures r.Ok? <==> settled.Ok?
    ensures r.Ok? ==> r.value == settled.value.data
    ensures r.Err? ==> r.error == settled.error
  {
    match ResponseInterceptor(settled)
    case Ok(response) => Ok(response.data)
    case Err(error) => Err(error)
  }

  /** Which requests carry the CSRF header once they pass the interceptor: all but `getCurrentUser`, given a token. */
  lemma {:induction false} CsrfOnEveryMutatingCall(call: AuthCall, headers: map<string, string>, cookie: string)
    requires CsrfToken(cookie).Some? && CsrfToken(cookie).value != ""
    ensures CsrfHeader in HeadersAfterInterceptor(headers, RequestFor(call).httpMethod, cookie) <==>
              !call.CurrentUserCall? || CsrfHeader in headers
  {
    OnlyCurrentUserIsGet(call);
  }
}
