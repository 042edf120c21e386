/**
 * The HTTP adapter (frontend/src/services/api.js): the request interceptor
 * that reads the `csrftoken` cookie and attaches it as `X-CSRFToken` to
 * every non-GET request, and the response interceptor that lets every
 * response and every error through unchanged.
 *
 * The browser's cookie store enters as the `document.cookie` string: the
 * `name=value` pairs of the Cookie header (section 4.2.1 of RFC 6265)
 * joined by "; ".
 */
module Api {
  import opened Common
  import opened Text

  /** Axios lower-cases `config.httpMethod` before any interceptor runs. */
  datatype HttpMethod = Get | Post | Put | Patch | Delete

  const CookieSeparator := "; "
  const CsrfCookiePrefix := "csrftoken="
  const CsrfHeader := "X-CSRFToken"

  /** `rows.find(row => row.startsWith(prefix))`. */
  function FindRow(rows: seq<string>, prefix: string): (r: Option<string>)
    ensures r.None? <==> forall j :: 0 <= j < |rows| ==> !StartsWith(rows[j], prefix)
    ensures r.Some? ==> exists i :: 0 <= i < |rows| && rows[i] == r.value && StartsWith(rows[i], prefix)
                                    && forall j :: 0 <= j < i ==> !StartsWith(rows[j], prefix)
  {
    if rows == [] then None
    else if StartsWith(rows[0], prefix) then Some(rows[0])
    else
      var r := FindRow(rows[1..], prefix);
      assert forall j :: 1 <= j < |rows| ==> rows[j] == rows[1..][j - 1];
      if r.Some? then
        ghost var k :| 0 <= k < |rows[1..]| && rows[1..][k] == r.value && StartsWith(rows[1..][k], prefix)
                       && forall j :: 0 <= j < k ==> !StartsWith(rows[1..][j], prefix);
        assert rows[k + 1] == r.value;
        r
      else r
  }

  /** The cookie rows, as `document.cookie.split('; ')` gives them. */
  function CookieRows(cookie: string): (rows: seq<string>)
    ensures |rows| >= 1
    ensures Join(rows, CookieSeparator) == cookie
  {
    SplitJoin(cookie, CookieSeparator);
    Split(cookie, CookieSeparator)
  }

  /**
   * The token of lines 16-19: in the first row that starts with
   * `csrftoken=`, the text after that `=` up to the next `=` or the end of
   * the row; nothing when no row starts with `csrftoken=`.
   */
  function CsrfToken(cookie: string): (t: Option<string>)
    ensures t.None? <==> forall j :: 0 <= j < |CookieRows(cookie)| ==> !StartsWith(CookieRows(cookie)[j], CsrfCookiePrefix)
    ensures t.Some? ==>
      exists i :: 0 <= i < |CookieRows(cookie)|
        && StartsWith(CookieRows(cookie)[i], CsrfCookiePrefix)
        && (forall j :: 0 <= j < i ==> !StartsWith(CookieRows(cookie)[j], CsrfCookiePrefix))
        && t.value == BeforeChar(CookieRows(cookie)[i][|CsrfCookiePrefix|..], '=')
    ensures t.Some? ==> '=' !in t.value
  {
    match FindRow(CookieRows(cookie), CsrfCookiePrefix)
    case None => None
    case Some(row) =>
      var value := row[|CsrfCookiePrefix|..];
      assert row == "csrftoken" + "=" + value;
      SplitAfterPrefix("csrftoken", '=', value);
      SplitFirstPart(value, '=');
      Some(Split(row, "=")[1])
  }

  /** Line 21: the header is attached only for a non-empty token and a method other than GET. */
  predicate AttachesCsrf(token: Option<string>, httpMethod: HttpMethod) {
    token.Some? && token.value != "" && httpMethod != Get
  }

  /** The headers the request interceptor leaves behind. */
  function HeadersAfterInterceptor(headers: map<string, string>, httpMethod: HttpMethod, cookie: string): (h: map<string, string>)
    ensures CsrfHeader in h <==> CsrfHeader in headers || AttachesCsrf(CsrfToken(cookie), httpMethod)
    ensures AttachesCsrf(CsrfToken(cookie), httpMethod) ==> h[CsrfHeader] == CsrfToken(cookie).value
    ensures !AttachesCsrf(CsrfToken(cookie), httpMethod) ==> h == headers
    ensures forall k :: k != CsrfHeader ==> (k in h <==> k in headers) && (k in h ==> h[k] == headers[k])
  {
    var token := CsrfToken(cookie);
    if AttachesCsrf(token, httpMethod) then headers[CsrfHeader := token.value] else headers
  }

  /** The request config axios hands to the interceptor, which changes its headers in place. */
  class RequestConfig {
    var httpMethod: HttpMethod
    var url: string
    var headers: map<string, string>
    var data: Option<map<string, string>>

    constructor(httpMethod: HttpMethod, url: string, headers: map<string, string>, data: Option<map<string, string>>)
      ensures this.httpMethod == httpMethod && this.url == url && this.headers == headers && this.data == data
    {
      this.httpMethod := httpMethod;
      this.url := url;
      this.headers := headers;
      this.data := data;
    }
  }

  /** Lines 14-26: set `X-CSRFToken` when the rule allows it, change nothing else, return the same config. */
  method RequestInterceptor(config: RequestConfig, cookie: string) returns (out: RequestConfig)
    modifies config
    ensures out == config
    ensures config.httpMethod == old(config.httpMethod) && config.url == old(config.url) && config.data == old(config.data)
    ensures config.headers == HeadersAfterInterceptor(old(config.headers), old(config.httpMethod), cookie)
  {
    var csrfToken := CsrfToken(cookie);
    if AttachesCsrf(csrfToken, config.httpMethod) {
      config.headers := config.headers[CsrfHeader := csrfToken.value];
    }
    out := config;
  }

  /** An HTTP response as the adapter sees it. */
  datatype HttpResponse<D> = HttpResponse(status: nat, data: D)
  /** A rejected request: with the server's error response, or without one (transport failure). */
  datatype HttpError<E> = HttpError(response: Option<HttpResponse<E>>)

  /**
   * Lines 33-44: a response passes through; an error, a 401 included, is
   * rejected as it came, and nothing else happens.
   */
  function ResponseInterceptor<D, E>(settled: Outcome<HttpResponse<D>, HttpError<E>>): (r: Outcome<HttpResponse<D>, HttpError<E>>)
    ensures r == settled
  {
    match settled
    case Ok(response) => Ok(response)
    case Err(error) =>
      if error.response.Some? && error.response.value.status == 401 then Err(error) else Err(error)
  }

  /** A cookie string of one row whose value holds an `=` yields the text before it. */
  lemma TokenCutAtEquals()
    ensures CsrfToken("csrftoken=a=b") == Some("a")
  {
    var cookie := "csrftoken=a=b";
    SplitWithoutSeparator(cookie, CookieSeparator);
    assert CookieRows(cookie) == [cookie];
    assert StartsWith(cookie, CsrfCookiePrefix);
    assert cookie[|CsrfCookiePrefix|..] == "a=b";
    assert BeforeChar("a=b", '=') == "a" by {
      assert "a=b"[1..] == "=b";
    }
  }

  /** A row `csrftoken=` gives the empty token, so no request gets the header. */
  lemma EmptyValueAddsNoHeader(headers: map<string, string>, httpMethod: HttpMethod)
    ensures HeadersAfterInterceptor(headers, httpMethod, "csrftoken=") == headers
  {
    var cookie := "csrftoken=";
    SplitWithoutSeparator(cookie, CookieSeparator);
    assert CookieRows(cookie) == [cookie];
    assert StartsWith(cookie, CsrfCookiePrefix);
    assert cookie[|CsrfCookiePrefix|..] == "";
  }
}
