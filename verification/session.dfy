/** What the BFF handlers share: cookie names and lifetimes, the reply of
    the server-to-server token call, the token request they send, and the
    session cookies they build from a token response. */
module Session {
  import opened Wrappers
  import opened Urls
  import opened Cookies
  import opened Http

  const SessionCookie := "session_token"
  const RefreshCookie := "refresh_token"
  const StateCookie := "oauth_state"
  const VerifierCookie := "code_verifier"
  /** The cookie the proxy gate reads; no handler sets it. */
  const LoginFlag := "is_logged_in"

  /** Session-cookie lifetime when the token response gives none, in seconds. */
  const DefaultSessionAge := 3600
  /** Refresh-cookie lifetime: two weeks, in seconds. */
  const RefreshAge := 86400 * 14

  /** The reply of the server-to-server `fetch` to the token endpoint. */
  datatype Upstream = Upstream(status: int, body: Body)

  /** `Response.ok`. */
  predicate Ok(u: Upstream)
  {
    200 <= u.status <= 299
  }

  /** A BFF response, with the token request sent upstream (None when the
      handler stops before calling the token endpoint). */
  datatype Exchange = Exchange(response: Response, call: Option<Fields>)

  /** The CSRF check: both the state and the saved state present, and equal. */
  predicate StateOk(state: Option<string>, saved: Option<string>)
  {
    Present(state) && Present(saved) && state == saved
  }

  /** The authorization-code token request. `JSON.stringify` drops absent
      fields, so `code` and `code_verifier` appear only when given. */
  function CodeForm(code: Option<string>, verifier: Option<string>): (f: Fields)
    ensures Find(f, "grant_type") == Some("authorization_code")
    ensures Find(f, "client_id") == Some(ClientId)
    ensures Find(f, "client_secret") == Some(ClientSecret)
    ensures Find(f, "code") == code
    ensures Find(f, "code_verifier") == verifier
    ensures f.Keys <= {"grant_type", "code", "code_verifier", "client_id", "client_secret"}
  {
    var fixed := map["grant_type" := "authorization_code", "client_id" := ClientId, "client_secret" := ClientSecret];
    var withCode := if code.Some? then fixed["code" := code.value] else fixed;
    if verifier.Some? then withCode["code_verifier" := verifier.value] else withCode
  }

  /** Decimal text of a natural number. */
  function Digits(n: nat): string
    decreases n
  {
    if n < 10 then ["0123456789"[n]] else Digits(n / 10) + ["0123456789"[n % 10]]
  }

  /** `String(n)` for an integer. */
  function IntText(n: int): string
  {
    if n < 0 then "-" + Digits(-n) else Digits(n)
  }

  /** `toString()` of a URL, without percent-encoding. */
  function UrlText(u: Url): string
  {
    u.base + (if |u.params| == 0 then "" else "?" + QueryText(u.params))
  }

  function QueryText(ps: seq<Param>): string
  {
    if |ps| == 0 then ""
    else ps[0].0 + "=" + ps[0].1 + (if |ps| == 1 then "" else "&" + QueryText(ps[1..]))
  }

  /** The text `cookie.serialize` stores for a JSON field; an absent field
      becomes "undefined". */
  function TextOf(v: Option<Value>): string
  {
    match v
    case None => "undefined"
    case Some(Str(s)) => s
    case Some(Num(n)) => IntText(n)
    case Some(Bool(b)) => if b then "true" else "false"
    case Some(Link(u)) => UrlText(u)
  }

  /** JavaScript falsiness of a JSON field: absent, "", 0 or false. */
  predicate Falsy(v: Option<Value>)
  {
    v.None? || v == Some(Str("")) || v == Some(Num(0)) || v == Some(Bool(false))
  }

  /** The Max-Age `expires_in || 3600` yields: a falsy value gives 3600, any
      other number itself, `true` 1 (the serializer's numeric coercion);
      None when the serializer rejects the value (non-empty text). */
  function MaxAgeOf(v: Option<Value>): (r: Option<int>)
    ensures Falsy(v) ==> r == Some(DefaultSessionAge)
    ensures !Falsy(v) && v.value.Num? ==> r == Some(v.value.n)
    ensures v == Some(Bool(true)) ==> r == Some(1)
    ensures !Falsy(v) && v.value.Str? ==> r == None
  {
    match v
    case None => Some(DefaultSessionAge)
    case Some(Num(n)) => Some(if n == 0 then DefaultSessionAge else n)
    case Some(Bool(b)) => Some(if b then 1 else DefaultSessionAge)
    case Some(Str(s)) => if s == "" then Some(DefaultSessionAge) else None
    case Some(Link(_)) => None
  }

  /** The session cookie: http-only, SameSite=Lax, path "/", holding the
      access token and living `expires_in || 3600` seconds. */
  predicate IsAccessCookie(c: SetCookie, data: Body, production: bool)
  {
    var expiresIn := Find(data, "expires_in");
    && c.name == SessionCookie
    && c.value == TextOf(Find(data, "access_token"))
    && c.httpOnly && c.secure == production && c.path == "/" && c.sameSite == Lax
    && MaxAgeOf(expiresIn) == Some(c.maxAge)
  }

  /** The refresh cookie: http-only, SameSite=Lax, path "/", two weeks. */
  predicate IsRefreshCookie(c: SetCookie, data: Body, production: bool)
  {
    && c.name == RefreshCookie
    && c.value == TextOf(Find(data, "refresh_token"))
    && c.httpOnly && c.secure == production && c.path == "/" && c.sameSite == Lax
    && c.maxAge == RefreshAge
  }

  /** The session and refresh cookies built from a token response, or None
      when the serializer rejects `expires_in` (the handlers' 500 branch). */
  function SessionCookies(data: Body, production: bool): (r: Option<seq<SetCookie>>)
    ensures r.Some? <==> MaxAgeOf(Find(data, "expires_in")).Some?
    ensures r.Some? ==>
              |r.value| == 2 && IsAccessCookie(r.value[0], data, production) && IsRefreshCookie(r.value[1], data, production)
  {
    match MaxAgeOf(Find(data, "expires_in"))
    case None => None
    case Some(age) =>
      Some([SetCookie(SessionCookie, TextOf(Find(data, "access_token")), true, production, age, "/", Lax),
            SetCookie(RefreshCookie, TextOf(Find(data, "refresh_token")), true, production, RefreshAge, "/", Lax)])
  }

  /** The catch-all reply when building the response throws. */
  function InternalError(): Response
  {
    Json(500, ErrorBody("internal_server_error"))
  }
}
