/** Requests and responses of the API handlers, as records, plus the
    JavaScript value tests the handlers rely on. */
module Http {
  import opened Wrappers
  import opened Urls
  import opened Cookies

  /** A JSON value in a request or response body. `Link` is a URL that the
      handler serialises with `toString()`. */
  datatype Value = Str(s: string) | Num(n: int) | Bool(b: bool) | Link(url: Url)

  type Body = map<string, Value>

  /** Query, body or cookie fields, all read as strings. */
  type Fields = map<string, string>

  /** An inbound request. `verb` is the HTTP method; `origin` is
      `${x-forwarded-proto or http}://${host}`; `authorization` is the
      `Authorization` header. */
  datatype Request = Request(
    verb: string,
    query: Fields,
    body: Fields,
    cookies: Fields,
    authorization: Option<string>,
    origin: string)

  /** An outbound response: status, JSON body, Set-Cookie directives in
      order, and the `Location` of a redirect. */
  datatype Response = Response(
    status: int,
    body: Body,
    setCookies: seq<SetCookie>,
    location: Option<Url>)

  /** The status `res.redirect(url)` and `NextResponse.redirect` use by default. */
  const RedirectStatus := 307

  /** The single registered client, known to both the server and the BFF. */
  const ClientId := "practice-client-id"
  const ClientSecret := "practice-client-secret"

  /** JavaScript truthiness of an optional string: absent and "" are false. */
  predicate Present(o: Option<string>)
  {
    o.Some? && o.value != ""
  }

  /** JavaScript `o || d` on an optional string. */
  function Or(o: Option<string>, d: string): (r: string)
    ensures Present(o) ==> r == o.value
    ensures !Present(o) ==> r == d
  {
    if Present(o) then o.value else d
  }

  /** What `Math.random().toString(36).substring(7)` can yield: base-36
      digits, possibly none. */
  predicate IsBase36(s: string)
  {
    forall i :: 0 <= i < |s| ==> ('0' <= s[i] <= '9') || ('a' <= s[i] <= 'z')
  }

  type Nonce = s: string | IsBase36(s) witness ""

  lemma NonceHasNoSpace(s: Nonce)
    ensures ' ' !in s
  {
  }

  /** `res.status(status).json(body)`. */
  function Json(status: int, body: Body): Response
  {
    Response(status, body, [], None)
  }

  /** `{ error: msg }`. */
  function ErrorBody(msg: string): Body
  {
    map["error" := Str(msg)]
  }

  /** `{ success: true }`. */
  function SuccessBody(): Body
  {
    map["success" := Bool(true)]
  }
}
