/** `GET /api/resource/profile`: the resource server's bearer-token gate
    (section 2.1 of RFC 6750, with a prefix test standing in for token
    validation). */
module Profile {
  import opened Wrappers
  import opened Http
  import Text
  import Token

  const Scheme := "Bearer "

  /** `authHeader.split(' ')[1]` for a header that starts with the scheme. */
  function BearerToken(h: string): string
    requires Scheme <= h
  {
    assert h[6] == ' ';
    Text.Split(h)[1]
  }

  /** The header carries a bearer credential at all. */
  predicate HasBearer(auth: Option<string>)
  {
    Present(auth) && Scheme <= auth.value
  }

  /** `timestamp` stands for `new Date().toISOString()`. */
  function Handler(req: Request, timestamp: string): (r: Response)
    ensures r.setCookies == [] && r.location == None
    ensures r.status == 401 <==> !HasBearer(req.authorization)
    ensures r.status == 401 ==>
              r.body == map["error" := Str("Unauthorized"), "message" := Str("Bearer token is missing")]
    ensures r.status == 403 <==>
              HasBearer(req.authorization) && !(Token.AccessPrefix <= BearerToken(req.authorization.value))
    ensures r.status == 403 ==>
              r.body == map["error" := Str("Forbidden"), "message" := Str("Invalid access token")]
    ensures r.status == 200 <==>
              HasBearer(req.authorization) && Token.AccessPrefix <= BearerToken(req.authorization.value)
    ensures r.status == 200 ==> "id" in r.body && r.body["id"] == Str("user_123")
  {
    var auth := req.authorization;
    if !HasBearer(auth) then
      Json(401, map["error" := Str("Unauthorized"), "message" := Str("Bearer token is missing")])
    else if !(Token.AccessPrefix <= BearerToken(auth.value)) then
      Json(403, map["error" := Str("Forbidden"), "message" := Str("Invalid access token")])
    else
      Json(200, map["id" := Str("user_123"), "email" := Str("user@example.com"), "timestamp" := Str(timestamp)])
  }

  /** The token is the text after "Bearer " exactly when that text holds no
      space; otherwise it stops at the next space. */
  lemma BearerTokenOf(t: string)
    ensures Scheme <= Scheme + t
    ensures BearerToken(Scheme + t) == t[..Text.FirstSpace(t)]
    ensures (BearerToken(Scheme + t) == t) <==> ' ' !in t
  {
    var h := Scheme + t;
    assert Scheme <= h;
    assert h == "Bearer" + " " + t;
    Text.SecondFieldAfterScheme("Bearer", t);
    var i := Text.FirstSpace(t);
    assert BearerToken(h) == t[..i];
    assert t[..i] == t <==> i == |t|;
  }
}
