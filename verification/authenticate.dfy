/** `POST /api/oauth/authenticate`: checks the credentials the login page
    collected and, when they match, records a fresh authorization code and
    returns the client's redirect URL carrying it. */
module Authenticate {
  import opened Wrappers
  import opened Urls
  import opened Http
  import opened Store

  const CodePrefix := "mock_code_"

  /** How long an issued code is recorded as valid, in milliseconds. */
  const CodeLifetime := 60000

  /** `mockUsers.get(username)`. */
  function StoredPassword(users: map<string, string>, username: Option<string>): Option<string>
  {
    if username.Some? then Find(users, username.value) else None
  }

  /** The credential check: the stored password is non-empty and equals the
      one given. */
  predicate Accepts(users: map<string, string>, username: Option<string>, password: Option<string>)
  {
    var stored := StoredPassword(users, username);
    Present(stored) && stored == password
  }

  /** `'mock_code_' + Math.random().toString(36).substring(7)`. */
  function IssuedCode(nonce: Nonce): string
  {
    CodePrefix + nonce
  }

  /** The record kept for a code issued at `now` to a request with body `b`. */
  function PendingFor(b: Fields, now: int): Pending
  {
    Pending(Find(b, "code_challenge"), Find(b, "code_challenge_method"), Find(b, "client_id"), now + CodeLifetime)
  }

  /** The redirect target carries the issued code, and the state exactly
      when one was given. */
  predicate RedirectCarries(u: Url, redirectUri: string, code: string, state: Option<string>)
  {
    && u.base == redirectUri
    && Get(u.params, "code") == Some(code)
    && Get(u.params, "state") == (if Present(state) then state else None)
    && Names(u.params) <= {"code", "state"}
  }

  function Handler(req: Request, st: Stores, nonce: Nonce, now: int): (o: Outcome)
    ensures req.verb != "POST" ==> o == Outcome(Json(405, ErrorBody("Method not allowed")), st)
    ensures req.verb == "POST" && !Present(Find(req.body, "redirect_uri")) ==>
              o == Outcome(Json(400, ErrorBody("Missing redirect_uri parameter")), st)
    ensures o.response.status == 401 <==>
              && req.verb == "POST"
              && Present(Find(req.body, "redirect_uri"))
              && !Accepts(Users(st), Find(req.body, "username"), Find(req.body, "password"))
    ensures o.response.status == 401 ==>
              && o.response == Json(401, ErrorBody("Invalid credentials"))
              && o.stores == Stores(Some(Users(st)), st.codes)
    ensures o.response.status == 200 <==>
              && req.verb == "POST"
              && Present(Find(req.body, "redirect_uri"))
              && Accepts(Users(st), Find(req.body, "username"), Find(req.body, "password"))
    ensures o.response.status == 200 ==>
              var code := IssuedCode(nonce);
              var codes := o.stores.codes.GetOr(map[]);
              && CodePrefix <= code
              && o.stores.users == Some(Users(st))
              && o.stores.codes.Some?
              && codes.Keys == Codes(st).Keys + {code}
              && codes[code] == PendingFor(req.body, now)
              && (forall c :: c in Codes(st) && c != code ==> codes[c] == Codes(st)[c])
              && o.response.setCookies == []
              && o.response.location == None
              && o.response.body.Keys == {"redirect_to"}
              && o.response.body["redirect_to"].Link?
              && RedirectCarries(o.response.body["redirect_to"].url,
                                 Find(req.body, "redirect_uri").value, code, Find(req.body, "state"))
  {
    var b := req.body;
    if req.verb != "POST" then Outcome(Json(405, ErrorBody("Method not allowed")), st)
    else if !Present(Find(b, "redirect_uri")) then
      Outcome(Json(400, ErrorBody("Missing redirect_uri parameter")), st)
    else
      var users := Users(st);
      if !Accepts(users, Find(b, "username"), Find(b, "password")) then
        Outcome(Json(401, ErrorBody("Invalid credentials")), Stores(Some(users), st.codes))
      else
        var code := IssuedCode(nonce);
        var codes := Codes(st)[code := PendingFor(b, now)];
        var withCode := Set([], "code", code);
        var ps := if Present(Find(b, "state")) then Set(withCode, "state", Find(b, "state").value) else withCode;
        var target := Url(Find(b, "redirect_uri").value, ps);
        Outcome(Json(200, map["redirect_to" := Link(target)]), Stores(Some(users), Some(codes)))
  }
}
