/** `GET /api/oauth/authorize`: validates the authorization request and
    hands the user to the login page, carrying the request's parameters. */
module Authorize {
  import opened Wrappers
  import opened Urls
  import opened Http

  /** The only validation: client_id and redirect_uri present, response_type
      exactly "code". */
  predicate Valid(q: Fields)
  {
    && Present(Find(q, "client_id"))
    && Present(Find(q, "redirect_uri"))
    && Find(q, "response_type") == Some("code")
  }

  /** What the login URL carries for a request with query `q`: client_id and
      redirect_uri unchanged, state (empty when absent), and the challenge
      pair only when a challenge was given, its method defaulting to S256.
      response_type is not carried. */
  predicate Forwards(q: Fields, ps: seq<Param>)
  {
    var challenge := Find(q, "code_challenge");
    && Get(ps, "client_id") == Find(q, "client_id")
    && Get(ps, "redirect_uri") == Find(q, "redirect_uri")
    && Get(ps, "state") == Some(Or(Find(q, "state"), ""))
    && (Present(challenge) ==>
          && Get(ps, "code_challenge") == challenge
          && Get(ps, "code_challenge_method") == Some(Or(Find(q, "code_challenge_method"), "S256")))
    && (!Present(challenge) ==>
          "code_challenge" !in Names(ps) && "code_challenge_method" !in Names(ps))
    && "response_type" !in Names(ps)
    && Names(ps) <= {"client_id", "redirect_uri", "state", "code_challenge", "code_challenge_method"}
  }

  function Handler(req: Request): (r: Response)
    ensures r.status == 400 <==> !Valid(req.query)
    ensures r.status == 400 ==> r == Json(400, ErrorBody("missing_parameters"))
    ensures r.status != 400 ==>
              && r.status == RedirectStatus
              && r.setCookies == []
              && r.location.Some?
              && r.location.value.base == req.origin + "/login"
              && Forwards(req.query, r.location.value.params)
  {
    var q := req.query;
    if !Valid(q) then Json(400, ErrorBody("missing_parameters"))
    else
      var ps0 := Set([], "client_id", Find(q, "client_id").value);
      var ps1 := Set(ps0, "redirect_uri", Find(q, "redirect_uri").value);
      var ps2 := Set(ps1, "state", Or(Find(q, "state"), ""));
      var ps :=
        if Present(Find(q, "code_challenge")) then
          var ps3 := Set(ps2, "code_challenge", Find(q, "code_challenge").value);
          Set(ps3, "code_challenge_method", Or(Find(q, "code_challenge_method"), "S256"))
        else ps2;
      Response(RedirectStatus, map[], [], Some(Url(req.origin + "/login", ps)))
  }
}
