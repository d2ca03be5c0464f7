/** `GET /api/auth/callback`: receives code and state in the query, checks
    the state and verifier cookies, exchanges the code at the token endpoint,
    sets the session cookies, clears the one-time cookies and redirects to "/". */
module Callback {
  import opened Wrappers
  import opened Urls
  import opened Cookies
  import opened Http
  import opened Session

  /** `up` is the token endpoint's reply to `call`, when a call is made. */
  function Handler(req: Request, up: Upstream, production: bool): (x: Exchange)
    ensures !StateOk(Find(req.query, "state"), Find(req.cookies, StateCookie)) ==>
              x == Exchange(Json(403, ErrorBody("Invalid State (CSRF check failed)")), None)
    ensures StateOk(Find(req.query, "state"), Find(req.cookies, StateCookie))
            && !Present(Find(req.cookies, VerifierCookie)) ==>
              x == Exchange(Json(403, ErrorBody("Missing Code Verifier (PKCE failed)")), None)
    ensures x.call.Some? <==>
              StateOk(Find(req.query, "state"), Find(req.cookies, StateCookie))
              && Present(Find(req.cookies, VerifierCookie))
    ensures x.call.Some? ==> x.call.value == CodeForm(Find(req.query, "code"), Find(req.cookies, VerifierCookie))
    ensures x.call.Some? && !Ok(up) ==> x.response == Json(up.status, up.body)
    ensures x.call.Some? && Ok(up) && MaxAgeOf(Find(up.body, "expires_in")).None? ==> x.response == InternalError()
    ensures x.call.Some? && Ok(up) && MaxAgeOf(Find(up.body, "expires_in")).Some? ==>
              var cs := x.response.setCookies;
              && x.response.status == RedirectStatus
              && x.response.location == Some(Url("/", []))
              && |cs| == 4
              && IsAccessCookie(cs[0], up.body, production)
              && IsRefreshCookie(cs[1], up.body, production)
              && cs[2] == Cleared(StateCookie)
              && cs[3] == Cleared(VerifierCookie)
  {
    var state := Find(req.query, "state");
    var verifier := Find(req.cookies, VerifierCookie);
    if !StateOk(state, Find(req.cookies, StateCookie)) then
      Exchange(Json(403, ErrorBody("Invalid State (CSRF check failed)")), None)
    else if !Present(verifier) then
      Exchange(Json(403, ErrorBody("Missing Code Verifier (PKCE failed)")), None)
    else
      var call := CodeForm(Find(req.query, "code"), verifier);
      var response :=
        if !Ok(up) then Json(up.status, up.body)
        else match SessionCookies(up.body, production)
          case None => InternalError()
          case Some(cs) =>
            Response(RedirectStatus, map[], cs + [Cleared(StateCookie), Cleared(VerifierCookie)], Some(Url("/", [])));
      Exchange(response, Some(call))
  }
}
