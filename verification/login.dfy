/** `POST /api/auth/login`: the variant the login callback page calls with
    code and state in a JSON body. Checks only the state cookie, sends no
    code_verifier, and answers 200 instead of redirecting. */
module Login {
  import opened Wrappers
  import opened Urls
  import opened Cookies
  import opened Http
  import opened Session

  /** `up` is the token endpoint's reply to `call`, when a call is made. */
  function Handler(req: Request, up: Upstream, production: bool): (x: Exchange)
    ensures req.verb != "POST" ==> x == Exchange(Json(405, ErrorBody("Method not allowed")), None)
    ensures req.verb == "POST" && !StateOk(Find(req.body, "state"), Find(req.cookies, StateCookie)) ==>
              x == Exchange(Json(403, ErrorBody("Invalid State (CSRF check failed)")), None)
    ensures x.call.Some? <==>
              req.verb == "POST" && StateOk(Find(req.body, "state"), Find(req.cookies, StateCookie))
    ensures x.call.Some? ==>
              && x.call.value == CodeForm(Find(req.body, "code"), None)
              && "code_verifier" !in x.call.value
    ensures x.call.Some? && !Ok(up) ==> x.response == Json(up.status, up.body)
    ensures x.call.Some? && Ok(up) && MaxAgeOf(Find(up.body, "expires_in")).None? ==> x.response == InternalError()
    ensures x.call.Some? && Ok(up) && MaxAgeOf(Find(up.body, "expires_in")).Some? ==>
              var cs := x.response.setCookies;
              && x.response.status == 200
              && x.response.body == SuccessBody()
              && x.response.location == None
              && |cs| == 3
              && IsAccessCookie(cs[0], up.body, production)
              && IsRefreshCookie(cs[1], up.body, production)
              && cs[2] == Cleared(StateCookie)
  {
    if req.verb != "POST" then Exchange(Json(405, ErrorBody("Method not allowed")), None)
    else if !StateOk(Find(req.body, "state"), Find(req.cookies, StateCookie)) then
      Exchange(Json(403, ErrorBody("Invalid State (CSRF check failed)")), None)
    else
      var call := CodeForm(Find(req.body, "code"), None);
      var response :=
        if !Ok(up) then Json(up.status, up.body)
        else match SessionCookies(up.body, production)
          case None => InternalError()
          case Some(cs) => Response(200, SuccessBody(), cs + [Cleared(StateCookie)], None);
      Exchange(response, Some(call))
  }
}
