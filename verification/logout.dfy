/** `POST /api/auth/logout`: expires the session and refresh cookies. */
module Logout {
  import opened Wrappers
  import opened Cookies
  import opened Http
  import opened Session

  function Handler(req: Request): (r: Response)
    ensures r.location == None
    ensures req.verb != "POST" ==> r == Json(405, ErrorBody("Method not allowed"))
    ensures req.verb == "POST" ==>
              && r.status == 200
              && r.body == SuccessBody()
              && |r.setCookies| == 2
              && r.setCookies[0].name == SessionCookie
              && r.setCookies[1].name == RefreshCookie
              && (forall c :: c in r.setCookies ==> Expires(c) && c.value == "" && c.path == "/")
              && r.setCookies == [Cleared(SessionCookie), Cleared(RefreshCookie)]
  {
    if req.verb != "POST" then Json(405, ErrorBody("Method not allowed"))
    else Response(200, SuccessBody(), [Cleared(SessionCookie), Cleared(RefreshCookie)], None)
  }
}
