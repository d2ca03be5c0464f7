/** `POST /api/auth/refresh`: silent refresh. Sends the refresh-token cookie
    to the token endpoint and returns the new access token in the JSON body
    only; it never sets a cookie. */
module Refresh {
  import opened Wrappers
  import opened Http
  import opened Session

  /** The refresh-token grant request. */
  function RefreshForm(token: string): (f: Fields)
    ensures Find(f, "grant_type") == Some("refresh_token")
    ensures Find(f, "refresh_token") == Some(token)
    ensures Find(f, "client_id") == Some(ClientId)
    ensures Find(f, "client_secret") == Some(ClientSecret)
    ensures f.Keys == {"grant_type", "refresh_token", "client_id", "client_secret"}
  {
    map["grant_type" := "refresh_token", "refresh_token" := token,
        "client_id" := ClientId, "client_secret" := ClientSecret]
  }

  /** The fields of the reply passed on to the caller. */
  const Forwarded: set<string> := {"access_token", "expires_in"}

  /** `up` is the token endpoint's reply to `call`, when a call is made. */
  function Handler(req: Request, up: Upstream): (x: Exchange)
    ensures x.response.setCookies == [] && x.response.location == None
    ensures req.verb != "POST" ==> x == Exchange(Json(405, ErrorBody("Method Not Allowed")), None)
    ensures req.verb == "POST" && !Present(Find(req.cookies, RefreshCookie)) ==>
              x == Exchange(Json(401, ErrorBody("No refresh token")), None)
    ensures x.call.Some? <==> req.verb == "POST" && Present(Find(req.cookies, RefreshCookie))
    ensures x.call.Some? ==> x.call.value == RefreshForm(req.cookies[RefreshCookie])
    ensures x.call.Some? && !Ok(up) ==> x.response == Json(401, up.body)
    ensures x.call.Some? && Ok(up) ==>
              && x.response.status == 200
              && x.response.body.Keys == up.body.Keys * Forwarded
              && (forall k :: k in x.response.body ==> x.response.body[k] == up.body[k])
  {
    if req.verb != "POST" then Exchange(Json(405, ErrorBody("Method Not Allowed")), None)
    else if !Present(Find(req.cookies, RefreshCookie)) then
      Exchange(Json(401, ErrorBody("No refresh token")), None)
    else
      var call := RefreshForm(req.cookies[RefreshCookie]);
      var response :=
        if !Ok(up) then Json(401, up.body)
        else Json(200, map k | k in up.body && k in Forwarded :: up.body[k]);
      Exchange(response, Some(call))
  }
}
