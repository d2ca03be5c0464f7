/** `/api/auth/signin`: starts the flow. Stores a fresh CSRF state in the
    oauth_state cookie and redirects to the authorization endpoint. */
module SignIn {
  import opened Wrappers
  import opened Urls
  import opened Cookies
  import opened Http
  import opened Session

  /** The state cookie lives five minutes. */
  const StateAge := 300

  /** `state` stands for `Math.random().toString(36).substring(7)`;
      `production` for `NODE_ENV === 'production'`. Any method is accepted. */
  function Handler(req: Request, state: Nonce, production: bool): (r: Response)
    ensures r.status == RedirectStatus && r.body == map[]
    ensures r.location.Some?
    ensures r.location.value.base == req.origin + "/api/oauth/authorize"
    ensures var ps := r.location.value.params;
              && Get(ps, "client_id") == Some(ClientId)
              && Get(ps, "redirect_uri") == Some(req.origin + "/login/callback")
              && Get(ps, "response_type") == Some("code")
              && Get(ps, "state") == Some(state)
              && Names(ps) == {"client_id", "redirect_uri", "response_type", "state"}
    ensures |r.setCookies| == 1
    ensures var c := r.setCookies[0];
              && c.name == StateCookie
              && Some(c.value) == Get(r.location.value.params, "state")
              && c.httpOnly && c.secure == production && c.path == "/" && c.maxAge == StateAge && c.sameSite == Lax
  {
    var ps0 := Set([], "client_id", ClientId);
    var ps1 := Set(ps0, "redirect_uri", req.origin + "/login/callback");
    var ps2 := Set(ps1, "response_type", "code");
    var ps := Set(ps2, "state", state);
    var cookie := SetCookie(StateCookie, state, true, production, StateAge, "/", Lax);
    Response(RedirectStatus, map[], [cookie], Some(Url(req.origin + "/api/oauth/authorize", ps)))
  }
}
