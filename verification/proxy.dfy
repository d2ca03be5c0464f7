/** `proxy.ts`: the route gate of the memory-only session design. Reads only
    the is_logged_in cookie, bounces a logged-in user away from "/login",
    lets public paths through, and sends the rest to sign-in when the flag
    is missing. */
module Proxy {
  import opened Http
  import opened Routes
  import opened Session

  const PublicPrefixes := ["/api/auth", "/api/oauth", "/login", "/_next", "/favicon.ico"]

  function Gate(path: string, cookies: Fields): (d: Decision)
    ensures LoginFlag in cookies && path == "/login" ==> d == RedirectTo("/")
    ensures d == RedirectTo("/") <==> LoginFlag in cookies && path == "/login"
    ensures d == RedirectTo(SigninPath) <==> !IsPublic(PublicPrefixes, path) && LoginFlag !in cookies
    ensures d == Next <==> !(LoginFlag in cookies && path == "/login") && (IsPublic(PublicPrefixes, path) || LoginFlag in cookies)
  {
    if LoginFlag in cookies && path == "/login" then RedirectTo("/")
    else if AnyPrefix(PublicPrefixes, path) then Next
    else if LoginFlag !in cookies then RedirectTo(SigninPath)
    else Next
  }

  /** Only the presence of is_logged_in is read; session_token and every
      other cookie have no effect. */
  lemma FlagOnly(path: string, c1: Fields, c2: Fields)
    requires LoginFlag in c1 <==> LoginFlag in c2
    ensures Gate(path, c1) == Gate(path, c2)
  {
  }

  /** "/login/callback" is public and never bounced to "/", since the bounce
      needs the path to be exactly "/login". */
  lemma CallbackPageNeverBounced(cookies: Fields)
    ensures Gate("/login/callback", cookies) == Next
  {
    assert PublicPrefixes[2] <= "/login/callback";
  }
}
