/** `middleware.ts`: lets public paths through and sends any other request
    without a session_token cookie to sign-in. */
module Middleware {
  import opened Http
  import opened Routes
  import opened Session

  const PublicPrefixes := ["/api/auth", "/api/oauth", "/provider", "/_next", "/favicon.ico"]

  /** `cookies` are the request's cookies; only the presence of
      session_token is read (`cookies.get` returns an object, truthy even
      for an empty value). */
  function Gate(path: string, cookies: Fields): (d: Decision)
    ensures d == Next <==> IsPublic(PublicPrefixes, path) || SessionCookie in cookies
    ensures d != Next ==> d == RedirectTo(SigninPath)
  {
    if AnyPrefix(PublicPrefixes, path) then Next
    else if SessionCookie !in cookies then RedirectTo(SigninPath)
    else Next
  }

  /** The prefix test is raw `startsWith`: "/providerX" is public, while
      "/login" and "/" are not. */
  lemma RawPrefixes()
    ensures IsPublic(PublicPrefixes, "/providerX")
    ensures !IsPublic(PublicPrefixes, "/login")
    ensures !IsPublic(PublicPrefixes, "/")
  {
    assert PublicPrefixes[2] <= "/providerX";
    assert !IsPublic(PublicPrefixes, "/login") by {
      forall i | 0 <= i < |PublicPrefixes| ensures !(PublicPrefixes[i] <= "/login") {
        assert PublicPrefixes[i][1] != "/login"[1];
      }
    }
    assert !IsPublic(PublicPrefixes, "/") by {
      forall i | 0 <= i < |PublicPrefixes| ensures !(PublicPrefixes[i] <= "/") {
        assert |PublicPrefixes[i]| > 1;
      }
    }
  }

  /** The decision depends only on the path and on whether session_token is
      present. */
  lemma PresenceOnly(path: string, c1: Fields, c2: Fields)
    requires SessionCookie in c1 <==> SessionCookie in c2
    ensures Gate(path, c1) == Gate(path, c2)
  {
  }
}
