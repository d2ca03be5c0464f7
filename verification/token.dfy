/** `POST /api/oauth/token`: the token endpoint. Checks run in a fixed
    order (grant type, then client, then code) and the code check is a
    prefix test on the string: no store is read, no code is consumed, and
    `code_verifier` is never looked at. */
module Token {
  import opened Wrappers
  import opened Http
  import Authenticate

  const AccessPrefix := "mock_access_token_"
  const RefreshPrefix := "mock_refresh_token_"

  /** Access-token lifetime in seconds. */
  const AccessLifetime := 30

  /** The only grant the endpoint serves. */
  predicate GrantOk(f: Fields)
  {
    Find(f, "grant_type") == Some("authorization_code")
  }

  /** Client authentication: both fields equal the registered pair. */
  predicate ClientOk(f: Fields)
  {
    Find(f, "client_id") == Some(ClientId) && Find(f, "client_secret") == Some(ClientSecret)
  }

  /** The code test: present and carrying the issued-code prefix. */
  predicate CodeOk(f: Fields)
  {
    Find(f, "code").Some? && Authenticate.CodePrefix <= Find(f, "code").value
  }

  /** A token-pair body: exactly the five fields, bearer type, 30-second
      lifetime, scope read_profile, and both tokens carrying their prefixes
      and no space (so each fits in one header field). */
  predicate IsTokenPair(b: Body)
  {
    && b.Keys == {"access_token", "refresh_token", "token_type", "expires_in", "scope"}
    && b["access_token"].Str? && AccessPrefix <= b["access_token"].s && ' ' !in b["access_token"].s
    && b["refresh_token"].Str? && RefreshPrefix <= b["refresh_token"].s && ' ' !in b["refresh_token"].s
    && b["token_type"] == Str("Bearer")
    && b["expires_in"] == Num(AccessLifetime)
    && b["scope"] == Str("read_profile")
  }

  function Handler(req: Request, accessNonce: Nonce, refreshNonce: Nonce): (r: Response)
    ensures r.setCookies == [] && r.location == None
    ensures req.verb != "POST" ==> r == Json(405, ErrorBody("Method not allowed"))
    ensures req.verb == "POST" && !GrantOk(req.body) ==>
              r == Json(400, ErrorBody("unsupported_grant_type"))
    ensures req.verb == "POST" && GrantOk(req.body) && !ClientOk(req.body) ==>
              r == Json(401, ErrorBody("invalid_client"))
    ensures req.verb == "POST" && GrantOk(req.body) && ClientOk(req.body) && !CodeOk(req.body) ==>
              r == Json(400, ErrorBody("invalid_grant"))
    ensures r.status == 200 <==>
              req.verb == "POST" && GrantOk(req.body) && ClientOk(req.body) && CodeOk(req.body)
    ensures r.status == 200 ==> IsTokenPair(r.body)
  {
    var f := req.body;
    if req.verb != "POST" then Json(405, ErrorBody("Method not allowed"))
    else if !GrantOk(f) then Json(400, ErrorBody("unsupported_grant_type"))
    else if !ClientOk(f) then Json(401, ErrorBody("invalid_client"))
    else if !CodeOk(f) then Json(400, ErrorBody("invalid_grant"))
    else
      var access := AccessPrefix + accessNonce;
      var refresh := RefreshPrefix + refreshNonce;
      assert ' ' !in access && ' ' !in refresh by {
        Minted(AccessPrefix, accessNonce);
        Minted(RefreshPrefix, refreshNonce);
      }
      Json(200, map[
        "access_token" := Str(access),
        "refresh_token" := Str(refresh),
        "token_type" := Str("Bearer"),
        "expires_in" := Num(AccessLifetime),
        "scope" := Str("read_profile")])
  }

  /** A minted token, a fixed prefix followed by base-36 text, holds no space. */
  lemma Minted(prefix: string, nonce: Nonce)
    requires forall i :: 0 <= i < |prefix| ==> prefix[i] != ' '
    ensures prefix <= prefix + nonce
    ensures ' ' !in prefix + nonce
  {
    NonceHasNoSpace(nonce);
    var t := prefix + nonce;
    forall i | 0 <= i < |t|
      ensures t[i] != ' '
    {
      if i >= |prefix| {
        assert t[i] == nonce[i - |prefix|];
      }
    }
  }

  /** `code_verifier` is not among the fields read: adding, changing or
      removing it never changes the response (no PKCE check). */
  lemma VerifierIgnored(req: Request, v: string, a: Nonce, b: Nonce)
    ensures Handler(req.(body := req.body["code_verifier" := v]), a, b)
         == Handler(req.(body := req.body - {"code_verifier"}), a, b)
  {
  }

  /** The refresh grant is not served: a POST with grant_type refresh_token
      is refused as an unsupported grant whatever else it carries. */
  lemma RefreshGrantRefused(req: Request, a: Nonce, b: Nonce)
    requires req.verb == "POST" && Find(req.body, "grant_type") == Some("refresh_token")
    ensures Handler(req, a, b) == Json(400, ErrorBody("unsupported_grant_type"))
  {
  }

  /** Client errors win over code errors: bad client credentials give
      invalid_client even when the code is bad too. */
  lemma ClientCheckedBeforeCode(req: Request, a: Nonce, b: Nonce)
    requires req.verb == "POST" && GrantOk(req.body) && !ClientOk(req.body) && !CodeOk(req.body)
    ensures Handler(req, a, b).status == 401
  {
  }
}
