/** The handlers composed: the BFF's server-to-server call answered by the
    token endpoint, the browser's cookie store carried from one response to
    the next request, and the whole sign-in journey. */
module Flow {
  import opened Wrappers
  import opened Urls
  import opened Cookies
  import opened Http
  import opened Store
  import opened Session
  import opened Routes
  import Authorize
  import Authenticate
  import Token
  import Register
  import SignIn
  import Callback
  import Login
  import Refresh
  import Logout
  import Profile
  import Middleware
  import Proxy

  /** The server-to-server `fetch`: a JSON POST of `form` to the token endpoint. */
  function Post(form: Fields, origin: string): Request
  {
    Request("POST", map[], form, map[], None, origin)
  }

  /** A handler's response as the BFF's `fetch` reads it. */
  function Served(r: Response): Upstream
  {
    Upstream(r.status, r.body)
  }

  /** `login` with its token call answered by the token endpoint. */
  function LoginAgainstServer(req: Request, a: Nonce, b: Nonce, production: bool): Exchange
  {
    var call := CodeForm(Find(req.body, "code"), None);
    Login.Handler(req, Served(Token.Handler(Post(call, req.origin), a, b)), production)
  }

  /** `callback` with its token call answered by the token endpoint. */
  function CallbackAgainstServer(req: Request, a: Nonce, b: Nonce, production: bool): Exchange
  {
    var call := CodeForm(Find(req.query, "code"), Find(req.cookies, VerifierCookie));
    Callback.Handler(req, Served(Token.Handler(Post(call, req.origin), a, b)), production)
  }

  /** `refresh` with its token call answered by the token endpoint. */
  function RefreshAgainstServer(req: Request, a: Nonce, b: Nonce): Exchange
  {
    var call := Refresh.RefreshForm(Find(req.cookies, RefreshCookie).GetOr(""));
    Refresh.Handler(req, Served(Token.Handler(Post(call, req.origin), a, b)))
  }

  /** The compositions above answer exactly the call the handler makes. */
  lemma AnswersTheCall(req: Request, a: Nonce, b: Nonce, production: bool)
    ensures var x := LoginAgainstServer(req, a, b, production);
            x.call.Some? ==> x == Login.Handler(req, Served(Token.Handler(Post(x.call.value, req.origin), a, b)), production)
    ensures var x := CallbackAgainstServer(req, a, b, production);
            x.call.Some? ==> x == Callback.Handler(req, Served(Token.Handler(Post(x.call.value, req.origin), a, b)), production)
    ensures var x := RefreshAgainstServer(req, a, b);
            x.call.Some? ==> x == Refresh.Handler(req, Served(Token.Handler(Post(x.call.value, req.origin), a, b)))
  {
  }

  /** The URL sign-in builds always passes the authorization endpoint's
      validation, and the login URL it leads to carries sign-in's state. */
  lemma SignInPassesAuthorize(req: Request, state: Nonce, production: bool)
    ensures var s := SignIn.Handler(req, state, production);
            var a := Authorize.Handler(req.(query := QueryOf(s.location.value.params)));
            && Authorize.Valid(QueryOf(s.location.value.params))
            && a.status == RedirectStatus
            && a.location.Some?
            && Get(a.location.value.params, "state") == Some(state)
            && Get(a.location.value.params, "client_id") == Some(ClientId)
            && "code_challenge" !in Names(a.location.value.params)
  {
    var s := SignIn.Handler(req, state, production);
    var q := QueryOf(s.location.value.params);
    assert Find(q, "redirect_uri") == Some(req.origin + "/login/callback");
    assert Find(q, "state") == Some(state);
    assert Find(q, "code_challenge") == None;
  }

  /** After a successful registration the same credentials pass the
      authentication endpoint's check, and it issues a code. */
  lemma RegisterThenAuthenticate(st: Stores, reg: Request, auth: Request, nonce: Nonce, now: int)
    requires Register.Handler(reg, st).response.status == 201
    requires auth.verb == "POST" && Present(Find(auth.body, "redirect_uri"))
    requires Find(auth.body, "username") == Find(reg.body, "username")
    requires Find(auth.body, "password") == Find(reg.body, "password")
    ensures Authenticate.Handler(auth, Register.Handler(reg, st).stores, nonce, now).response.status == 200
  {
    var st' := Register.Handler(reg, st).stores;
    assert Users(st') == st'.users.value;
  }

  /** Every access token the token endpoint mints opens the resource gate. */
  lemma MintedTokenPasses(req: Request, a: Nonce, b: Nonce, call: Request, timestamp: string)
    requires Token.Handler(req, a, b).status == 200
    ensures var t := Token.Handler(req, a, b).body["access_token"].s;
            Profile.Handler(call.(authorization := Some(Profile.Scheme + t)), timestamp).status == 200
  {
    var t := Token.Handler(req, a, b).body["access_token"].s;
    Profile.BearerTokenOf(t);
  }

  /** Silent refresh against this token endpoint can never succeed: the
      refresh grant is refused, and the BFF turns that into a 401 carrying
      the endpoint's unsupported_grant_type body. */
  lemma RefreshAlwaysRefused(req: Request, a: Nonce, b: Nonce)
    requires req.verb == "POST" && Present(Find(req.cookies, RefreshCookie))
    ensures RefreshAgainstServer(req, a, b).response == Json(401, ErrorBody("unsupported_grant_type"))
  {
    var form := Refresh.RefreshForm(req.cookies[RefreshCookie]);
    assert Find(form, "grant_type") == Some("refresh_token");
  }

  /** Codes are not single-use: a code issued by the authentication endpoint
      is redeemed any number of times, each time with a token pair, and it
      stays recorded because the token endpoint never touches the code store. */
  lemma CodeReplayAccepted(auth: Request, st: Stores, nonce: Nonce, now: int,
                           a1: Nonce, b1: Nonce, a2: Nonce, b2: Nonce, verifier: Option<string>)
    requires Authenticate.Handler(auth, st, nonce, now).response.status == 200
    ensures var o := Authenticate.Handler(auth, st, nonce, now);
            var form := CodeForm(Some(Authenticate.IssuedCode(nonce)), verifier);
            && Token.Handler(Post(form, auth.origin), a1, b1).status == 200
            && Token.Handler(Post(form, auth.origin), a2, b2).status == 200
            && Authenticate.IssuedCode(nonce) in o.stores.codes.value
  {
  }

  /** Any string with the code prefix is redeemed, whether or not the code
      store records it. */
  lemma UnissuedCodeAccepted(st: Stores, suffix: string, a: Nonce, b: Nonce, origin: string)
    requires Authenticate.CodePrefix + suffix !in Codes(st)
    ensures Token.Handler(Post(CodeForm(Some(Authenticate.CodePrefix + suffix), None), origin), a, b).status == 200
  {
  }

  /** The cookie store after sign-in holds the new state and leaves every
      other cookie as it was. */
  lemma SignInStoresState(jar: Fields, req: Request, state: Nonce, production: bool)
    ensures var cookies := Apply(jar, SignIn.Handler(req, state, production).setCookies);
            && Find(cookies, StateCookie) == Some(state)
            && forall n :: n != StateCookie ==> Find(cookies, n) == Find(jar, n)
  {
    var cs := SignIn.Handler(req, state, production).setCookies;
    forall n
      ensures Find(Apply(jar, cs), n) == (if n == StateCookie then Some(state) else Find(jar, n))
    {
      ApplyIsLastWins(jar, cs, n);
    }
  }

  /** Sign-in never sets a code_verifier cookie, so a browser that had none
      is always refused at the callback endpoint, after passing the state
      check and before any token call. */
  lemma CallbackAfterSignInRefused(jar: Fields, req: Request, state: Nonce, production: bool,
                                   cb: Request, up: Upstream)
    requires VerifierCookie !in jar
    requires state != "" && Find(cb.query, "state") == Some(state)
    requires cb.cookies == Apply(jar, SignIn.Handler(req, state, production).setCookies)
    ensures Callback.Handler(cb, up, production)
         == Exchange(Json(403, ErrorBody("Missing Code Verifier (PKCE failed)")), None)
  {
    SignInStoresState(jar, req, state, production);
    assert Find(cb.cookies, VerifierCookie) == Find(jar, VerifierCookie);
  }

  /** An empty state nonce (the random text can be empty) dooms the flow:
      the cookie holds "", which the CSRF check reads as missing. */
  lemma EmptyStateRefused(jar: Fields, req: Request, production: bool, login: Request, up: Upstream)
    requires login.verb == "POST"
    requires login.cookies == Apply(jar, SignIn.Handler(req, "", production).setCookies)
    ensures Login.Handler(login, up, production)
         == Exchange(Json(403, ErrorBody("Invalid State (CSRF check failed)")), None)
  {
    SignInStoresState(jar, req, "", production);
  }

  /** Logout removes the session and refresh cookies and nothing else;
      afterwards the middleware sends every non-public path to sign-in and
      silent refresh is refused without a token call. Doing it twice leaves
      the same store as doing it once. */
  lemma LogoutEndsSession(jar: Fields, req: Request, path: string, next: Request, up: Upstream)
    requires req.verb == "POST"
    requires !IsPublic(Middleware.PublicPrefixes, path)
    requires next.verb == "POST"
    requires next.cookies == Apply(jar, Logout.Handler(req).setCookies)
    ensures var after := Apply(jar, Logout.Handler(req).setCookies);
            && SessionCookie !in after
            && RefreshCookie !in after
            && (forall n :: n != SessionCookie && n != RefreshCookie ==> Find(after, n) == Find(jar, n))
            && Middleware.Gate(path, after) == RedirectTo(SigninPath)
            && Refresh.Handler(next, up) == Exchange(Json(401, ErrorBody("No refresh token")), None)
            && Apply(after, Logout.Handler(req).setCookies) == after
  {
    var cs := Logout.Handler(req).setCookies;
    var after := Apply(jar, cs);
    forall n
      ensures Find(after, n) == (if n == SessionCookie || n == RefreshCookie then None else Find(jar, n))
    {
      ApplyIsLastWins(jar, cs, n);
    }
    forall n
      ensures Find(Apply(after, cs), n) == Find(after, n)
    {
      ApplyIsLastWins(after, cs, n);
    }
    FindExtensional(Apply(after, cs), after);
  }

  /** The URL a response redirects to; the empty URL when there is none. */
  function Target(r: Response): Url
  {
    r.location.GetOr(Url("", []))
  }

  /** The `redirect_to` URL a response body returns; the empty URL when there
      is none. */
  function Returned(r: Response): Url
  {
    var v := Find(r.body, "redirect_to");
    if v.Some? && v.value.Link? then v.value.url else Url("", [])
  }

  /** What each step of a sign-in journey produced. */
  datatype Trace = Trace(
    afterSignIn: Fields,
    authorize: Response,
    authenticate: Outcome,
    back: Fields,
    login: Exchange,
    afterLogin: Fields)

  /** One browser's sign-in through the login page, with the default account
      and a fresh server: sign-in; the authorization endpoint with sign-in's
      query; the login page posting the forwarded parameters and the
      credentials to the authentication endpoint; the callback page posting
      code and state from redirect_to to the BFF's login, whose token call
      the token endpoint answers. The cookie store carries between steps. */
  function Journey(origin: string, jar: Fields, state: Nonce, code: Nonce, access: Nonce, refresh: Nonce,
                   now: int, production: bool): Trace
  {
    var s := SignIn.Handler(Request("GET", map[], map[], jar, None, origin), state, production);
    var jar1 := Apply(jar, s.setCookies);
    var a := Authorize.Handler(Request("GET", QueryOf(Target(s).params), map[], jar1, None, origin));
    var creds := QueryOf(Target(a).params)["username" := DefaultUsername]["password" := DefaultPassword];
    var au := Authenticate.Handler(Request("POST", map[], creds, jar1, None, origin), Stores(None, None), code, now);
    var back := QueryOf(Returned(au.response).params);
    var l := LoginAgainstServer(Request("POST", map[], back, jar1, None, origin), access, refresh, production);
    Trace(jar1, a, au, back, l, Apply(jar1, l.response.setCookies))
  }

  /** The journey's trace, step by step, as the hop lemmas name its parts. */
  lemma JourneySteps(origin: string, jar: Fields, state: Nonce, code: Nonce, access: Nonce, refresh: Nonce,
                     now: int, production: bool)
    ensures var s := SignIn.Handler(Request("GET", map[], map[], jar, None, origin), state, production);
            var jar1 := Apply(jar, s.setCookies);
            var a := Authorize.Handler(Request("GET", QueryOf(Target(s).params), map[], jar1, None, origin));
            var creds := QueryOf(Target(a).params)["username" := DefaultUsername]["password" := DefaultPassword];
            var au := Authenticate.Handler(Request("POST", map[], creds, jar1, None, origin), Stores(None, None), code, now);
            var back := QueryOf(Returned(au.response).params);
            var l := LoginAgainstServer(Request("POST", map[], back, jar1, None, origin), access, refresh, production);
            Journey(origin, jar, state, code, access, refresh, now, production)
              == Trace(jar1, a, au, back, l, Apply(jar1, l.response.setCookies))
  {
  }

  /** The journey's page visits depend on which gate is active. After
      sign-in, a browser with no session is sent back to sign-in from both
      "/login" and "/login/callback" by the middleware, so the journey loops
      there; the proxy gate lets both pages through. */
  lemma LoginPagesUnderGates(jar: Fields, req: Request, state: Nonce, production: bool)
    requires LoginFlag !in jar
    ensures var jar1 := Apply(jar, SignIn.Handler(req, state, production).setCookies);
            && Proxy.Gate("/login", jar1) == Next
            && Proxy.Gate("/login/callback", jar1) == Next
            && (SessionCookie !in jar ==>
                  && Middleware.Gate("/login", jar1) == RedirectTo(SigninPath)
                  && Middleware.Gate("/login/callback", jar1) == RedirectTo(SigninPath))
  {
    var jar1 := Apply(jar, SignIn.Handler(req, state, production).setCookies);
    SignInStoresState(jar, req, state, production);
    assert Find(jar1, LoginFlag) == Find(jar, LoginFlag);
    assert Find(jar1, SessionCookie) == Find(jar, SessionCookie);
    assert Proxy.PublicPrefixes[2] <= "/login";
    Middleware.RawPrefixes();
    assert !IsPublic(Middleware.PublicPrefixes, "/login/callback") by {
      forall i | 0 <= i < |Middleware.PublicPrefixes|
        ensures !(Middleware.PublicPrefixes[i] <= "/login/callback")
      {
        assert Middleware.PublicPrefixes[i][1] != "/login/callback"[1];
      }
    }
  }

  /** Hop one: the login URL the authorization endpoint returns for
      sign-in's URL carries sign-in's state and callback address. */
  lemma AuthorizeHop(origin: string, jar: Fields, state: Nonce, production: bool)
    ensures var s := SignIn.Handler(Request("GET", map[], map[], jar, None, origin), state, production);
            var jar1 := Apply(jar, s.setCookies);
            var a := Authorize.Handler(Request("GET", QueryOf(Target(s).params), map[], jar1, None, origin));
            && a.status == RedirectStatus
            && Get(Target(a).params, "state") == Some(state)
            && Get(Target(a).params, "redirect_uri") == Some(origin + "/login/callback")
            && Find(jar1, StateCookie) == Some(state)
            && (forall n :: n != StateCookie ==> Find(jar1, n) == Find(jar, n))
  {
    var sreq := Request("GET", map[], map[], jar, None, origin);
    var s := SignIn.Handler(sreq, state, production);
    var jar1 := Apply(jar, s.setCookies);
    SignInPassesAuthorize(sreq.(cookies := jar1), state, production);
    SignInStoresState(jar, sreq, state, production);
    var q := QueryOf(Target(s).params);
    assert Find(q, "redirect_uri") == Some(origin + "/login/callback");
  }

  /** Hop two: the login page's post of the forwarded parameters with the
      default account is accepted by a fresh server, and redirect_to carries
      the issued code and the state. */
  lemma AuthenticateHop(lp: seq<Param>, state: string, cookies: Fields, origin: string, code: Nonce, now: int)
    requires state != ""
    requires Get(lp, "state") == Some(state)
    requires Present(Get(lp, "redirect_uri"))
    ensures var creds := QueryOf(lp)["username" := DefaultUsername]["password" := DefaultPassword];
            var au := Authenticate.Handler(Request("POST", map[], creds, cookies, None, origin), Stores(None, None), code, now);
            var back := QueryOf(Returned(au.response).params);
            && au.response.status == 200
            && Find(back, "state") == Some(state)
            && Find(back, "code") == Some(Authenticate.IssuedCode(code))
            && Authenticate.CodePrefix <= Authenticate.IssuedCode(code)
  {
    var creds := QueryOf(lp)["username" := DefaultUsername]["password" := DefaultPassword];
    assert Find(creds, "redirect_uri") == Get(lp, "redirect_uri");
    assert Find(creds, "state") == Some(state);
    assert Authenticate.Accepts(Users(Stores(None, None)), Find(creds, "username"), Find(creds, "password"));
  }

  /** Hop three: the BFF's login with a matching state cookie and a prefixed
      code obtains a token pair and leaves the browser holding the access
      token as session_token, a refresh token, and no state cookie; other
      cookies are untouched. */
  lemma LoginHop(back: Fields, jar1: Fields, origin: string, state: string, access: Nonce, refresh: Nonce, production: bool)
    requires state != ""
    requires Find(back, "state") == Some(state) && Find(jar1, StateCookie) == Some(state)
    requires Find(back, "code").Some? && Authenticate.CodePrefix <= back["code"]
    ensures var l := LoginAgainstServer(Request("POST", map[], back, jar1, None, origin), access, refresh, production);
            var jar2 := Apply(jar1, l.response.setCookies);
            var token := Find(jar2, SessionCookie);
            && l.response.status == 200
            && token.Some? && Token.AccessPrefix <= token.value && ' ' !in token.value
            && RefreshCookie in jar2
            && StateCookie !in jar2
            && (forall n :: n != SessionCookie && n != RefreshCookie && n != StateCookie ==> Find(jar2, n) == Find(jar1, n))
  {
    var call := CodeForm(Find(back, "code"), None);
    var tok := Token.Handler(Post(call, origin), access, refresh);
    assert tok.status == 200;
    var l := LoginAgainstServer(Request("POST", map[], back, jar1, None, origin), access, refresh, production);
    var cs := l.response.setCookies;
    var jar2 := Apply(jar1, cs);
    assert cs[0].name == SessionCookie && cs[0].value == tok.body["access_token"].s && !Expires(cs[0]);
    assert cs[1].name == RefreshCookie && !Expires(cs[1]);
    forall n
      ensures Find(jar2, n) == Effect(jar1, cs, n)
    {
      ApplyIsLastWins(jar1, cs, n);
    }
    assert Find(jar2, SessionCookie) == Some(tok.body["access_token"].s);
  }

  /** A browser holding a minted access token as session_token and no
      is_logged_in flag passes the middleware and the resource gate, and is
      sent to sign-in by the proxy gate. */
  lemma GatesAfterLogin(jar: Fields, path: string, origin: string, timestamp: string)
    requires Find(jar, SessionCookie).Some?
    requires Token.AccessPrefix <= jar[SessionCookie] && ' ' !in jar[SessionCookie]
    requires LoginFlag !in jar
    requires !IsPublic(Middleware.PublicPrefixes, path) && !IsPublic(Proxy.PublicPrefixes, path)
    ensures Middleware.Gate(path, jar) == Next
    ensures Proxy.Gate(path, jar) == RedirectTo(SigninPath)
    ensures Profile.Handler(Request("GET", map[], map[], jar, Some(Profile.Scheme + jar[SessionCookie]), origin),
                            timestamp).status == 200
  {
    Profile.BearerTokenOf(jar[SessionCookie]);
  }

  /** The journey succeeds end to end: the state survives every hop, the
      login answers 200, the browser ends with session and refresh cookies
      and no state cookie, the middleware lets it through, the session
      cookie's token opens the resource gate, and yet the proxy gate still
      sends it to sign-in, because nothing sets is_logged_in. */
  lemma SignInToProfile(origin: string, jar: Fields, state: Nonce, code: Nonce,
                        access: Nonce, refresh: Nonce, now: int, production: bool,
                        timestamp: string, path: string)
    requires state != ""
    requires LoginFlag !in jar
    requires !IsPublic(Middleware.PublicPrefixes, path) && !IsPublic(Proxy.PublicPrefixes, path)
    ensures var t := Journey(origin, jar, state, code, access, refresh, now, production);
            var token := Find(t.afterLogin, SessionCookie).GetOr("");
            && t.authorize.status == RedirectStatus
            && t.authenticate.response.status == 200
            && Find(t.back, "state") == Some(state)
            && t.login.response.status == 200
            && SessionCookie in t.afterLogin
            && RefreshCookie in t.afterLogin
            && StateCookie !in t.afterLogin
            && LoginFlag !in t.afterLogin
            && Middleware.Gate(path, t.afterLogin) == Next
            && Proxy.Gate(path, t.afterLogin) == RedirectTo(SigninPath)
            && Profile.Handler(Request("GET", map[], map[], t.afterLogin, Some(Profile.Scheme + token), origin),
                               timestamp).status == 200
  {
    var t := Journey(origin, jar, state, code, access, refresh, now, production);
    JourneySteps(origin, jar, state, code, access, refresh, now, production);
    AuthorizeHop(origin, jar, state, production);
    assert Find(t.afterSignIn, LoginFlag) == Find(jar, LoginFlag);
    AuthenticateHop(Target(t.authorize).params, state, t.afterSignIn, origin, code, now);
    LoginHop(t.back, t.afterSignIn, origin, state, access, refresh, production);
    assert Find(t.afterLogin, LoginFlag) == Find(t.afterSignIn, LoginFlag);
    GatesAfterLogin(t.afterLogin, path, origin, timestamp);
  }
}
