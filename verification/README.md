# Mock OAuth 2.0 authorization-code flow with a Backend-For-Frontend

A Dafny model of the protocol logic of a Next.js demo. The demo implements
the authorization-code flow of section 4.1 of RFC 6749 against its own mock
authorization server, with a Backend-For-Frontend (BFF) that holds the
client secret and keeps tokens in cookies.

Each API handler is a pure function. It takes a request record and returns a
response record:

- The request holds the method, query, body and cookies as string maps, the
  `Authorization` header, and the origin built from `x-forwarded-proto` and
  `host`.
- The response holds the status, a JSON body, the `Set-Cookie` directives in
  order, and the redirect `Location`.

The handlers that touch the server's global maps (`mockUsers`,
`mockAuthCodes`) take those maps and return them updated. Three things become
parameters:

- each `Math.random()` token becomes a `Nonce`: base-36 text, possibly empty;
- `Date.now()` becomes an integer clock;
- the BFF's server-to-server `fetch` of the token endpoint becomes an
  `Upstream` reply.

A BFF handler also returns the token request it would send, or `None` when it
stops before calling upstream.

Modules follow the source files:

- `Authorize`, `Authenticate`, `Token`, `Register`: the mock authorization
  server under `pages/api/oauth/`.
- `SignIn`, `Callback`, `Login`, `Refresh`, `Logout`: the BFF under
  `pages/api/auth/`.
- `Profile`: the resource server's bearer gate (section 2.1 of RFC 6750).
- `Middleware` and `Proxy`: the two route gates.

Shared pieces:

- `Urls`: URLs as a base plus ordered parameters, with `URLSearchParams.get`
  and `set`.
- `Cookies`: Set-Cookie records, and the browser store that applies them
  (Max-Age ≤ 0 deletes, section 5.2.2 of RFC 6265).
- `Http`: request and response records, and JavaScript truthiness.
- `Store`: the two global maps, created on first use.
- `Session`: what the BFF handlers share.
- `Routes`: the gates' decision type and their prefix test.
- `Text`: `split(' ')`.
- `Flow`: composes handlers. A BFF handler is answered by the token
  endpoint, the cookie store carries from one response to the next request,
  and there is a whole sign-in journey.

## Where the intended design and the code differ

The model follows the code. Where a protocol promise does not hold in the
code, the model proves the code's behaviour:

- **Codes are not single-use.** The token endpoint never reads the code store.
  It accepts any code with the `mock_code_` prefix, any number of times,
  issued or not, expired or not (`Flow.CodeReplayAccepted`,
  `Flow.UnissuedCodeAccepted`).
- **No PKCE check.** The token endpoint never reads `code_verifier`, so
  nothing compares it with the stored challenge (`Token.VerifierIgnored`,
  section 4.6 of RFC 7636). The BFF's `callback` does demand the
  `code_verifier` cookie and forwards it (`Callback.Handler`). Sign-in sends no `code_challenge` and sets no
  `code_verifier` cookie (`SignIn.Handler`).
- **The refresh grant is refused.** So silent refresh always ends in 401
  (`Token.RefreshGrantRefused`, `Flow.RefreshAlwaysRefused`).
- **Client before code.** The token endpoint checks the client before the
  code (`Token.ClientCheckedBeforeCode`).
- **`callback` is unreachable after sign-in.** It demands a `code_verifier`
  cookie that nothing sets (`Flow.CallbackAfterSignInRefused`). The working
  path is `/login/callback` posting to `login` (`Flow.SignInToProfile`).
- **The journey needs `proxy.ts` as the gate.** Under `middleware.ts`,
  neither `/login` nor `/login/callback` is public. A browser without a
  session is sent from both back to sign-in, so the journey loops. Under
  `proxy.ts` both pages pass (`Flow.LoginPagesUnderGates`). `Flow.Journey`
  therefore plays out the page visits as `proxy.ts` allows them.
- **The two route gates read different cookies.** `middleware.ts` reads
  `session_token`. `proxy.ts` reads `is_logged_in`, which no handler sets.
  After a successful login the proxy gate still sends protected paths to
  sign-in (`Flow.SignInToProfile`).
- **The access token is stored in a cookie.** `login` and `callback` keep it
  in the http-only `session_token` cookie rather than only in memory.

## Model

| member | source | states |
|---|---|---|
| Authorize.Handler | pages/api/oauth/authorize.ts:10-45 | 400 `missing_parameters`, with no redirect and no cookie, exactly when client_id or redirect_uri is missing or response_type is not "code". Otherwise a redirect to origin + "/login". The login URL carries client_id and redirect_uri unchanged, and state (empty when absent). It carries code_challenge only when one was given, with the method defaulting to S256. response_type is never forwarded. |
| Authenticate.Handler | pages/api/oauth/authenticate.ts:10-65 | A non-POST gives 405 and a missing redirect_uri gives 400, both with the stores unchanged. 401 `Invalid credentials` exactly when the stored password is missing, empty or different. On 401 the code store is unchanged and the user map is created with user→password if absent. 200 exactly when the credentials match. Then the code store gains exactly one entry, keyed by a `mock_code_` code, holding client_id, the challenge pair and now + 60000. Other entries are untouched. redirect_to is redirect_uri with `code` set, and with `state` set only when a state was given. |
| Token.Handler | pages/api/oauth/token.ts:7-42 | A non-POST gives 405. Then grant_type ≠ authorization_code gives 400 `unsupported_grant_type`. Then a wrong client_id or secret gives 401 `invalid_client`. Then a missing or unprefixed code gives 400 `invalid_grant`. 200 exactly when all pass, with a Bearer token pair: expires_in 30, scope read_profile, and prefixed, space-free access and refresh tokens. No store is read or written. |
| Token.Minted | pages/api/oauth/token.ts:30-31 | A minted token starts with its prefix and contains no space. |
| Token.VerifierIgnored | pages/api/oauth/token.ts:12 | Adding, changing or removing code_verifier never changes the token endpoint's response. |
| Token.RefreshGrantRefused | pages/api/oauth/token.ts:15-17 | A POST with grant_type refresh_token always gets 400 `unsupported_grant_type`. |
| Token.ClientCheckedBeforeCode | pages/api/oauth/token.ts:19-27 | A bad client together with a bad code gives 401, not 400. |
| Register.Handler | pages/api/oauth/register.ts:9-36 | A non-POST gives 405, and a missing username or password gives 400, both with the stores unchanged. 409 exactly when the name is already in the user map (created with the default user if absent), and the stored password is kept. 201 exactly when the name is new. Then the map gains exactly username→password and every other entry is kept. |
| SignIn.Handler | pages/api/auth/signin.ts:12-42 | Always a redirect to origin + "/api/oauth/authorize". It carries exactly client_id practice-client-id, redirect_uri origin + "/login/callback", response_type code and state: no code_challenge. It sets one cookie: oauth_state, whose value equals the URL's state, http-only, path "/", Max-Age 300, SameSite Lax, secure only in production. |
| Callback.Handler | pages/api/auth/callback.ts:10-76 | A missing or mismatched state or oauth_state gives 403 with no upstream call. Only after that, a missing code_verifier cookie gives 403 with no upstream call. Otherwise the token request carries grant_type authorization_code, the query's code, the cookie's verifier and the fixed client credentials. An upstream failure is returned with its status and body and no cookies. On success the response redirects to "/" and sets four cookies in order: session_token (http-only, Max-Age `expires_in || 3600`: 3600 when expires_in is absent, 0, "" or false), refresh_token (http-only, 14 days), then oauth_state and code_verifier cleared with Max-Age -1. |
| Login.Handler | pages/api/auth/login.ts:8-76 | A non-POST gives 405. A missing or mismatched state or oauth_state gives 403 with no upstream call. Otherwise the token request has no code_verifier. An upstream failure is propagated with no cookies. Success gives 200 `{success:true}` with exactly three cookies: session_token (http-only, Max-Age `expires_in || 3600`: 3600 when expires_in is absent, 0, "" or false), refresh_token (14 days) and a cleared oauth_state. |
| Session.CodeForm | pages/api/auth/callback.ts:39-45 | The authorization-code token request: the fixed grant and client pair, with code and code_verifier present exactly when given. |
| Session.MaxAgeOf | pages/api/auth/callback.ts:59 | `expires_in || 3600` as the cookie serializer takes it: 3600 for every falsy expires_in (absent, 0, "" or false). Any other number is kept and true gives 1. Non-empty text is rejected. |
| Session.SessionCookies | pages/api/auth/callback.ts:56-71 | The session cookie holds the access token, is http-only, SameSite Lax and path "/", and lives `expires_in || 3600` seconds, so 3600 for an absent, 0, "" or false expires_in. The refresh cookie is the same but lives 86400 × 14. |
| Refresh.RefreshForm | pages/api/auth/refresh.ts:35-40 | The refresh request has exactly grant_type refresh_token, the cookie's token and the fixed client credentials. |
| Refresh.Handler | pages/api/auth/refresh.ts:10-57 | A non-POST gives 405. A missing refresh_token cookie gives 401 `No refresh token` with no upstream call. Any upstream failure gives 401 (not the upstream status) with the upstream body. Success gives 200 with only the access_token and expires_in fields the reply had. No cookie is ever set. |
| Logout.Handler | pages/api/auth/logout.ts:9-28 | A non-POST gives 405. A POST always gives 200 `{success:true}`, whatever cookies came in. It emits exactly two directives, session_token then refresh_token, each empty, with Max-Age -1 and path "/". |
| Cookies.Cleared | pages/api/auth/logout.ts:15-23 | A clearing directive names its cookie, expires it (Max-Age ≤ 0) and has path "/". |
| Cookies.ApplyIsLastWins | pages/api/auth/logout.ts:25 | Applying directives one by one leaves each cookie as the last directive naming it says: gone if that one expires, otherwise its value. A cookie no directive names keeps its old value. |
| Cookies.LastIsLast | pages/api/auth/logout.ts:25 | The directive the reference reading picks for a name is the last one in the list that names it. |
| Cookies.Untouched | pages/api/auth/logout.ts:25 | Cookies that no directive names keep their old value or stay absent. |
| Profile.Handler | pages/api/resource/profile.ts:9-36 | 401 exactly when the header is missing or does not start with "Bearer ". Otherwise 403 exactly when the second space-separated field lacks the `mock_access_token_` prefix. Otherwise 200 with id user_123. |
| Profile.BearerTokenOf | pages/api/resource/profile.ts:19 | The token read from "Bearer " + t is t up to its first space. So it is t itself exactly when t has no space. |
| Text.Split | pages/api/resource/profile.ts:19 | `split(' ')` yields at least one field, and at least two when there is a space. The first field ends at the first space. |
| Text.FieldsHaveNoSpace | pages/api/resource/profile.ts:19 | No field of `split(' ')` contains a space. |
| Text.FirstSpace | pages/api/resource/profile.ts:19 | The index of the first space, or the length when there is none. |
| Text.SecondFieldAfterScheme | pages/api/resource/profile.ts:19 | For scheme + " " + t with a space-free scheme, the second field is t up to its first space. So it is t exactly when t has no space. |
| Text.JoinSplit | pages/api/resource/profile.ts:19 | Gluing the fields of `split(' ')` back with single spaces gives the original text. |
| Text.SplitJoin | pages/api/resource/profile.ts:19 | Splitting space-free fields joined by single spaces gives those fields back, so every space is exactly one field boundary. |
| Routes.AnyPrefix | middleware.ts:15 | `some(startsWith)` is true exactly when some listed prefix starts the path. |
| Middleware.Gate | middleware.ts:3-29 | A request passes exactly when the path starts with /api/auth, /api/oauth, /provider, /_next or /favicon.ico, or a session_token cookie is present. Otherwise it is redirected to /api/auth/signin. |
| Middleware.RawPrefixes | middleware.ts:7-15 | The test is raw startsWith: "/providerX" is public, while "/login" and "/" are not. |
| Middleware.PresenceOnly | middleware.ts:20-22 | The decision depends only on the path and on whether session_token is present. |
| Proxy.Gate | proxy.ts:3-39 | With is_logged_in present and the path exactly "/login", redirect to "/", checked first. Otherwise public paths (/api/auth, /api/oauth, /login, /_next, /favicon.ico) pass. A non-public path without is_logged_in goes to /api/auth/signin, and one with it passes. |
| Proxy.FlagOnly | proxy.ts:9 | Only the presence of is_logged_in matters. session_token has no effect. |
| Proxy.CallbackPageNeverBounced | proxy.ts:12-29 | "/login/callback" always passes, whatever cookies are present. |
| Urls.Set | pages/api/oauth/authorize.ts:31-38 | After `searchParams.set(k, v)`, k reads v, every other name reads as before, and the name set gains k. |
| Urls.Without | pages/api/oauth/authorize.ts:31 | Dropping a name removes it and keeps every other name's value. |
| Urls.GetIsFirst | pages/api/oauth/authorize.ts:12 | A name reads the value at its first position in the list, whatever follows it. |
| Urls.SetThenQuery | pages/api/oauth/authorize.ts:31-38 | Setting a parameter on the URL sets the same entry in the query object a server reads from it. Every other entry is unchanged. |
| Flow.AnswersTheCall | pages/api/auth/callback.ts:36-46 | The composed BFF handlers answer exactly the token request the handler sends. |
| Flow.SignInPassesAuthorize | pages/api/auth/signin.ts:33-37 | The URL sign-in builds always passes authorize.ts's validation. The login URL carries sign-in's state and client_id, and no challenge. |
| Flow.RegisterThenAuthenticate | pages/api/oauth/register.ts:31 | After a 201 registration, authenticate with the same credentials (and a redirect_uri) answers 200. |
| Flow.MintedTokenPasses | pages/api/oauth/token.ts:30 | Every access token the token endpoint mints, sent as "Bearer " + token, gets 200 from the resource gate. |
| Flow.RefreshAlwaysRefused | pages/api/auth/refresh.ts:35-48 | Refresh answered by this token endpoint always ends in 401 `unsupported_grant_type`. |
| Flow.CodeReplayAccepted | pages/api/oauth/token.ts:24-27 | An issued code is redeemed twice, both times with 200, and stays in the code store. |
| Flow.UnissuedCodeAccepted | pages/api/oauth/token.ts:25 | A prefixed code that the store does not hold is still redeemed with 200. |
| Flow.SignInStoresState | pages/api/auth/signin.ts:17-23 | After sign-in the browser holds oauth_state = the state, and every other cookie is unchanged. |
| Flow.CallbackAfterSignInRefused | pages/api/auth/callback.ts:23-25 | After sign-in, a browser without a code_verifier cookie gets 403 `Missing Code Verifier` from callback, with no token call, even with the right state. |
| Flow.EmptyStateRefused | pages/api/auth/signin.ts:14 | When the random state text is empty, login always answers 403 and makes no token call. |
| Flow.LogoutEndsSession | pages/api/auth/logout.ts:15-25 | After logout, session_token and refresh_token are gone and every other cookie is unchanged. The middleware then redirects non-public paths to sign-in, and refresh gives 401 with no call. Logging out twice leaves the same store. |
| Flow.LoginPagesUnderGates | middleware.ts:7-26 | After sign-in, a browser with no session is sent back to sign-in from "/login" and "/login/callback" by the middleware. With no is_logged_in flag, the proxy gate lets both pages through. |
| Flow.AuthorizeHop | pages/api/oauth/authorize.ts:30-33 | The login URL built from sign-in's URL carries sign-in's state and callback address, and the browser holds the state cookie. |
| Flow.AuthenticateHop | pages/api/oauth/authenticate.ts:56-58 | The login page's forwarded parameters, posted with the default account, get 200. redirect_to carries the issued `mock_code_` code and the original state. |
| Flow.LoginHop | pages/api/auth/login.ts:56-75 | With a matching state and a prefixed code, login answers 200. The browser then holds the minted access token as session_token and a refresh token, and no oauth_state. Other cookies are unchanged. |
| Flow.GatesAfterLogin | proxy.ts:32-35 | With a minted session_token and no is_logged_in: the middleware passes, the resource gate gives 200, and the proxy gate redirects to sign-in. |
| Flow.SignInToProfile | pages/login/callback.tsx:10-13 | The path sign-in → authorize → login page → authenticate → callback page → login → token succeeds. The browser ends with session and refresh cookies and no state cookie. The middleware and the resource gate let it through. The proxy gate still sends it to sign-in. The page visits are played out as under the proxy gate (see Flow.LoginPagesUnderGates). |

## Left out

- UI pages (`pages/*.tsx`, `pages/login/*`, `pages/provider/*`): React rendering and navigation. Their only logic is forwarding form fields, which `Flow.Journey` plays out as requests.
- `pages/api/proxy/profile.ts` is not part of this model. It is a relay that reattaches the session cookie as a Bearer header around `fetch`.
- Network: the token endpoint's reply is an `Upstream` value. `fetch` exceptions, non-JSON replies and the `try/catch` 500 branches around them are not modelled.
- Randomness and clocks: `Math.random()` text is a `Nonce` parameter and `Date.now()` is an integer. Randomness quality and uniqueness of codes or tokens are not modelled. A repeated code overwrites its entry, as `Map.set` would.
- URL encoding: `URL` and `URLSearchParams` percent-encoding and parsing are not modelled. `new URL(redirect_uri)` becomes `Url(redirect_uri, [])`: a query already inside redirect_uri is not parsed, and an invalid URL does not throw.
- Cookie format: the `cookie.serialize` text format is not modelled, and cookies are records. `secure` is the `production` parameter (`NODE_ENV === 'production'`). The browser store is modelled for one origin and one path.
- Cookie expiry over time: the browser store never lets a positive Max-Age run out. Examples are the 300-second state cookie and the session cookie's lifetime. So `Flow.LoginHop`, `Flow.GatesAfterLogin` and `Flow.SignInToProfile` describe a browser where no time passes between steps.
- Request shapes: repeated query keys (which Next.js turns into arrays) are not modelled. `QueryOf` keeps the first value. Body fields are read as strings, and non-string JSON request fields are not modelled.
- Headers: `x-forwarded-proto` and `host` are folded into the request's `origin` string.
- Profile body: the `secret_data` text is not modelled. `timestamp` is a parameter standing for `new Date().toISOString()`.
- Gate matchers: the route gates' `config.matcher` (which paths reach the gate at all) is not modelled, only the gate functions.
- Other runtime details: console logging, and concurrent access to the global maps.
- Session.MaxAgeOf: a non-empty string `expires_in` is treated as rejected by the serializer (the 500 branch). JavaScript would coerce numeric text such as "30" to a number; the modelled token endpoint always sends a number. `true` giving Max-Age 1 follows the `maxAge - 0` coercion of the `cookie` package's 0.x line. The 1.x line rejects it through `Number.isInteger`, and the package version is not part of this model.
- Redirect status: redirects use 307, the default of Next.js `res.redirect(url)` and `NextResponse.redirect`. Gate redirects are modelled by path only.
