# LINE Login for Express, modelled in Dafny

This project models the request-handling logic of a small Express
application that signs users in with LINE Login. The model has three parts.

- **The LINE Login controller.** It runs an OAuth 2.0 authorization-code
  flow (section 4.1 of RFC 6749) over a per-browser session record
  `{state?, nonce?, user?}`.
  - `login` stores a fresh `state` and `nonce` and redirects to LINE's
    authorize endpoint.
  - `callback` runs five steps in order: it checks the returned `state`
    (section 10.12 of RFC 6749), exchanges the code for tokens (section
    4.1.3), fetches the profile with a bearer header (section 2.1 of RFC
    6750), writes the session, and redirects.
  - `profile` renders the signed-in user. `logout` destroys the session.
- **The access guards.** `checkSession` admits a request whose session
  holds a user. `isAuthenticated` admits a request whose `token` cookie
  verifies, and attaches the decoded claims to it.
- **The security middleware.** `csrfProtection` checks the Origin and
  Referer headers of state-changing requests. `securityHeaders` and
  `contentSecurityPolicy` add fixed response headers.

## Modules

- `wrappers.dfy`, module `Wrappers`: `Option` and `Result`.
- `express.dfy`, module `Express`: what the handlers see of Express.
  - `Outcome` says how each handler call ends: `Redirect`, `Render`, `Next`
    or `NextErr`.
  - `LineProfile` is the profile record.
  - `Response` is a class holding the outgoing header map.
- `form_url_encoded.dfy`, module `FormUrlEncoded`: the
  `application/x-www-form-urlencoded` format of section 5 of the WHATWG URL
  Standard.
  - The serializer, with UTF-8 percent-encoding, is what `URLSearchParams`
    produces for the authorize query and the token request body.
  - The parser is its partner. Its round trip, `Parse(Serialize(ps)) ==
    Some(ps)`, is proved. That is how the model states which parameters a
    URL or body carries.
- `line_login.dfy`, module `LineLogin`: the controller.
  - `Session` is a class whose handler methods update its fields.
  - The calls to LINE's token and profile endpoints are function
    parameters: each maps the request the handler sends to the answer it
    gets.
  - `Callback` also returns the list of requests it sent, in order. The
    list shows which upstream calls happened.
  - The function `CallbackFlow` specifies `Callback`. It gives the
    outcome, the requests sent and the profile written to the session.
    The ordering properties are proved about it.
- `auth_guards.dfy`, module `AuthGuards`: the two guards.
  - `jwt.verify` is a function parameter.
  - `IsAuthenticated` is a module-level method that takes the `Request`
    object as a parameter and sets its `user` field.
- `security.dfy`, module `Security`: the CSRF check, as a function, and the
  two header middlewares, as module-level methods that take the `Response`
  object as a parameter and write its headers.

Values the application reads from its environment are parameters. This
covers the LINE channel settings, `JWT_SECRET` and `APP_URL`. So are the
random `state` and `nonce`, and the failures of `res.redirect` and of
`session.destroy`.

The state check uses strict equality of two possibly-undefined values. A
callback with no `state` parameter therefore passes the check when the
session holds no state either, for example when `/auth/callback` is
visited before any login. The model keeps this behaviour
(`LineLogin.StateMatches`, `Missing` against `None`). In that case the code
goes on to the token exchange with whatever `code` it was given, and signs
the session in when both upstream calls succeed. It is listed under
"## Findings", with the intended check beside it.

## Model

| member | source | states |
|---|---|---|
| FormUrlEncoded.Encode | src/controllers/authController.ts:42-49 | every character of an encoded name or value is unreserved, `+` or `%`, so none can be taken for `&` or `=` |
| FormUrlEncoded.DecodeEncode | src/controllers/authController.ts:42-49 | percent-decoding an encoded string, then reading it as UTF-8, gives the original string back |
| FormUrlEncoded.ParseSerialize | src/controllers/authController.ts:42-51 | parsing a serialized parameter list gives back exactly that list, in order, names and values included |
| FormUrlEncoded.Serialize | src/controllers/authController.ts:42-51 | `URLSearchParams.toString()`: the encoded `name=value` pairs joined by `&`; it has no contract of its own, and `ParseSerialize` above is its round-trip partner |
| LineLogin.AuthorizeUrl | src/controllers/authController.ts:41-51 | the login redirect URL: the authorize endpoint, `?` and the serialized six parameters; it has no contract of its own, and `AuthorizeUrlParams` below states what its query carries |
| LineLogin.AuthorizeUrlParams | src/controllers/authController.ts:41-51 | the query of the login redirect URL parses to exactly `response_type=code, client_id, redirect_uri, state, scope, nonce`, in that order; its `state`, `nonce` and `redirect_uri` are the ones supplied |
| LineLogin.QueryString | src/controllers/authController.ts:73 | the text `URLSearchParams` makes of `code as string`; it has no contract of its own, and `QueryStringCases` below gives its three cases |
| LineLogin.QueryStringCases | src/controllers/authController.ts:73 | an absent `code` is sent as the text `undefined`, a single one as it is, and a repeated one as its values joined by `,` |
| LineLogin.TokenRequest | src/controllers/authController.ts:69-83 | the POST to the token endpoint with the form content type; it has no contract of its own, and `TokenRequestBody` below states what its body carries |
| LineLogin.TokenRequestBody | src/controllers/authController.ts:69-83 | the token request is form-encoded; its body parses to exactly `grant_type=authorization_code, code, redirect_uri, client_id, client_secret`, in that order |
| LineLogin.ProfileRequest | src/controllers/authController.ts:88-95 | the GET to the profile endpoint with `Authorization: Bearer <access token>`; it has no contract of its own, and `CallbackRequestOrder` below states that it is the second request, carrying the token the exchange returned |
| LineLogin.StateMatches | src/controllers/authController.ts:62 | `state !== req.session.state` negated, on the query value and the stored state; it has no contract of its own, and `StateMatchesCases` below gives its three cases |
| LineLogin.StateMatchesCases | src/controllers/authController.ts:62 | an absent `state` matches exactly an absent stored state; a single value matches exactly the same stored value; a repeated `state` never matches |
| LineLogin.CallbackAcceptsMissingState | src/controllers/authController.ts:57-103 | as written, a callback with no `state` to a session that stores none is not refused: its first request is the token exchange for the query's `code`, and when both upstream calls succeed the session is signed in with the returned profile |
| LineLogin.StateMatchesStrict | src/controllers/authController.ts:62 | the corrected check: a session that stores no state refuses every callback; when a state is stored it agrees with the check as written |
| LineLogin.CallbackFlow | src/controllers/authController.ts:57-107 | the course of one callback: its outcome, the upstream requests it sends, in order, and the profile it writes; it has no contract of its own, and the four `Callback…` lemmas below state its properties |
| LineLogin.Session.constructor | src/controllers/authController.ts:23-29 | a new session has no state, no nonce and no user |
| LineLogin.Session.Login | src/controllers/authController.ts:31-55 | `state` and `nonce` become the fresh values, replacing earlier ones, and `user` is untouched; the outcome is a redirect to the authorize URL built from those values, or `next(err)` when the redirect throws, after the writes |
| LineLogin.CallbackRefusesMismatch | src/controllers/authController.ts:59-66 | the run ends with 401 "Invalid state parameter" and sends no upstream request exactly when the query's `state` differs from the stored one (strict equality, both absent counting as equal); the session is then not written |
| LineLogin.CallbackRequestOrder | src/controllers/authController.ts:69-95 | once the state matches, the token request carrying the query's `code` goes first; a second request is sent exactly when the exchange succeeds, and it is the profile request with `Bearer` and the returned access token |
| LineLogin.CallbackFailures | src/controllers/authController.ts:69-106 | a failed token exchange ends the run with its error after one request; a failed profile fetch ends it with its error; in both cases the session is not written |
| LineLogin.CallbackWritesOnlyAfterBoth | src/controllers/authController.ts:97-103 | the session is written exactly when both upstream calls succeeded, with the profile the second returned; the outcome is then the redirect to `/auth/profile`, or `next(err)` when that redirect throws |
| LineLogin.Session.Callback | src/controllers/authController.ts:57-107 | the outcome and the requests sent are those of `CallbackFlow` for the stored state; `user` becomes the profile it writes, or stays as it was when it writes none; `state` and `nonce` never change |
| LineLogin.Session.Logout | src/controllers/authController.ts:122-133 | when destroy succeeds the session is emptied and the browser goes to `/`; when it fails the error goes to `next`, with no redirect and the session as it was |
| LineLogin.ProfilePage | src/controllers/authController.ts:109-120 | renders `profile` with the session's user exactly when there is one, and redirects to `/` otherwise |
| LineLogin.StaleStateRefused | src/controllers/authController.ts:34-39 | after two logins, a callback carrying the first login's state is refused with 401; no upstream request is made and the session's user is unchanged |
| LineLogin.SignIn | src/controllers/authController.ts:31-107 | a login followed by a callback that echoes its state sends the token request and then the profile request with the returned token; when both succeed the browser goes to `/auth/profile`, which then renders the returned profile |
| AuthGuards.JwtSecret | src/middleware/auth.ts:33 | an unset or empty `JWT_SECRET` gives the fallback secret, and any other value is used as it is |
| AuthGuards.CookieToken | src/middleware/auth.ts:21-23 | a token is found exactly when there is a cookie table with a non-empty `token` cookie, and it is that cookie's value |
| AuthGuards.TokenClaims | src/middleware/auth.ts:21-46 | the claims `isAuthenticated` attaches, or none when it redirects; it has no contract of its own, and `NoTokenRedirects`, `VerifiedTokenAdmits` and `FailureReasonIrrelevant` below state its cases |
| AuthGuards.IsAuthenticated | src/middleware/auth.ts:19-50 | the outcome is `Next` or a redirect to `/auth/login`; it is `Next` exactly when the cookie token verifies, and then `req.user` holds the decoded claims; otherwise `req.user` is unchanged; the session is unchanged |
| AuthGuards.NoTokenRedirects | src/middleware/auth.ts:21-26 | with no token cookie, or an empty one, the guard redirects to login, whatever the verifier would say |
| AuthGuards.VerifiedTokenAdmits | src/middleware/auth.ts:30-43 | a token that verifies under the configured secret admits the request with exactly the decoded claims |
| AuthGuards.FailureReasonIrrelevant | src/middleware/auth.ts:35-45 | two verifiers that accept the same tokens with the same claims give the same result, whatever errors they report |
| AuthGuards.CheckSession | src/middleware/auth.ts:53-65 | `Next` exactly when the session holds a user, and a redirect to `/` otherwise; being a function, it leaves the session unchanged |
| AuthGuards.ProfileRoute | src/routes/auth.ts:14 | `checkSession` followed by `profile` renders the session's user when there is one and redirects to `/` otherwise |
| Security.Or | src/middleware/security.ts:25 | `a \|\| b` on optional strings: `a` when it is present and non-empty, `b` otherwise |
| Security.AllowedOrigins | src/middleware/security.ts:26 | the allowed list has one entry: `APP_URL` when it is set and non-empty, `http://localhost:3100` otherwise |
| Security.SomeIsPrefix | src/middleware/security.ts:30 | true exactly when some allowed entry is a prefix of the header value |
| Security.CsrfProtection | src/middleware/security.ts:23-38 | a method other than POST, PUT, DELETE or PATCH always gives `Next`; a state-changing request gives `Next` exactly when the chosen header is non-empty and some allowed origin is a prefix of it, and otherwise 403 "CSRF validation failed"; `next` runs exactly once either way |
| Security.OriginTakesPrecedence | src/middleware/security.ts:25 | with a non-empty Origin header, the Referer header does not affect the outcome |
| Security.NoHeaderRefused | src/middleware/security.ts:25-33 | a state-changing request with neither header, or only empty ones, is refused with 403 |
| Security.CsrfAcceptsExtendedOrigin | src/middleware/security.ts:30 | as written, any header that starts with the allowed origin's text is accepted, whatever follows it |
| Security.CsrfAcceptsLookalikeOrigins | src/middleware/security.ts:26-30 | as written, with `APP_URL=https://app.example` a POST with Origin `https://app.example.evil.net` is accepted; with `APP_URL` unset, so is one with Origin `http://localhost:31000` |
| Security.CsrfProtectionStrict | src/middleware/security.ts:23-38 | the corrected check: same cases as the original, but a header is accepted only when it is the allowed origin itself or continues it with a `/` |
| Security.StrictRefusesExtendedOrigin | src/middleware/security.ts:30 | the corrected check refuses the allowed origin followed by anything that does not start with `/`; it still accepts the origin itself and any URL under it |
| Security.StrictRefusesLookalikeOrigins | src/middleware/security.ts:26-30 | the corrected check refuses both of those requests with 403 |
| Security.StrictNarrowsCsrf | src/middleware/security.ts:30 | every request the corrected check accepts, the original accepts too |
| Security.WithSecurityHeaders | src/middleware/security.ts:53-64 | the six `setHeader` calls amount to overriding the earlier headers with the six fixed ones |
| Security.SecurityHeaders | src/middleware/security.ts:51-67 | the headers after the call are the six fixed ones over the earlier map, and the outcome is `Next` |
| Security.ContentSecurityPolicy | src/middleware/security.ts:42-48 | only `Content-Security-Policy` is set, to the fixed policy, and the outcome is `Next` |
| Security.SecurityHeadersEffect | src/middleware/security.ts:53-64 | each of the six headers carries its fixed value afterwards, and every other header is as it was, present or absent |
| Security.SecurityHeadersIdempotent | src/middleware/security.ts:51-66 | applying the six headers twice has the same effect as applying them once |
| Security.HeaderMiddlewaresCommute | src/middleware/security.ts:42-66 | the two header middlewares write disjoint headers, so running them in either order gives the same map |

## Left out

- The HTTP calls to LINE go through axios, with JSON decoding. They set no
  timeout, and axios has none by default, so a call that LINE never
  answers leaves the request hanging; the model has no notion of time and
  does not capture this. Each call is modelled only by the answer it gets:
  a profile or token record, or an error.
- The inside of `jsonwebtoken`: signature checking, expiry and the
  callback-to-promise wrapping. The verifier is a function parameter.
- `Math.random().toString(36).substring(7)`: `state` and `nonce` are
  parameters. The model does not capture how much entropy they have.
- Nonce verification: the code stores the nonce and never checks it against
  an ID token.
- The rate limiters, the application bootstrap, session store
  configuration, the view engine and EJS rendering. Also the reading of
  environment variables, which are parameters here.
- Exceptions thrown by `res.render`, `res.redirect` or `next` inside
  `profile`, `logout`, `checkSession` and `isAuthenticated`, and the outer
  `catch` blocks that would forward them. Only `login` and `callback` model
  a throwing redirect.
- `cookie-parser` JSON cookies and non-string cookie values. Cookies are a
  map from names to strings.
- Query parameters that Express's parser turns into nested objects. A query
  value is modelled as absent, a string, or an array of strings.
- Strings are sequences of Unicode scalar values. JavaScript strings with
  lone surrogates are not represented, and the serializer's replacement of
  them by U+FFFD is not modelled.
- FormUrlEncoded.Decode returns None on malformed UTF-8 where a browser
  would substitute U+FFFD. It serves only as the serializer's partner.
- Express.Response.SetHeader keys headers by the exact name passed. Node
  matches header names case-insensitively, so two writes to one header
  spelled differently are not merged.
- The session's expiry and its cookie are not modelled. Nor is the
  asynchronous interleaving of requests from one browser: each handler
  runs to completion before the next starts.

## Findings

| source | as written | input that shows it | evidently intended | confidence | as-written member | corrected member |
|---|---|---|---|---|---|---|
| src/middleware/security.ts:30 | `origin.startsWith(allowed)` accepts any header whose text begins with the allowed origin: other host names when the allowed origin has no port, other ports when it has one | `POST` with `Origin: https://app.example.evil.net` and `APP_URL=https://app.example`; or `POST` with `Origin: http://localhost:31000` and `APP_URL` unset; both are let through | accept only the allowed origin itself or URLs under it (the origin followed by `/`) | not executed | Security.CsrfAcceptsLookalikeOrigins | Security.CsrfProtectionStrict |
| src/controllers/authController.ts:62 | `state !== req.session.state` treats an absent query `state` and an absent stored state as equal | `GET /auth/callback?code=<attacker's code>` in a fresh session, with no `state` parameter, is not refused; the code is redeemed and, when LINE answers, the session is signed in as the code's owner | refuse a callback unless the session stores a state from a preceding login and the query carries that one value | not executed | LineLogin.CallbackAcceptsMissingState | LineLogin.StateMatchesStrict |
