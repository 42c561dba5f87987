/** The two access guards (src/middleware/auth.ts). The session guard lets
    a request through when the session holds a signed-in user and sends it
    home otherwise; the token guard reads a bearer token from the `token`
    cookie and lets the request through, with the decoded claims attached,
    only when verification succeeds. Each call ends in exactly one
    `Outcome`, and neither guard changes the session.

    `jwt.verify` is a parameter: a function from token and secret to the
    decoded claims or one of the library's error kinds. */
module AuthGuards {
  import opened Wrappers
  import opened Express
  import opened LineLogin

  /** The decoded claims of a bearer token (`JwtUser`). */
  datatype JwtUser = JwtUser(
    userId: string,
    displayName: Option<string>,
    iat: Option<int>,
    exp: Option<int>)

  /** The ways `jwt.verify` can fail: an expired token, one not yet valid,
      or a malformed or wrongly signed one. */
  datatype VerifyError = TokenExpired | NotBefore | Invalid(message: string)

  type Verifier = (string, string) -> Result<JwtUser, VerifyError>

  const FallbackSecret: string := "fallback-secret-do-not-use-in-production"
  const LoginPath: string := "/auth/login"

  /** `process.env.JWT_SECRET || fallback`: an unset or empty variable
      gives the fallback secret. */
  function JwtSecret(env: Option<string>): (secret: string)
    ensures env.Some? && env.value != "" ==> secret == env.value
    ensures env.None? || env.value == "" ==> secret == FallbackSecret
  {
    match env
    case Some(s) => if s == "" then FallbackSecret else s
    case None => FallbackSecret
  }

  /** `req.cookies?.token`, kept only when truthy: no cookie table, no
      `token` cookie and an empty one all count as no token. */
  function CookieToken(cookies: Option<map<string, string>>): (token: Option<string>)
    ensures token.Some? <==> cookies.Some? && "token" in cookies.value && cookies.value["token"] != ""
    ensures token.Some? ==> token.value != "" && token.value == cookies.value["token"]
  {
    match cookies
    case None => None
    case Some(jar) => if "token" in jar && jar["token"] != "" then Some(jar["token"]) else None
  }

  /** The claims the token guard attaches, or None when it redirects. */
  function TokenClaims(cookies: Option<map<string, string>>, secretEnv: Option<string>, verify: Verifier)
    : Option<JwtUser>
  {
    match CookieToken(cookies)
    case None => None
    case Some(token) =>
      match verify(token, JwtSecret(secretEnv))
      case Success(claims) => Some(claims)
      case Failure(_) => None
  }

  /** The incoming request, as far as the guards see it. */
  class Request {
    const session: Session
    const cookies: Option<map<string, string>>
    var user: Option<JwtUser>

    constructor (session: Session, cookies: Option<map<string, string>>)
      ensures this.session == session && this.cookies == cookies && user == None
    {
      this.session := session;
      this.cookies := cookies;
      user := None;
    }
  }

  /** `isAuthenticated`: with a verified token, `req.user` becomes its
      claims and the request goes on; without a token, or with one that
      fails verification for any reason, the browser goes to the login
      page and `req.user` is not touched. The session is neither read nor
      written. */
  method IsAuthenticated(req: Request, secretEnv: Option<string>, verify: Verifier)
    returns (o: Outcome)
    modifies req
    ensures unchanged(req.session)
    ensures o == Next || o == Redirect(LoginPath)
    ensures o == Next <==> TokenClaims(req.cookies, secretEnv, verify).Some?
    ensures o == Next ==> req.user == TokenClaims(req.cookies, secretEnv, verify)
    ensures o != Next ==> req.user == old(req.user)
  {
    var token := CookieToken(req.cookies);
    if token.None? {
      return Redirect(LoginPath);
    }
    var verified := verify(token.value, JwtSecret(secretEnv));
    match verified
    case Success(claims) =>
      req.user := Some(claims);
      o := Next;
    case Failure(_) =>
      o := Redirect(LoginPath);
  }

  /** No usable token: the guard redirects, whatever the verifier would say. */
  lemma NoTokenRedirects(cookies: Option<map<string, string>>, secretEnv: Option<string>, verify: Verifier)
    requires cookies.None? || "token" !in cookies.value || cookies.value["token"] == ""
    ensures TokenClaims(cookies, secretEnv, verify) == None
  {
  }

  /** A token that verifies under the configured secret admits the request
      with exactly the claims the verifier decoded. */
  lemma VerifiedTokenAdmits(cookies: Option<map<string, string>>, secretEnv: Option<string>, verify: Verifier)
    requires CookieToken(cookies).Some?
    requires verify(CookieToken(cookies).value, JwtSecret(secretEnv)).Success?
    ensures TokenClaims(cookies, secretEnv, verify) == Some(verify(CookieToken(cookies).value, JwtSecret(secretEnv)).value)
  {
  }

  /** The guard's decision depends only on whether verification succeeds
      and on the claims it yields, never on why it failed: two verifiers
      that agree on the claims they accept give the same result. */
  lemma FailureReasonIrrelevant(cookies: Option<map<string, string>>, secretEnv: Option<string>,
                                verify1: Verifier, verify2: Verifier)
    requires forall t :: (verify1(t, JwtSecret(secretEnv)).Success? <==> verify2(t, JwtSecret(secretEnv)).Success?)
    requires forall t :: verify1(t, JwtSecret(secretEnv)).Success? ==>
               verify1(t, JwtSecret(secretEnv)).value == verify2(t, JwtSecret(secretEnv)).value
    ensures TokenClaims(cookies, secretEnv, verify1) == TokenClaims(cookies, secretEnv, verify2)
  {
  }

  /** `checkSession`: the request goes on exactly when the session holds a
      user, and is sent home otherwise. Being a function, it cannot change
      the session. */
  function CheckSession(session: Session): (o: Outcome)
    reads session
    ensures o == Next <==> session.user.Some?
    ensures o != Next ==> o == Redirect("/")
  {
    if session.user.Some? then Next else Redirect("/")
  }

  /** GET /auth/profile: `checkSession`, then `profile` when it lets the
      request through. The profile view is rendered exactly when the
      session holds a user, with that user, and behind the guard the
      profile handler's own redirect is never reached. */
  function ProfileRoute(session: Session): (o: Outcome)
    reads session
    ensures session.user.Some? ==> o == Render("profile", session.user.value)
    ensures session.user.None? ==> o == Redirect("/")
  {
    var guard := CheckSession(session);
    if guard == Next then ProfilePage(session) else guard
  }
}
