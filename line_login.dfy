/** The LINE Login controller (src/controllers/authController.ts): an OAuth
    2.0 authorization-code flow (section 4.1 of RFC 6749) over the
    per-browser session record `{state?, nonce?, user?}`.

    The HTTP calls to LINE's token and profile endpoints are parameters of
    type `HttpRequest -> Result<..>`: what the network answers to the request
    the handler sends. The random `state` and `nonce` and a throwing
    `res.redirect` are parameters as well. */
module LineLogin {
  import opened Wrappers
  import opened Express
  import Form = FormUrlEncoded

  // ---------------------------------------------------------------------
  // Configuration and records

  /** The environment-derived configuration (src/config/line.ts); a field is
      None when its variable is unset. */
  datatype LineConfig = LineConfig(
    channelId: Option<string>,
    channelSecret: Option<string>,
    callbackUrl: Option<string>)

  const Scope: string := "profile openid"
  const AuthorizeEndpoint: string := "https://access.line.me/oauth2/v2.1/authorize"
  const TokenEndpoint: string := "https://api.line.me/oauth2/v2.1/token"
  const ProfileEndpoint: string := "https://api.line.me/v2/profile"
  const ProfilePath: string := "/auth/profile"

  /** `value || ''`: an unset configuration value becomes the empty string. */
  function OrEmpty(v: Option<string>): string {
    match v
    case None => ""
    case Some(s) => s
  }

  /** The JSON body of a successful token response (`LineTokenResponse`). */
  datatype TokenResponse = TokenResponse(
    access_token: string,
    token_type: string,
    refresh_token: string,
    expires_in: int,
    scope: string,
    id_token: Option<string>)

  /** The body handed to axios: none, or a `URLSearchParams` object, which
      axios sends form-encoded. */
  datatype Body = NoBody | FormBody(params: seq<Form.Pair>)

  /** The bytes on the wire, as text. */
  function BodyText(b: Body): string {
    match b
    case NoBody => ""
    case FormBody(params) => Form.Serialize(params)
  }

  /** An outgoing HTTP request as axios sends it. */
  datatype HttpRequest = HttpRequest(
    httpMethod: string,
    url: string,
    headers: map<string, string>,
    body: Body)

  /** One entry of `req.query` as Express's query parser yields it: absent,
      a string, or an array when the parameter is repeated. */
  datatype QueryValue = Missing | One(s: string) | Several(values: seq<string>)

  datatype CallbackQuery = CallbackQuery(code: QueryValue, state: QueryValue)

  /** The error thrown on a state mismatch. */
  const InvalidState: HttpError := HttpError("Invalid state parameter", Some(401))

  // ---------------------------------------------------------------------
  // The authorization request (section 4.1.1 of RFC 6749)

  /** The authorize query's parameters, in the order the handler lists
      them; `nonce` is the OpenID Connect Core 1.0 addition (section 3.1.2.1). */
  function AuthorizeParams(cfg: LineConfig, state: string, nonce: string): seq<Form.Pair> {
    [ ("response_type", "code"),
      ("client_id", OrEmpty(cfg.channelId)),
      ("redirect_uri", OrEmpty(cfg.callbackUrl)),
      ("state", state),
      ("scope", Scope),
      ("nonce", nonce) ]
  }

  /** The URL `login` redirects to. */
  function AuthorizeUrl(cfg: LineConfig, state: string, nonce: string): string {
    AuthorizeEndpoint + "?" + Form.Serialize(AuthorizeParams(cfg, state, nonce))
  }

  /** The query of a URL: whatever follows its first `?`. */
  function QueryOf(url: string): string {
    var i := Form.Find(url, '?');
    if i < |url| then url[i + 1..] else ""
  }

  /** The query of `base?q` is `q` when `base` holds no `?`. */
  lemma QueryOfUrl(base: string, q: string)
    requires Form.Find(base, '?') == |base|
    ensures QueryOf(base + "?" + q) == q
  {
    Form.FindAfter(base, "?" + q, '?');
    assert base + "?" + q == base + ("?" + q);
  }

  lemma AuthorizeEndpointHasNoQuery()
    ensures Form.Find(AuthorizeEndpoint, '?') == |AuthorizeEndpoint|
  {
    assert forall i :: 0 <= i < |AuthorizeEndpoint| ==> AuthorizeEndpoint[i] != '?';
  }

  /** The authorize URL carries exactly the six parameters, in order, and
      in particular exactly the `state` and `nonce` it was built from. */
  lemma AuthorizeUrlParams(cfg: LineConfig, state: string, nonce: string)
    ensures Form.Parse(QueryOf(AuthorizeUrl(cfg, state, nonce))) == Some(AuthorizeParams(cfg, state, nonce))
    ensures Form.Get(AuthorizeParams(cfg, state, nonce), "state") == Some(state)
    ensures Form.Get(AuthorizeParams(cfg, state, nonce), "nonce") == Some(nonce)
    ensures Form.Get(AuthorizeParams(cfg, state, nonce), "redirect_uri") == Some(OrEmpty(cfg.callbackUrl))
  {
    var ps := AuthorizeParams(cfg, state, nonce);
    Form.GetFirst(ps, "redirect_uri", 2);
    Form.GetFirst(ps, "state", 3);
    Form.GetFirst(ps, "nonce", 5);
    AuthorizeEndpointHasNoQuery();
    QueryOfUrl(AuthorizeEndpoint, Form.Serialize(ps));
    Form.ParseSerialize(ps);
  }

  // ---------------------------------------------------------------------
  // The token request (section 4.1.3 of RFC 6749) and the profile request

  /** The string `URLSearchParams` makes of `code as string`: an absent
      parameter becomes "undefined", a repeated one its values joined by ",". */
  function QueryString(v: QueryValue): string {
    match v
    case Missing => "undefined"
    case One(s) => s
    case Several(values) => Form.Join(values, ',')
  }

  /** `code as string` in the token request: an absent parameter is sent
      as the text "undefined", a single one as it is, and a repeated one as
      its values joined by commas. */
  lemma QueryStringCases(v: string, first: string, second: string)
    ensures QueryString(Missing) == "undefined"
    ensures QueryString(One(v)) == v
    ensures QueryString(Several([first, second])) == first + "," + second
  {
    assert [first, second][1..] == [second];
    assert Form.Join([second], ',') == second;
    assert Form.Join([first, second], ',') == first + [','] + second;
  }

  function TokenParams(cfg: LineConfig, code: string): seq<Form.Pair> {
    [ ("grant_type", "authorization_code"),
      ("code", code),
      ("redirect_uri", OrEmpty(cfg.callbackUrl)),
      ("client_id", OrEmpty(cfg.channelId)),
      ("client_secret", OrEmpty(cfg.channelSecret)) ]
  }

  /** The form-encoded POST that exchanges the code for tokens. */
  function TokenRequest(cfg: LineConfig, code: string): HttpRequest {
    HttpRequest("POST", TokenEndpoint,
                map["Content-Type" := "application/x-www-form-urlencoded"],
                FormBody(TokenParams(cfg, code)))
  }

  /** The token request's body carries exactly the five fields of section
      4.1.3 of RFC 6749 (client credentials in the body), in order. */
  lemma TokenRequestBody(cfg: LineConfig, code: string)
    ensures TokenRequest(cfg, code).headers["Content-Type"] == "application/x-www-form-urlencoded"
    ensures Form.Parse(BodyText(TokenRequest(cfg, code).body)) == Some(TokenParams(cfg, code))
    ensures Form.Get(TokenParams(cfg, code), "grant_type") == Some("authorization_code")
    ensures Form.Get(TokenParams(cfg, code), "code") == Some(code)
    ensures Form.Get(TokenParams(cfg, code), "client_secret") == Some(OrEmpty(cfg.channelSecret))
  {
    var ps := TokenParams(cfg, code);
    Form.GetFirst(ps, "grant_type", 0);
    Form.GetFirst(ps, "code", 1);
    Form.GetFirst(ps, "client_secret", 4);
    Form.ParseSerialize(ps);
  }

  /** The profile GET, authorized by a bearer header (section 2.1 of RFC 6750). */
  function ProfileRequest(accessToken: string): HttpRequest {
    HttpRequest("GET", ProfileEndpoint, map["Authorization" := "Bearer " + accessToken], NoBody)
  }

  // ---------------------------------------------------------------------
  // The session and the handlers that change it

  /** `state !== req.session.state`, negated: strict equality of two
      possibly undefined values, so an absent query parameter matches an
      absent session state and an array never matches. */
  predicate StateMatches(q: QueryValue, s: Option<string>) {
    match q
    case Missing => s == None
    case One(v) => s == Some(v)
    case Several(_) => false
  }

  /** The cases of the strict comparison: an absent parameter matches
      exactly an absent stored state, a single value matches exactly the
      same stored value, and a repeated parameter never matches. */
  lemma StateMatchesCases(v: string, values: seq<string>, stored: Option<string>)
    ensures StateMatches(Missing, stored) <==> stored == None
    ensures StateMatches(One(v), stored) <==> stored == Some(v)
    ensures !StateMatches(Several(values), stored)
  {
  }

  /** The state check as evidently intended: the query must carry exactly
      one `state`, equal to one a preceding login stored. It refuses every
      callback to a session that holds no state, and agrees with the check
      as written whenever a state is stored. */
  function StateMatchesStrict(q: QueryValue, stored: Option<string>): (ok: bool)
    ensures stored == None ==> !ok
    ensures stored.Some? ==> (ok <==> StateMatches(q, stored))
  {
    q.One? && stored == Some(q.s)
  }

  type TokenApi = HttpRequest -> Result<TokenResponse, HttpError>
  type ProfileApi = HttpRequest -> Result<LineProfile, HttpError>

  /** One run of `callback`: how it ends, the upstream requests it sent, in
      order, and the profile it stores in the session (None: no write). */
  datatype CallbackRun = CallbackRun(outcome: Outcome, sent: seq<HttpRequest>, written: Option<LineProfile>)

  /** What `callback` does, given the state stored in the session: the
      state check, then the token exchange, then the profile fetch, then
      the session write, then the redirect; the first step that fails ends
      the run with `next(err)`. */
  function CallbackFlow(cfg: LineConfig, query: CallbackQuery, storedState: Option<string>,
                        tokenEndpoint: TokenApi, profileEndpoint: ProfileApi,
                        redirectError: Option<HttpError>): CallbackRun
  {
    if !StateMatches(query.state, storedState) then CallbackRun(NextErr(InvalidState), [], None)
    else
      var tokenRequest := TokenRequest(cfg, QueryString(query.code));
      match tokenEndpoint(tokenRequest)
      case Failure(e) => CallbackRun(NextErr(e), [tokenRequest], None)
      case Success(tokens) =>
        var profileRequest := ProfileRequest(tokens.access_token);
        match profileEndpoint(profileRequest)
        case Failure(e) => CallbackRun(NextErr(e), [tokenRequest, profileRequest], None)
        case Success(profile) =>
          var o := if redirectError.Some? then NextErr(redirectError.value) else Redirect(ProfilePath);
          CallbackRun(o, [tokenRequest, profileRequest], Some(profile))
  }

  /** A state mismatch (section 10.12 of RFC 6749) ends the run with 401
      before any upstream request and without a session write. */
  lemma CallbackRefusesMismatch(cfg: LineConfig, query: CallbackQuery, storedState: Option<string>,
                                tokenEndpoint: TokenApi, profileEndpoint: ProfileApi,
                                redirectError: Option<HttpError>)
    ensures var r := CallbackFlow(cfg, query, storedState, tokenEndpoint, profileEndpoint, redirectError);
      !StateMatches(query.state, storedState) <==> r.outcome == NextErr(InvalidState) && r.sent == []
    ensures var r := CallbackFlow(cfg, query, storedState, tokenEndpoint, profileEndpoint, redirectError);
      !StateMatches(query.state, storedState) ==> r.written == None
  {
  }

  /** The upstream requests go out in order: first the token request with
      the query's `code`; the profile request only after a successful
      exchange, carrying its access token as a bearer credential; nothing
      after a failed exchange. */
  lemma CallbackRequestOrder(cfg: LineConfig, query: CallbackQuery, storedState: Option<string>,
                             tokenEndpoint: TokenApi, profileEndpoint: ProfileApi,
                             redirectError: Option<HttpError>)
    ensures var r := CallbackFlow(cfg, query, storedState, tokenEndpoint, profileEndpoint, redirectError);
      StateMatches(query.state, storedState) ==>
        1 <= |r.sent| <= 2 && r.sent[0] == TokenRequest(cfg, QueryString(query.code))
    ensures var r := CallbackFlow(cfg, query, storedState, tokenEndpoint, profileEndpoint, redirectError);
      |r.sent| >= 1 ==> (|r.sent| == 2 <==> tokenEndpoint(r.sent[0]).Success?)
    ensures var r := CallbackFlow(cfg, query, storedState, tokenEndpoint, profileEndpoint, redirectError);
      |r.sent| == 2 ==> r.sent[1] == ProfileRequest(tokenEndpoint(r.sent[0]).value.access_token)
  {
  }

  /** A failed upstream call ends the run with its error and no session
      write. */
  lemma CallbackFailures(cfg: LineConfig, query: CallbackQuery, storedState: Option<string>,
                         tokenEndpoint: TokenApi, profileEndpoint: ProfileApi,
                         redirectError: Option<HttpError>)
    ensures var r := CallbackFlow(cfg, query, storedState, tokenEndpoint, profileEndpoint, redirectError);
      |r.sent| == 1 ==> r.outcome == NextErr(tokenEndpoint(r.sent[0]).error) && r.written == None
    ensures var r := CallbackFlow(cfg, query, storedState, tokenEndpoint, profileEndpoint, redirectError);
      |r.sent| == 2 && profileEndpoint(r.sent[1]).Failure? ==>
        r.outcome == NextErr(profileEndpoint(r.sent[1]).error) && r.written == None
  {
  }

  /** The session is written exactly when both upstream calls succeed, with
      the profile the second returned; the browser then goes to the profile
      page, unless the redirect itself throws. */
  lemma CallbackWritesOnlyAfterBoth(cfg: LineConfig, query: CallbackQuery, storedState: Option<string>,
                                    tokenEndpoint: TokenApi, profileEndpoint: ProfileApi,
                                    redirectError: Option<HttpError>)
    ensures var r := CallbackFlow(cfg, query, storedState, tokenEndpoint, profileEndpoint, redirectError);
      r.written.Some? <==> |r.sent| == 2 && profileEndpoint(r.sent[1]).Success?
    ensures var r := CallbackFlow(cfg, query, storedState, tokenEndpoint, profileEndpoint, redirectError);
      r.written.Some? ==>
        tokenEndpoint(r.sent[0]).Success? && profileEndpoint(r.sent[1]) == Success(r.written.value)
        && r.outcome == (if redirectError.Some? then NextErr(redirectError.value) else Redirect(ProfilePath))
  {
  }

  /** As written, a callback without a `state` parameter passes the check
      against a session that holds no state, one in which no login was
      started, and the flow goes on to redeem whatever code the request
      carries, signing the session in when both upstream calls succeed. */
  lemma CallbackAcceptsMissingState(cfg: LineConfig, code: QueryValue,
                                    tokenEndpoint: TokenApi, profileEndpoint: ProfileApi,
                                    redirectError: Option<HttpError>)
    ensures var r := CallbackFlow(cfg, CallbackQuery(code, Missing), None, tokenEndpoint, profileEndpoint, redirectError);
      |r.sent| >= 1 && r.sent[0] == TokenRequest(cfg, QueryString(code))
    ensures var r := CallbackFlow(cfg, CallbackQuery(code, Missing), None, tokenEndpoint, profileEndpoint, redirectError);
      tokenEndpoint(r.sent[0]).Success? ==>
        |r.sent| == 2 && (profileEndpoint(r.sent[1]).Success? ==> r.written == Some(profileEndpoint(r.sent[1]).value))
  {
  }

  /** The express-session record of one browser, with the three fields the
      controller declares. */
  class Session {
    var state: Option<string>
    var nonce: Option<string>
    var user: Option<LineProfile>

    /** A fresh session, as express-session creates one for a new browser. */
    constructor ()
      ensures state == None && nonce == None && user == None
    {
      state, nonce, user := None, None, None;
    }

    /** `login`: stores the fresh `state` and `nonce`, overwriting earlier
        ones, then redirects to the authorize URL built from exactly those
        values. If the redirect throws, the error goes to `next` and the
        two writes have already happened. */
    method Login(cfg: LineConfig, newState: string, newNonce: string, redirectError: Option<HttpError>)
      returns (o: Outcome)
      modifies this
      ensures state == Some(newState) && nonce == Some(newNonce) && user == old(user)
      ensures redirectError.None? ==> o == Redirect(AuthorizeUrl(cfg, newState, newNonce))
      ensures redirectError.Some? ==> o == NextErr(redirectError.value)
    {
      state := Some(newState);
      nonce := Some(newNonce);
      if redirectError.Some? {
        o := NextErr(redirectError.value);
      } else {
        o := Redirect(AuthorizeUrl(cfg, newState, newNonce));
      }
    }

    /** `callback`: the steps of `CallbackFlow`, against the session's
        stored state, ending with the session write when both upstream
        calls succeed. `sent` lists the upstream requests issued, in order. */
    method Callback(cfg: LineConfig, query: CallbackQuery,
                    tokenEndpoint: TokenApi, profileEndpoint: ProfileApi,
                    redirectError: Option<HttpError>)
      returns (o: Outcome, sent: seq<HttpRequest>)
      modifies this
      ensures state == old(state) && nonce == old(nonce)
      ensures o == CallbackFlow(cfg, query, old(state), tokenEndpoint, profileEndpoint, redirectError).outcome
      ensures sent == CallbackFlow(cfg, query, old(state), tokenEndpoint, profileEndpoint, redirectError).sent
      ensures user == match CallbackFlow(cfg, query, old(state), tokenEndpoint, profileEndpoint, redirectError).written
                      case Some(profile) => Some(profile)
                      case None => old(user)
    {
      sent := [];
      if !StateMatches(query.state, state) {
        o := NextErr(InvalidState);
        return;
      }
      var tokenRequest := TokenRequest(cfg, QueryString(query.code));
      sent := sent + [tokenRequest];
      var tokenResponse := tokenEndpoint(tokenRequest);
      if tokenResponse.Failure? {
        o := NextErr(tokenResponse.error);
        return;
      }
      var profileRequest := ProfileRequest(tokenResponse.value.access_token);
      sent := sent + [profileRequest];
      var profileResponse := profileEndpoint(profileRequest);
      if profileResponse.Failure? {
        o := NextErr(profileResponse.error);
        return;
      }
      user := Some(profileResponse.value);
      if redirectError.Some? {
        o := NextErr(redirectError.value);
      } else {
        o := Redirect(ProfilePath);
      }
    }

    /** `logout`: destroys the session and redirects home; when the store
        fails to destroy it, the error goes to `next`, there is no redirect
        and the stored record stays as it was. */
    method Logout(destroyError: Option<HttpError>) returns (o: Outcome)
      modifies this
      ensures destroyError.Some? ==>
        o == NextErr(destroyError.value) && state == old(state) && nonce == old(nonce) && user == old(user)
      ensures destroyError.None? ==>
        o == Redirect("/") && state == None && nonce == None && user == None
    {
      match destroyError
      case Some(e) =>
        o := NextErr(e);
      case None =>
        state, nonce, user := None, None, None;
        o := Redirect("/");
    }
  }

  /** `profile`: the profile view for a signed-in session, home otherwise. */
  function ProfilePage(session: Session): (o: Outcome)
    reads session
    ensures o.Render? <==> session.user.Some?
    ensures o.Render? ==> o == Render("profile", session.user.value)
    ensures !o.Render? ==> o == Redirect("/")
  {
    match session.user
    case None => Redirect("/")
    case Some(u) => Render("profile", u)
  }

  // ---------------------------------------------------------------------
  // Sequences of requests from one browser

  /** A second login overwrites the first one's state, so a callback that
      carries the first state is refused: no upstream call, no sign-in. */
  method StaleStateRefused(session: Session, cfg: LineConfig,
                           state1: string, nonce1: string, state2: string, nonce2: string,
                           code: string,
                           tokenEndpoint: TokenApi, profileEndpoint: ProfileApi)
    returns (o: Outcome, sent: seq<HttpRequest>)
    requires state1 != state2
    modifies session
    ensures o == NextErr(InvalidState) && sent == []
    ensures session.user == old(session.user) && session.state == Some(state2)
  {
    var _ := session.Login(cfg, state1, nonce1, None);
    var _ := session.Login(cfg, state2, nonce2, None);
    var query := CallbackQuery(One(code), One(state1));
    o, sent := session.Callback(cfg, query, tokenEndpoint, profileEndpoint, None);
    CallbackRefusesMismatch(cfg, query, Some(state2), tokenEndpoint, profileEndpoint, None);
  }

  /** Login followed by a callback that echoes the login's state, with both
      upstream calls succeeding: the session holds the profile and the
      browser goes to the profile page, which then renders that profile. */
  method SignIn(session: Session, cfg: LineConfig, state: string, nonce: string, code: string,
                tokenEndpoint: TokenApi, profileEndpoint: ProfileApi)
    returns (o: Outcome, sent: seq<HttpRequest>)
    modifies session
    ensures tokenEndpoint(TokenRequest(cfg, code)).Success? ==>
      |sent| == 2 && sent[0] == TokenRequest(cfg, code)
      && sent[1] == ProfileRequest(tokenEndpoint(TokenRequest(cfg, code)).value.access_token)
    ensures |sent| == 2 && profileEndpoint(sent[1]).Success? ==>
      o == Redirect(ProfilePath)
      && session.user == Some(profileEndpoint(sent[1]).value)
      && ProfilePage(session) == Render("profile", profileEndpoint(sent[1]).value)
  {
    var _ := session.Login(cfg, state, nonce, None);
    var query := CallbackQuery(One(code), One(state));
    o, sent := session.Callback(cfg, query, tokenEndpoint, profileEndpoint, None);
    CallbackRequestOrder(cfg, query, Some(state), tokenEndpoint, profileEndpoint, None);
    CallbackWritesOnlyAfterBoth(cfg, query, Some(state), tokenEndpoint, profileEndpoint, None);
  }
}
