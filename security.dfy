/** The security middleware (src/middleware/security.ts): the CSRF check on
    state-changing requests, and the two middlewares that add fixed
    response headers. */
module Security {
  import opened Wrappers
  import opened Express

  /** The request methods the CSRF check applies to; any other passes. */
  const StateChangingMethods: seq<string> := ["POST", "PUT", "DELETE", "PATCH"]

  /** The allowed origin when `APP_URL` is unset or empty. */
  const DefaultAppUrl: string := "http://localhost:3100"

  const CsrfFailed: HttpError := HttpError("CSRF validation failed", Some(403))

  /** JavaScript truthiness of an optional header or variable: present and
      not the empty string. */
  predicate Truthy(v: Option<string>) {
    v.Some? && v.value != ""
  }

  /** `a || b` on optional strings. */
  function Or(a: Option<string>, b: Option<string>): (r: Option<string>)
    ensures Truthy(a) ==> r == a
    ensures !Truthy(a) ==> r == b
  {
    if Truthy(a) then a else b
  }

  /** `[process.env.APP_URL || 'http://localhost:3100']`. */
  function AllowedOrigins(appUrlEnv: Option<string>): (allowed: seq<string>)
    ensures |allowed| == 1
    ensures Truthy(appUrlEnv) ==> allowed[0] == appUrlEnv.value
    ensures !Truthy(appUrlEnv) ==> allowed[0] == DefaultAppUrl
  {
    [Or(appUrlEnv, Some(DefaultAppUrl)).value]
  }

  /** `allowed.some(a => v.startsWith(a))`: some entry is a prefix of `v`. */
  function SomeIsPrefix(allowed: seq<string>, v: string): (r: bool)
    ensures r <==> exists i :: 0 <= i < |allowed| && allowed[i] <= v
  {
    if allowed == [] then false
    else if allowed[0] <= v then true
    else SomeIsPrefix(allowed[1..], v)
  }

  /** `csrfProtection`: a request whose method is not state-changing goes on
      untouched. A state-changing one goes on only when the Origin header,
      or failing a truthy one the Referer header, is truthy and starts with
      an allowed origin; otherwise it fails with status 403. */
  function CsrfProtection(httpMethod: string, origin: Option<string>, referer: Option<string>,
                          appUrlEnv: Option<string>): (o: Outcome)
    ensures o == Next || o == NextErr(CsrfFailed)
    ensures httpMethod !in StateChangingMethods ==> o == Next
    ensures httpMethod in StateChangingMethods ==>
      (o == Next <==> Truthy(Or(origin, referer))
                      && exists i :: 0 <= i < |AllowedOrigins(appUrlEnv)|
                                     && AllowedOrigins(appUrlEnv)[i] <= Or(origin, referer).value)
  {
    var presented := Or(origin, referer);
    var allowed := AllowedOrigins(appUrlEnv);
    if httpMethod in StateChangingMethods && (!Truthy(presented) || !SomeIsPrefix(allowed, presented.value))
    then NextErr(CsrfFailed)
    else Next
  }

  /** A truthy Origin header decides the check alone: the Referer header is
      then never looked at. */
  lemma OriginTakesPrecedence(httpMethod: string, origin: string, referer1: Option<string>,
                              referer2: Option<string>, appUrlEnv: Option<string>)
    requires origin != ""
    ensures CsrfProtection(httpMethod, Some(origin), referer1, appUrlEnv)
         == CsrfProtection(httpMethod, Some(origin), referer2, appUrlEnv)
  {
  }

  /** Without a truthy Origin or Referer header, every state-changing
      request is refused. */
  lemma NoHeaderRefused(httpMethod: string, origin: Option<string>, referer: Option<string>,
                        appUrlEnv: Option<string>)
    requires httpMethod in StateChangingMethods
    requires !Truthy(origin) && !Truthy(referer)
    ensures CsrfProtection(httpMethod, origin, referer, appUrlEnv) == NextErr(CsrfFailed)
  {
  }

  /** As written, the prefix test also admits any header that merely
      extends the allowed origin's text: another host whose name starts
      with it when the allowed origin has no port, another port whose
      digits start with it otherwise. */
  lemma CsrfAcceptsExtendedOrigin(httpMethod: string, extension: string, appUrlEnv: Option<string>)
    ensures CsrfProtection(httpMethod, Some(AllowedOrigins(appUrlEnv)[0] + extension), None, appUrlEnv) == Next
  {
    var a := AllowedOrigins(appUrlEnv)[0];
    assert a <= a + extension;
  }

  /** Concrete cases: with `APP_URL=https://app.example`, a POST from the
      different host `https://app.example.evil.net` is let through; with
      `APP_URL` unset, so is one from the other local port
      `http://localhost:31000`. */
  lemma CsrfAcceptsLookalikeOrigins()
    ensures CsrfProtection("POST", Some("https://app.example.evil.net"), None, Some("https://app.example")) == Next
    ensures CsrfProtection("POST", Some("http://localhost:31000"), None, None) == Next
  {
    CsrfAcceptsExtendedOrigin("POST", ".evil.net", Some("https://app.example"));
    assert "https://app.example" + ".evil.net" == "https://app.example.evil.net";
    CsrfAcceptsExtendedOrigin("POST", "0", None);
    assert DefaultAppUrl + "0" == "http://localhost:31000";
  }

  /** The intended match: `v` is the allowed origin itself, or continues it
      with a path (a `/` right after it, or the allowed origin already ends
      in `/`). */
  predicate SameOrigin(allowed: string, v: string) {
    allowed <= v
    && (|v| == |allowed| || v[|allowed|] == '/' || (allowed != [] && allowed[|allowed| - 1] == '/'))
  }

  /** The CSRF check with the origin boundary enforced. */
  function CsrfProtectionStrict(httpMethod: string, origin: Option<string>, referer: Option<string>,
                                appUrlEnv: Option<string>): (o: Outcome)
    ensures o == Next || o == NextErr(CsrfFailed)
    ensures httpMethod !in StateChangingMethods ==> o == Next
    ensures httpMethod in StateChangingMethods ==>
      (o == Next <==> Truthy(Or(origin, referer))
                      && SameOrigin(AllowedOrigins(appUrlEnv)[0], Or(origin, referer).value))
  {
    var presented := Or(origin, referer);
    var allowed := AllowedOrigins(appUrlEnv)[0];
    if httpMethod in StateChangingMethods && (!Truthy(presented) || !SameOrigin(allowed, presented.value))
    then NextErr(CsrfFailed)
    else Next
  }

  /** The corrected check refuses a header that extends the allowed origin
      with anything but a path, while the origin itself and any URL under
      it still pass. */
  lemma StrictRefusesExtendedOrigin(httpMethod: string, extension: string, path: string,
                                    appUrlEnv: Option<string>)
    requires httpMethod in StateChangingMethods
    requires extension != "" && extension[0] != '/'
    requires AllowedOrigins(appUrlEnv)[0][|AllowedOrigins(appUrlEnv)[0]| - 1] != '/'
    ensures CsrfProtectionStrict(httpMethod, Some(AllowedOrigins(appUrlEnv)[0] + extension), None, appUrlEnv)
         == NextErr(CsrfFailed)
    ensures CsrfProtectionStrict(httpMethod, Some(AllowedOrigins(appUrlEnv)[0]), None, appUrlEnv) == Next
    ensures CsrfProtectionStrict(httpMethod, None, Some(AllowedOrigins(appUrlEnv)[0] + "/" + path), appUrlEnv)
         == Next
  {
    var a := AllowedOrigins(appUrlEnv)[0];
    assert (a + extension)[|a|] == extension[0];
    assert a <= a + "/" + path && (a + "/" + path)[|a|] == '/';
  }

  /** The corrected check refuses both lookalike origins. */
  lemma StrictRefusesLookalikeOrigins()
    ensures CsrfProtectionStrict("POST", Some("https://app.example.evil.net"), None, Some("https://app.example"))
         == NextErr(CsrfFailed)
    ensures CsrfProtectionStrict("POST", Some("http://localhost:31000"), None, None) == NextErr(CsrfFailed)
  {
    StrictRefusesExtendedOrigin("POST", ".evil.net", "", Some("https://app.example"));
    assert "https://app.example" + ".evil.net" == "https://app.example.evil.net";
    StrictRefusesExtendedOrigin("POST", "0", "", None);
    assert DefaultAppUrl + "0" == "http://localhost:31000";
  }

  /** The correction only narrows the check: whatever it lets through, the
      check as written lets through too. */
  lemma StrictNarrowsCsrf(httpMethod: string, origin: Option<string>, referer: Option<string>,
                          appUrlEnv: Option<string>)
    ensures CsrfProtectionStrict(httpMethod, origin, referer, appUrlEnv) == Next
        ==> CsrfProtection(httpMethod, origin, referer, appUrlEnv) == Next
  {
  }

  /** The headers `securityHeaders` sets, with their values. */
  const SecurityHeaderMap: map<string, string> := map[
    "X-Content-Type-Options" := "nosniff",
    "X-Frame-Options" := "DENY",
    "Referrer-Policy" := "same-origin",
    "Cache-Control" := "no-store, no-cache, must-revalidate, proxy-revalidate",
    "Pragma" := "no-cache",
    "Expires" := "0"]

  const CspName: string := "Content-Security-Policy"
  const CspValue: string :=
    "default-src 'self'; script-src 'self' 'unsafe-inline'; style-src 'self' 'unsafe-inline'; img-src 'self' data: https://profile.line-scdn.net"

  /** The header map after the six `setHeader` calls of `securityHeaders`,
      in their order: the earlier map overridden by the six headers. */
  function WithSecurityHeaders(h: map<string, string>): (r: map<string, string>)
    ensures r == h + SecurityHeaderMap
  {
    h["X-Content-Type-Options" := "nosniff"]
     ["X-Frame-Options" := "DENY"]
     ["Referrer-Policy" := "same-origin"]
     ["Cache-Control" := "no-store, no-cache, must-revalidate, proxy-revalidate"]
     ["Pragma" := "no-cache"]
     ["Expires" := "0"]
  }

  /** `securityHeaders`: sets the six headers and passes on. */
  method SecurityHeaders(res: Response) returns (o: Outcome)
    modifies res
    ensures o == Next
    ensures res.headers == WithSecurityHeaders(old(res.headers))
  {
    res.SetHeader("X-Content-Type-Options", "nosniff");
    res.SetHeader("X-Frame-Options", "DENY");
    res.SetHeader("Referrer-Policy", "same-origin");
    res.SetHeader("Cache-Control", "no-store, no-cache, must-revalidate, proxy-revalidate");
    res.SetHeader("Pragma", "no-cache");
    res.SetHeader("Expires", "0");
    o := Next;
  }

  /** `contentSecurityPolicy`: sets the one policy header and passes on. */
  method ContentSecurityPolicy(res: Response) returns (o: Outcome)
    modifies res
    ensures o == Next
    ensures res.headers == old(res.headers)[CspName := CspValue]
  {
    res.SetHeader(CspName, CspValue);
    o := Next;
  }

  /** After `securityHeaders` each of its headers carries its fixed value,
      and every other header is as it was. */
  lemma SecurityHeadersEffect(h: map<string, string>, name: string)
    ensures name in SecurityHeaderMap ==> name in WithSecurityHeaders(h)
                                          && WithSecurityHeaders(h)[name] == SecurityHeaderMap[name]
    ensures name !in SecurityHeaderMap ==> (name in WithSecurityHeaders(h) <==> name in h)
    ensures name !in SecurityHeaderMap && name in h ==> WithSecurityHeaders(h)[name] == h[name]
  {
  }

  /** Running `securityHeaders` twice leaves the headers as running it once. */
  lemma SecurityHeadersIdempotent(h: map<string, string>)
    ensures WithSecurityHeaders(WithSecurityHeaders(h)) == WithSecurityHeaders(h)
  {
  }

  /** The two header middlewares touch different headers, so the order in
      which they run does not matter. */
  lemma HeaderMiddlewaresCommute(h: map<string, string>)
    ensures WithSecurityHeaders(h)[CspName := CspValue] == WithSecurityHeaders(h[CspName := CspValue])
  {
    assert CspName !in SecurityHeaderMap;
  }
}
