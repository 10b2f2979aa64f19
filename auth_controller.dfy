/** The authentication controller: the OAuth redirect, the refresh-token
    exchange and logout. Each handler decides, from what the token check and
    the authentication backend answer, which cookie it sets or clears and
    what response it sends. The backend's operations are given as functions
    of their arguments; their implementation is not part of this model. */
module Auth {
  import opened Wrappers
  import opened JsValues
  import opened JwtStrategy
  import opened GoogleStrategy

  const RefreshCookieName: string := "refresh_token"

  /** A thrown value, through the two renderings the controller uses:
      `'' + error`, and `JSON.stringify(error)`, which is None for a value
      it cannot serialise (a circular structure, a BigInt), where it throws
      in turn. */
  datatype JsError = JsError(text: string, json: Option<string>)

  /** The errors the cookie path can throw; JSON.stringify renders an
      Error object as "{}". */
  const MsEmptyError := JsError("Error: val is not a non-empty string or a valid number. val=\"\"", Some("{}"))
  const PathInvalidError := JsError("TypeError: option path is invalid", Some("{}"))
  const SameSiteInvalidError := JsError("TypeError: option sameSite is invalid", Some("{}"))

  /** LoginResponse. */
  datatype LoginResponse = LoginResponse(accessToken: string, refreshToken: string)

  /** What getRefreshTokenCookieOptions returns; maxAge is a duration text
      such as "7d". */
  datatype RefreshTokenCookieOptions = RefreshTokenCookieOptions(
    maxAge: string,
    isSecure: bool,
    sameSite: string,
    httpOnly: bool,
    path: string)

  /** The options given to `res.cookie`; maxAge is `ms(maxAge)` in
      milliseconds, None when ms cannot read the text. */
  datatype CookieOptions = CookieOptions(
    httpOnly: bool,
    secure: bool,
    sameSite: string,
    path: string,
    maxAge: Option<real>)

  datatype ResponseBody = MessageBody(message: string) | AccessTokenBody(accessToken: string)

  /** What a handler does to the Express response, in order. */
  datatype Effect =
    | SetCookie(name: string, value: string, options: CookieOptions)
    | ClearCookie(name: string, path: string)
    | Json(status: int, body: ResponseBody)
    | Redirect(url: string)

  /** A call the controller makes on the authentication backend. */
  datatype AuthCall =
    | OAuthLoginCall(oauthUser: OAuthUser, userIpAddress: Option<string>)
    | RefreshCall(jwtPayload: JwtAuthPayload, userIpAddress: Option<string>)
    | LogoutCall(user: AuthenticatedUser, isLoggedOutFromAllDevices: JsValue)

  // ---------------------------------------------------------------- res.cookie

  function LowerAscii(c: char): char {
    if 'A' <= c <= 'Z' then (c as int + 32) as char else c
  }

  /** Lower-casing; on the three attribute names below it agrees with
      `String.prototype.toLowerCase`, since no other character lowers to one
      of their letters. */
  function Lower(s: string): (r: string)
    ensures |r| == |s| && forall i :: 0 <= i < |s| ==> r[i] == LowerAscii(s[i])
    ensures (forall i :: 0 <= i < |s| ==> !('A' <= s[i] <= 'Z')) ==> r == s
  {
    if s == [] then [] else [LowerAscii(s[0])] + Lower(s[1..])
  }

  /** The cookie serialiser's sameSite check: an empty value is left out,
      otherwise it must be lax, strict or none in any case. */
  predicate SameSiteAccepted(sameSite: string) {
    sameSite == "" || Lower(sameSite) in {"lax", "strict", "none"}
  }

  /** The cookie serialiser's path check: an empty path is left out,
      otherwise every character must be printable ASCII other than ';'
      and '<'. */
  predicate PathAccepted(path: string) {
    forall i :: 0 <= i < |path| ==> ' ' <= path[i] <= '~' && path[i] != ';' && path[i] != '<'
  }

  /** `res.cookie` with these options: nothing, or the error the serialiser
      throws, path first. */
  function CookieCheck(options: CookieOptions): Outcome<JsError> {
    if !PathAccepted(options.path) then Fail(PathInvalidError)
    else if !SameSiteAccepted(options.sameSite) then Fail(SameSiteInvalidError)
    else Pass
  }

  /** The configured options under which setRefreshTokenCookie throws
      nothing: ms accepts the duration and the serialiser the path and the
      sameSite. */
  predicate CookieOptionsAccepted(options: RefreshTokenCookieOptions) {
    options.maxAge != "" && PathAccepted(options.path) && SameSiteAccepted(options.sameSite)
  }

  /** setRefreshTokenCookie: the cookie it sets, with a fixed name and every
      option from the configured ones (maxAge through ms), or what it
      throws: ms's error for an empty duration, otherwise the serialiser's. */
  function RefreshCookie(refreshToken: string, options: RefreshTokenCookieOptions, ms: string -> Option<real>): (r: Result<Effect, JsError>)
    ensures r.Success? <==> CookieOptionsAccepted(options)
    ensures r.Success? ==> r.value.SetCookie? && r.value.name == RefreshCookieName && r.value.value == refreshToken
    ensures r.Success? ==> r.value.options.httpOnly == options.httpOnly && r.value.options.secure == options.isSecure
    ensures r.Success? ==> r.value.options.sameSite == options.sameSite && r.value.options.path == options.path
    ensures r.Success? ==> r.value.options.maxAge == ms(options.maxAge)
    ensures options.maxAge == "" ==> r == Failure(MsEmptyError)
    ensures options.maxAge != "" && !PathAccepted(options.path) ==> r == Failure(PathInvalidError)
    ensures options.maxAge != "" && PathAccepted(options.path) && !SameSiteAccepted(options.sameSite)
            ==> r == Failure(SameSiteInvalidError)
  {
    if options.maxAge == "" then Failure(MsEmptyError)
    else
      var cookieOptions := CookieOptions(options.httpOnly, options.isSecure, options.sameSite, options.path, ms(options.maxAge));
      match CookieCheck(cookieOptions)
      case Fail(error) => Failure(error)
      case Pass => Success(SetCookie(RefreshCookieName, refreshToken, cookieOptions))
  }

  /** The documented settings pass, whatever the case of sameSite. */
  lemma CookieOptionsExamples()
    ensures CookieOptionsAccepted(RefreshTokenCookieOptions("30d", true, "none", true, "/auth"))
    ensures CookieOptionsAccepted(RefreshTokenCookieOptions("30d", false, "Lax", true, "/auth"))
  {
    assert Lower("none") == "none";
    assert Lower("Lax") == "lax";
  }

  /** A sameSite outside the three, a path with a ';' and an empty duration
      each give their own error. */
  lemma CookieErrorExamples(ms: string -> Option<real>)
    ensures RefreshCookie("t", RefreshTokenCookieOptions("30d", true, "bogus", true, "/auth"), ms) == Failure(SameSiteInvalidError)
    ensures RefreshCookie("t", RefreshTokenCookieOptions("30d", true, "lax", true, "/a;b"), ms) == Failure(PathInvalidError)
    ensures RefreshCookie("t", RefreshTokenCookieOptions("", true, "lax", true, "/auth"), ms) == Failure(MsEmptyError)
  {
    assert Lower("bogus") == "bogus";
    assert "/a;b"[2] == ';';
  }

  /** `!refreshToken` on the cookie: absent or empty. */
  predicate NoRefreshToken(cookie: Option<string>) {
    cookie.None? || cookie.value == ""
  }

  // ---------------------------------------------------------------- googleRedirect

  /** The catch's redirect with the error as JSON; when JSON.stringify
      throws, nothing is sent and the error leaves the handler. */
  function ErrorRedirect(frontendRedirectUrl: string, error: JsError): seq<Effect> {
    if error.json.Some? then [Redirect(frontendRedirectUrl + "?error=" + error.json.value)] else []
  }

  /** googleRedirect: the cookie and the redirect with the access token, or
      the catch's error redirect for whatever the try threw, the login's
      error or the cookie's. */
  function GoogleRedirectEffects(
    frontendRedirectUrl: string,
    login: Result<LoginResponse, JsError>,
    options: RefreshTokenCookieOptions,
    ms: string -> Option<real>): (effects: seq<Effect>)
    ensures |effects| <= 2
    ensures forall i :: 0 <= i < |effects| ==> effects[i].SetCookie? || effects[i].Redirect?
  {
    match login
    case Success(tokens) =>
      (match RefreshCookie(tokens.refreshToken, options, ms)
       case Success(cookie) =>
         [cookie, Redirect(frontendRedirectUrl + "?access_token=" + tokens.accessToken)]
       case Failure(error) => ErrorRedirect(frontendRedirectUrl, error))
    case Failure(error) => ErrorRedirect(frontendRedirectUrl, error)
  }

  /** The handler's error escapes it exactly when the login failed with an
      error JSON.stringify cannot render: the cookie's errors always render. */
  predicate GoogleRedirectEscapes(login: Result<LoginResponse, JsError>) {
    login.Failure? && login.error.json.None?
  }

  /** A successful login sets the refresh cookie and then redirects with the
      access token, unless setting the cookie throws, which redirects with
      that error; a failed login only redirects, with its error. */
  lemma GoogleRedirectOutcomes(
    frontendRedirectUrl: string,
    login: Result<LoginResponse, JsError>,
    options: RefreshTokenCookieOptions,
    ms: string -> Option<real>)
    ensures login.Success? && CookieOptionsAccepted(options) ==>
      GoogleRedirectEffects(frontendRedirectUrl, login, options, ms)
      == [RefreshCookie(login.value.refreshToken, options, ms).value,
          Redirect(frontendRedirectUrl + "?access_token=" + login.value.accessToken)]
    ensures login.Success? && !CookieOptionsAccepted(options) ==>
      GoogleRedirectEffects(frontendRedirectUrl, login, options, ms) == [Redirect(frontendRedirectUrl + "?error={}")]
    ensures login.Failure? && login.error.json.Some? ==>
      GoogleRedirectEffects(frontendRedirectUrl, login, options, ms)
      == [Redirect(frontendRedirectUrl + "?error=" + login.error.json.value)]
  {
    if login.Success? && !CookieOptionsAccepted(options) {
      var error := RefreshCookie(login.value.refreshToken, options, ms).error;
      assert error in {MsEmptyError, PathInvalidError, SameSiteInvalidError};
      assert error.json == Some("{}");
      assert frontendRedirectUrl + "?error=" + "{}" == frontendRedirectUrl + "?error={}";
    }
  }

  /** Unless the error escapes, the handler ends with exactly one redirect;
      it sets a cookie exactly when the login succeeded and the cookie
      options are accepted. */
  lemma GoogleRedirectEndsInRedirect(
    frontendRedirectUrl: string,
    login: Result<LoginResponse, JsError>,
    options: RefreshTokenCookieOptions,
    ms: string -> Option<real>)
    ensures var effects := GoogleRedirectEffects(frontendRedirectUrl, login, options, ms);
      (effects == [] <==> GoogleRedirectEscapes(login)) &&
      (effects != [] ==>
        effects[|effects| - 1].Redirect? &&
        (forall i :: 0 <= i < |effects| - 1 ==> !effects[i].Redirect?)) &&
      ((exists i :: 0 <= i < |effects| && effects[i].SetCookie?) <==> login.Success? && CookieOptionsAccepted(options))
  {
    var effects := GoogleRedirectEffects(frontendRedirectUrl, login, options, ms);
    if login.Success? && CookieOptionsAccepted(options) {
      assert effects[0].SetCookie?;
    }
  }

  // ---------------------------------------------------------------- refresh

  /** The backend calls refresh makes: handleRefreshToken only with a
      payload the token check accepted. */
  function RefreshCalls(
    cookie: Option<string>,
    userIpAddress: Option<string>,
    verify: string -> Result<JwtAuthPayload, JsError>): (calls: seq<AuthCall>)
    ensures |calls| <= 1
    ensures forall c | c in calls :: c.RefreshCall? && c.userIpAddress == userIpAddress
  {
    if NoRefreshToken(cookie) then []
    else
      match verify(cookie.value)
      case Failure(_) => []
      case Success(jwtPayload) => [RefreshCall(jwtPayload, userIpAddress)]
  }

  /** The 401 the catch sends for an error. */
  function RefreshFailed(error: JsError): Effect {
    Json(401, MessageBody("HandleRefreshToken failed, error: " + error.text))
  }

  /** refresh: 401 without a cookie; the catch's 401 for whatever the try
      threw, the token check's error, the backend's or the cookie's;
      otherwise the new cookie and 200 with the new access token. */
  function RefreshEffects(
    cookie: Option<string>,
    userIpAddress: Option<string>,
    verify: string -> Result<JwtAuthPayload, JsError>,
    refreshTokens: (JwtAuthPayload, Option<string>) -> Result<LoginResponse, JsError>,
    options: RefreshTokenCookieOptions,
    ms: string -> Option<real>): (effects: seq<Effect>)
    ensures 1 <= |effects| <= 2 && effects[|effects| - 1].Json?
  {
    if NoRefreshToken(cookie) then
      [Json(401, MessageBody("Refresh token not found"))]
    else
      match verify(cookie.value)
      case Failure(error) => [RefreshFailed(error)]
      case Success(jwtPayload) =>
        match refreshTokens(jwtPayload, userIpAddress)
        case Failure(error) => [RefreshFailed(error)]
        case Success(tokens) =>
          match RefreshCookie(tokens.refreshToken, options, ms)
          case Failure(error) => [RefreshFailed(error)]
          case Success(newCookie) => [newCookie, Json(200, AccessTokenBody(tokens.accessToken))]
  }

  /** The refresh succeeds: a non-empty cookie, a token the check accepts,
      a backend that issues new tokens and cookie options that are
      accepted. */
  predicate RefreshSucceeds(
    cookie: Option<string>,
    userIpAddress: Option<string>,
    verify: string -> Result<JwtAuthPayload, JsError>,
    refreshTokens: (JwtAuthPayload, Option<string>) -> Result<LoginResponse, JsError>,
    options: RefreshTokenCookieOptions)
  {
    !NoRefreshToken(cookie) && verify(cookie.value).Success?
    && refreshTokens(verify(cookie.value).value, userIpAddress).Success?
    && CookieOptionsAccepted(options)
  }

  /** Without a cookie: 401 "Refresh token not found", and neither the token
      check nor the backend is reached. */
  lemma RefreshWithoutCookie(
    cookie: Option<string>,
    userIpAddress: Option<string>,
    verify: string -> Result<JwtAuthPayload, JsError>,
    refreshTokens: (JwtAuthPayload, Option<string>) -> Result<LoginResponse, JsError>,
    options: RefreshTokenCookieOptions,
    ms: string -> Option<real>)
    requires NoRefreshToken(cookie)
    ensures RefreshEffects(cookie, userIpAddress, verify, refreshTokens, options, ms)
            == [Json(401, MessageBody("Refresh token not found"))]
    ensures RefreshCalls(cookie, userIpAddress, verify) == []
  {
  }

  /** Verify before forward: the backend is called exactly when the cookie is
      there and the check accepts it, and then with the checked payload. */
  lemma RefreshForwardsOnlyVerified(
    cookie: Option<string>,
    userIpAddress: Option<string>,
    verify: string -> Result<JwtAuthPayload, JsError>)
    ensures RefreshCalls(cookie, userIpAddress, verify) != []
            <==> !NoRefreshToken(cookie) && verify(cookie.value).Success?
    ensures RefreshCalls(cookie, userIpAddress, verify) != [] ==>
      RefreshCalls(cookie, userIpAddress, verify) == [RefreshCall(verify(cookie.value).value, userIpAddress)]
  {
  }

  /** A rejected token: 401 carrying the error text, and no backend call. */
  lemma RefreshRejectedToken(
    cookie: Option<string>,
    userIpAddress: Option<string>,
    verify: string -> Result<JwtAuthPayload, JsError>,
    refreshTokens: (JwtAuthPayload, Option<string>) -> Result<LoginResponse, JsError>,
    options: RefreshTokenCookieOptions,
    ms: string -> Option<real>)
    requires !NoRefreshToken(cookie) && verify(cookie.value).Failure?
    ensures RefreshEffects(cookie, userIpAddress, verify, refreshTokens, options, ms)
            == [Json(401, MessageBody("HandleRefreshToken failed, error: " + verify(cookie.value).error.text))]
    ensures RefreshCalls(cookie, userIpAddress, verify) == []
  {
  }

  /** Cookie options that are not accepted: the backend has already issued
      new tokens, yet the browser gets a 401 and keeps its old cookie. */
  lemma RefreshCookieRejectedAfterRotation(
    cookie: Option<string>,
    userIpAddress: Option<string>,
    verify: string -> Result<JwtAuthPayload, JsError>,
    refreshTokens: (JwtAuthPayload, Option<string>) -> Result<LoginResponse, JsError>,
    options: RefreshTokenCookieOptions,
    ms: string -> Option<real>)
    requires !NoRefreshToken(cookie) && verify(cookie.value).Success?
    requires refreshTokens(verify(cookie.value).value, userIpAddress).Success?
    requires !CookieOptionsAccepted(options)
    ensures RefreshCalls(cookie, userIpAddress, verify) == [RefreshCall(verify(cookie.value).value, userIpAddress)]
    ensures var error := RefreshCookie(refreshTokens(verify(cookie.value).value, userIpAddress).value.refreshToken, options, ms).error;
      RefreshEffects(cookie, userIpAddress, verify, refreshTokens, options, ms) == [RefreshFailed(error)]
      && error in {MsEmptyError, PathInvalidError, SameSiteInvalidError}
  {
  }

  /** A cookie is set exactly when the refresh succeeds, and then it is the
      new refresh token, followed by 200 with the new access token; every
      other outcome is a single 401. */
  lemma RefreshCookieOnlyOnSuccess(
    cookie: Option<string>,
    userIpAddress: Option<string>,
    verify: string -> Result<JwtAuthPayload, JsError>,
    refreshTokens: (JwtAuthPayload, Option<string>) -> Result<LoginResponse, JsError>,
    options: RefreshTokenCookieOptions,
    ms: string -> Option<real>)
    ensures var effects := RefreshEffects(cookie, userIpAddress, verify, refreshTokens, options, ms);
      (exists i :: 0 <= i < |effects| && effects[i].SetCookie?)
      <==> RefreshSucceeds(cookie, userIpAddress, verify, refreshTokens, options)
    ensures RefreshSucceeds(cookie, userIpAddress, verify, refreshTokens, options) ==>
      var tokens := refreshTokens(verify(cookie.value).value, userIpAddress).value;
      RefreshEffects(cookie, userIpAddress, verify, refreshTokens, options, ms)
      == [RefreshCookie(tokens.refreshToken, options, ms).value, Json(200, AccessTokenBody(tokens.accessToken))]
    ensures !RefreshSucceeds(cookie, userIpAddress, verify, refreshTokens, options) ==>
      var effects := RefreshEffects(cookie, userIpAddress, verify, refreshTokens, options, ms);
      |effects| == 1 && effects[0].Json? && effects[0].status == 401
  {
    var effects := RefreshEffects(cookie, userIpAddress, verify, refreshTokens, options, ms);
    if RefreshSucceeds(cookie, userIpAddress, verify, refreshTokens, options) {
      assert effects[0].SetCookie?;
    }
  }

  // ---------------------------------------------------------------- logout

  /** `body.isLoggedOutFromAllDevices ?? false`: false when null or
      undefined, the value as sent otherwise (the body is not validated). */
  function LogoutFlag(body: map<string, JsValue>): (flag: JsValue)
    ensures IsMissing(Prop(body, "isLoggedOutFromAllDevices")) ==> flag == JsBool(false)
    ensures !IsMissing(Prop(body, "isLoggedOutFromAllDevices")) ==> flag == body["isLoggedOutFromAllDevices"]
  {
    var v := Prop(body, "isLoggedOutFromAllDevices");
    if IsMissing(v) then JsBool(false) else v
  }

  /** Only an explicit `true` logs out everywhere; an empty body does not. */
  lemma LogoutDefaultsToThisDevice()
    ensures LogoutFlag(map[]) == JsBool(false)
    ensures LogoutFlag(map["isLoggedOutFromAllDevices" := JsNull]) == JsBool(false)
    ensures LogoutFlag(map["isLoggedOutFromAllDevices" := JsBool(true)]) == JsBool(true)
  {
  }

  const LoggedOutMessage: string := "Logged out successfully"

  /** The effects of logout as written: `res.clearCookie('refresh_token')`
      without options, which Express sends for path "/". Nothing happens to
      the response when handleLogout throws. */
  function LogoutEffectsAsWritten(loggedOut: Outcome<JsError>): (effects: seq<Effect>)
    ensures loggedOut.Fail? <==> effects == []
    ensures forall e | e in effects :: !e.SetCookie? && (e.ClearCookie? ==> e.path == "/")
    ensures loggedOut.Pass? ==>
      ClearCookie(RefreshCookieName, "/") in effects &&
      effects[|effects| - 1] == Json(200, MessageBody(LoggedOutMessage))
  {
    if loggedOut.Fail? then []
    else [ClearCookie(RefreshCookieName, "/"), Json(200, MessageBody(LoggedOutMessage))]
  }

  /** The effects of logout with the cookie cleared at the path it was set
      with. */
  function LogoutEffects(loggedOut: Outcome<JsError>, options: RefreshTokenCookieOptions): (effects: seq<Effect>)
    ensures loggedOut.Fail? <==> effects == []
    ensures forall e | e in effects :: !e.SetCookie? && (e.ClearCookie? ==> e.path == options.path)
    ensures loggedOut.Pass? ==>
      ClearCookie(RefreshCookieName, options.path) in effects &&
      effects[|effects| - 1] == Json(200, MessageBody(LoggedOutMessage))
  {
    if loggedOut.Fail? then []
    else [ClearCookie(RefreshCookieName, options.path), Json(200, MessageBody(LoggedOutMessage))]
  }

  /** The two agree when the cookie lives at the root path. */
  lemma LogoutAgreesAtRootPath(loggedOut: Outcome<JsError>, options: RefreshTokenCookieOptions)
    requires options.path == "/"
    ensures LogoutEffectsAsWritten(loggedOut) == LogoutEffects(loggedOut, options)
  {
  }

  // ---------------------------------------------------------------- the browser's cookie jar

  /** A browser keeps a cookie per name and path; a clearing Set-Cookie
      removes only the cookie whose name and path it matches. */
  datatype CookieId = CookieId(name: string, path: string)

  /** The path a browser files a Set-Cookie under (section 5.2.4 of RFC 6265):
      a Path attribute that is missing, empty or not starting with "/" is
      replaced by the default path, the directory of the request's URI. */
  function StoredPath(path: string, defaultPath: string): (stored: string)
    ensures stored == path || stored == defaultPath
    ensures |path| > 0 && path[0] == '/' ==> stored == path
    ensures stored == path ==> path == defaultPath || (|path| > 0 && path[0] == '/')
  {
    if |path| > 0 && path[0] == '/' then path else defaultPath
  }

  /** One effect of a response to a request whose default path is
      `defaultPath`. */
  function ApplyEffect(jar: map<CookieId, string>, e: Effect, defaultPath: string): map<CookieId, string> {
    match e
    case SetCookie(name, value, options) => jar[CookieId(name, StoredPath(options.path, defaultPath)) := value]
    case ClearCookie(name, path) => jar - {CookieId(name, StoredPath(path, defaultPath))}
    case _ => jar
  }

  function ApplyEffects(jar: map<CookieId, string>, effects: seq<Effect>, defaultPath: string): map<CookieId, string>
    decreases |effects|
  {
    if effects == [] then jar else ApplyEffects(ApplyEffect(jar, effects[0], defaultPath), effects[1..], defaultPath)
  }

  /** One effect, then the rest. */
  lemma ApplyEffectsCons(jar: map<CookieId, string>, e: Effect, rest: seq<Effect>, defaultPath: string)
    ensures ApplyEffects(jar, [e] + rest, defaultPath) == ApplyEffects(ApplyEffect(jar, e, defaultPath), rest, defaultPath)
  {
    assert ([e] + rest)[1..] == rest;
  }

  /** The effects of one response apply one after the other. */
  lemma {:induction false} ApplyEffectsConcat(jar: map<CookieId, string>, a: seq<Effect>, b: seq<Effect>, defaultPath: string)
    ensures ApplyEffects(jar, a + b, defaultPath) == ApplyEffects(ApplyEffects(jar, a, defaultPath), b, defaultPath)
    decreases |a|
  {
    if a == [] {
      assert a + b == b;
    } else {
      assert a + b == [a[0]] + (a[1..] + b);
      ApplyEffectsCons(jar, a[0], a[1..] + b, defaultPath);
      ApplyEffectsConcat(ApplyEffect(jar, a[0], defaultPath), a[1..], b, defaultPath);
    }
  }

  /** What a successful logout as written does to any jar: it removes the
      refresh cookie filed under "/" and nothing else. */
  lemma LogoutAsWrittenClearsRoot(jar: map<CookieId, string>, defaultPath: string)
    ensures ApplyEffects(jar, LogoutEffectsAsWritten(Pass), defaultPath) == jar - {CookieId(RefreshCookieName, "/")}
  {
    var clear := ClearCookie(RefreshCookieName, "/");
    var ok := Json(200, MessageBody(LoggedOutMessage));
    assert LogoutEffectsAsWritten(Pass) == [clear] + ([ok] + []);
    ApplyEffectsCons(jar, clear, [ok] + [], defaultPath);
    ApplyEffectsCons(ApplyEffect(jar, clear, defaultPath), ok, [], defaultPath);
  }

  /** What the corrected logout does to any jar: it removes the refresh
      cookie filed under the configured path, as the logout request's
      browser resolves it, and nothing else. */
  lemma LogoutClearsRefreshCookie(jar: map<CookieId, string>, options: RefreshTokenCookieOptions, defaultPath: string)
    ensures var after := ApplyEffects(jar, LogoutEffects(Pass, options), defaultPath);
      CookieId(RefreshCookieName, StoredPath(options.path, defaultPath)) !in after &&
      after == jar - {CookieId(RefreshCookieName, StoredPath(options.path, defaultPath))}
  {
    var clear := ClearCookie(RefreshCookieName, options.path);
    var ok := Json(200, MessageBody(LoggedOutMessage));
    assert LogoutEffects(Pass, options) == [clear] + ([ok] + []);
    ApplyEffectsCons(jar, clear, [ok] + [], defaultPath);
    ApplyEffectsCons(ApplyEffect(jar, clear, defaultPath), ok, [], defaultPath);
  }

  /** The jar after the login cookie is set by a response to a request with
      default path `loginDefault`. */
  function AfterLogin(refreshToken: string, options: RefreshTokenCookieOptions, ms: string -> Option<real>, loginDefault: string): map<CookieId, string>
    requires CookieOptionsAccepted(options)
  {
    ApplyEffects(map[], [RefreshCookie(refreshToken, options, ms).value], loginDefault)
  }

  /** The login cookie is filed under the configured path, resolved against
      the login request. */
  lemma AfterLoginHoldsToken(refreshToken: string, options: RefreshTokenCookieOptions, ms: string -> Option<real>, loginDefault: string)
    requires CookieOptionsAccepted(options)
    ensures AfterLogin(refreshToken, options, ms, loginDefault)
         == map[CookieId(RefreshCookieName, StoredPath(options.path, loginDefault)) := refreshToken]
  {
    var loginCookie := RefreshCookie(refreshToken, options, ms).value;
    ApplyEffectsCons(map[], loginCookie, [], loginDefault);
    assert [loginCookie] + [] == [loginCookie];
    assert ApplyEffect(map[], loginCookie, loginDefault)
        == map[CookieId(RefreshCookieName, StoredPath(options.path, loginDefault)) := refreshToken];
  }

  /** The discrepancy: unless the login cookie was filed under "/", a login
      followed by a successful logout as written leaves the refresh token
      in the browser, whatever paths the two requests have. */
  lemma LogoutAsWrittenKeepsScopedCookie(
    refreshToken: string,
    options: RefreshTokenCookieOptions,
    ms: string -> Option<real>,
    loginDefault: string,
    logoutDefault: string)
    requires CookieOptionsAccepted(options)
    ensures var id := CookieId(RefreshCookieName, StoredPath(options.path, loginDefault));
      var jar := ApplyEffects(AfterLogin(refreshToken, options, ms, loginDefault), LogoutEffectsAsWritten(Pass), logoutDefault);
      (id in jar <==> id.path != "/") && (id in jar ==> jar[id] == refreshToken)
  {
    AfterLoginHoldsToken(refreshToken, options, ms, loginDefault);
    LogoutAsWrittenClearsRoot(AfterLogin(refreshToken, options, ms, loginDefault), logoutDefault);
  }

  /** The corrected logout removes the login cookie exactly when the
      configured path resolves to the same place for both requests, which
      it always does when it starts with "/". */
  lemma LogoutClearsLoginCookie(
    refreshToken: string,
    options: RefreshTokenCookieOptions,
    ms: string -> Option<real>,
    loginDefault: string,
    logoutDefault: string)
    requires CookieOptionsAccepted(options)
    ensures var id := CookieId(RefreshCookieName, StoredPath(options.path, loginDefault));
      var jar := ApplyEffects(AfterLogin(refreshToken, options, ms, loginDefault), LogoutEffects(Pass, options), logoutDefault);
      (jar == map[] <==> StoredPath(options.path, loginDefault) == StoredPath(options.path, logoutDefault)) &&
      (jar == map[] <==> id !in jar)
    ensures |options.path| > 0 && options.path[0] == '/' ==>
      ApplyEffects(AfterLogin(refreshToken, options, ms, loginDefault), LogoutEffects(Pass, options), logoutDefault) == map[]
  {
    var id := CookieId(RefreshCookieName, StoredPath(options.path, loginDefault));
    AfterLoginHoldsToken(refreshToken, options, ms, loginDefault);
    LogoutClearsRefreshCookie(AfterLogin(refreshToken, options, ms, loginDefault), options, logoutDefault);
    var jar := ApplyEffects(AfterLogin(refreshToken, options, ms, loginDefault), LogoutEffects(Pass, options), logoutDefault);
    if StoredPath(options.path, loginDefault) != StoredPath(options.path, logoutDefault) {
      assert id in jar;
    }
  }

  /** Every cookie any handler sets is the refresh cookie with the configured
      options. */
  lemma CookiesAlwaysConfigured(
    frontendRedirectUrl: string,
    login: Result<LoginResponse, JsError>,
    cookie: Option<string>,
    userIpAddress: Option<string>,
    verify: string -> Result<JwtAuthPayload, JsError>,
    refreshTokens: (JwtAuthPayload, Option<string>) -> Result<LoginResponse, JsError>,
    loggedOut: Outcome<JsError>,
    options: RefreshTokenCookieOptions,
    ms: string -> Option<real>)
    ensures forall e | e in GoogleRedirectEffects(frontendRedirectUrl, login, options, ms)
                         + RefreshEffects(cookie, userIpAddress, verify, refreshTokens, options, ms)
                         + LogoutEffectsAsWritten(loggedOut)
              :: e.SetCookie? ==> RefreshCookie(e.value, options, ms) == Success(e)
  {
  }

  // ---------------------------------------------------------------- the objects

  /** The Express response: the effects applied to it so far. */
  class Response {
    var effects: seq<Effect>

    constructor ()
      ensures effects == []
    {
      effects := [];
    }

    /** `res.cookie`: the serialiser either accepts the options and the
        cookie is set, or throws and the response is left as it was. */
    method Cookie(name: string, value: string, options: CookieOptions) returns (thrown: Outcome<JsError>)
      modifies this
      ensures thrown == CookieCheck(options)
      ensures thrown.Pass? ==> effects == old(effects) + [SetCookie(name, value, options)]
      ensures thrown.Fail? ==> effects == old(effects)
    {
      if !PathAccepted(options.path) {
        return Fail(PathInvalidError);
      }
      if !SameSiteAccepted(options.sameSite) {
        return Fail(SameSiteInvalidError);
      }
      effects := effects + [SetCookie(name, value, options)];
      return Pass;
    }

    method ClearCookieAt(name: string, path: string)
      modifies this
      ensures effects == old(effects) + [ClearCookie(name, path)]
    {
      effects := effects + [ClearCookie(name, path)];
    }

    /** `res.status(status).json(body)`. */
    method StatusJson(status: int, body: ResponseBody)
      modifies this
      ensures effects == old(effects) + [Json(status, body)]
    {
      effects := effects + [Json(status, body)];
    }

    method RedirectTo(url: string)
      modifies this
      ensures effects == old(effects) + [Redirect(url)]
    {
      effects := effects + [Redirect(url)];
    }
  }

  /** The authentication backend as the controller sees it: four operations
      and the log of the calls made on it. */
  class AuthService {
    const oauthLogin: (OAuthUser, Option<string>) -> Result<LoginResponse, JsError>
    const refreshTokens: (JwtAuthPayload, Option<string>) -> Result<LoginResponse, JsError>
    const logout: (AuthenticatedUser, JsValue) -> Outcome<JsError>
    const cookieOptions: RefreshTokenCookieOptions
    var calls: seq<AuthCall>

    constructor (
      oauthLogin: (OAuthUser, Option<string>) -> Result<LoginResponse, JsError>,
      refreshTokens: (JwtAuthPayload, Option<string>) -> Result<LoginResponse, JsError>,
      logout: (AuthenticatedUser, JsValue) -> Outcome<JsError>,
      cookieOptions: RefreshTokenCookieOptions)
      ensures this.oauthLogin == oauthLogin && this.refreshTokens == refreshTokens
      ensures this.logout == logout && this.cookieOptions == cookieOptions
      ensures calls == []
    {
      this.oauthLogin := oauthLogin;
      this.refreshTokens := refreshTokens;
      this.logout := logout;
      this.cookieOptions := cookieOptions;
      calls := [];
    }

    method HandleOAuthLogin(user: OAuthUser, userIpAddress: Option<string>) returns (r: Result<LoginResponse, JsError>)
      modifies this
      ensures calls == old(calls) + [OAuthLoginCall(user, userIpAddress)]
      ensures r == oauthLogin(user, userIpAddress)
    {
      calls := calls + [OAuthLoginCall(user, userIpAddress)];
      r := oauthLogin(user, userIpAddress);
    }

    method HandleRefreshToken(jwtPayload: JwtAuthPayload, userIpAddress: Option<string>) returns (r: Result<LoginResponse, JsError>)
      modifies this
      ensures calls == old(calls) + [RefreshCall(jwtPayload, userIpAddress)]
      ensures r == refreshTokens(jwtPayload, userIpAddress)
    {
      calls := calls + [RefreshCall(jwtPayload, userIpAddress)];
      r := refreshTokens(jwtPayload, userIpAddress);
    }

    method HandleLogout(user: AuthenticatedUser, isLoggedOutFromAllDevices: JsValue) returns (r: Outcome<JsError>)
      modifies this
      ensures calls == old(calls) + [LogoutCall(user, isLoggedOutFromAllDevices)]
      ensures r == logout(user, isLoggedOutFromAllDevices)
    {
      calls := calls + [LogoutCall(user, isLoggedOutFromAllDevices)];
      r := logout(user, isLoggedOutFromAllDevices);
    }
  }

  class AuthController {
    const authService: AuthService
    /** JwtService.verify: the checked payload, or the error it throws. */
    const verify: string -> Result<JwtAuthPayload, JsError>
    /** The ms package: a duration text in milliseconds. */
    const ms: string -> Option<real>
    /** googleOAuth.frontendRedirectUrl from the configuration. */
    const frontendRedirectUrl: string

    constructor (
      authService: AuthService,
      verify: string -> Result<JwtAuthPayload, JsError>,
      ms: string -> Option<real>,
      frontendRedirectUrl: string)
      ensures this.authService == authService && this.verify == verify
      ensures this.ms == ms && this.frontendRedirectUrl == frontendRedirectUrl
    {
      this.authService := authService;
      this.verify := verify;
      this.ms := ms;
      this.frontendRedirectUrl := frontendRedirectUrl;
    }

    /** setRefreshTokenCookie: sets the cookie, or throws what ms or
        `res.cookie` throws and leaves the response as it was. */
    method SetRefreshTokenCookie(res: Response, refreshToken: string) returns (thrown: Outcome<JsError>)
      modifies res
      ensures RefreshCookie(refreshToken, authService.cookieOptions, ms).Success? ==>
        thrown == Pass && res.effects == old(res.effects) + [RefreshCookie(refreshToken, authService.cookieOptions, ms).value]
      ensures RefreshCookie(refreshToken, authService.cookieOptions, ms).Failure? ==>
        thrown == Fail(RefreshCookie(refreshToken, authService.cookieOptions, ms).error) && res.effects == old(res.effects)
    {
      var options := authService.cookieOptions;
      if options.maxAge == "" {
        return Fail(MsEmptyError);
      }
      thrown := res.Cookie(RefreshCookieName, refreshToken,
        CookieOptions(options.httpOnly, options.isSecure, options.sameSite, options.path, ms(options.maxAge)));
    }

    /** googleRedirect: one handleOAuthLogin call, then the effects of its
        outcome; `escaped` tells that the catch's JSON.stringify threw and
        the error left the handler. */
    method GoogleRedirect(user: OAuthUser, userIpAddress: Option<string>, res: Response) returns (escaped: bool)
      modifies res, authService
      ensures authService.calls == old(authService.calls) + [OAuthLoginCall(user, userIpAddress)]
      ensures res.effects == old(res.effects)
        + GoogleRedirectEffects(frontendRedirectUrl, authService.oauthLogin(user, userIpAddress), authService.cookieOptions, ms)
      ensures escaped == GoogleRedirectEscapes(authService.oauthLogin(user, userIpAddress))
    {
      var login := authService.HandleOAuthLogin(user, userIpAddress);
      var caught: JsError;
      match login {
        case Success(tokens) =>
          var thrown := SetRefreshTokenCookie(res, tokens.refreshToken);
          if thrown.Pass? {
            res.RedirectTo(frontendRedirectUrl + "?access_token=" + tokens.accessToken);
            return false;
          }
          caught := thrown.error;
        case Failure(error) =>
          caught := error;
      }
      if caught.json.None? {
        return true;
      }
      res.RedirectTo(frontendRedirectUrl + "?error=" + caught.json.value);
      return false;
    }

    method Refresh(cookie: Option<string>, userIpAddress: Option<string>, res: Response)
      modifies res, authService
      ensures authService.calls == old(authService.calls) + RefreshCalls(cookie, userIpAddress, verify)
      ensures res.effects == old(res.effects)
        + RefreshEffects(cookie, userIpAddress, verify, authService.refreshTokens, authService.cookieOptions, ms)
    {
      if cookie.None? || cookie.value == "" {
        res.StatusJson(401, MessageBody("Refresh token not found"));
        return;
      }
      var verified := verify(cookie.value);
      if verified.Failure? {
        res.StatusJson(401, MessageBody("HandleRefreshToken failed, error: " + verified.error.text));
        return;
      }
      var refreshed := authService.HandleRefreshToken(verified.value, userIpAddress);
      if refreshed.Failure? {
        res.StatusJson(401, MessageBody("HandleRefreshToken failed, error: " + refreshed.error.text));
        return;
      }
      var thrown := SetRefreshTokenCookie(res, refreshed.value.refreshToken);
      if thrown.Fail? {
        res.StatusJson(401, MessageBody("HandleRefreshToken failed, error: " + thrown.error.text));
        return;
      }
      res.StatusJson(200, AccessTokenBody(refreshed.value.accessToken));
    }

    /** logout: the error of handleLogout, if it throws, goes on to the
        framework and the response is left as it was; otherwise the cookie
        is cleared, without options and so at "/". */
    method Logout(user: AuthenticatedUser, body: map<string, JsValue>, res: Response) returns (thrown: Outcome<JsError>)
      modifies res, authService
      ensures authService.calls == old(authService.calls) + [LogoutCall(user, LogoutFlag(body))]
      ensures thrown == authService.logout(user, LogoutFlag(body))
      ensures res.effects == old(res.effects) + LogoutEffectsAsWritten(thrown)
    {
      thrown := authService.HandleLogout(user, LogoutFlag(body));
      if thrown.Fail? {
        return;
      }
      res.ClearCookieAt(RefreshCookieName, "/");
      res.StatusJson(200, MessageBody(LoggedOutMessage));
    }
  }
}
