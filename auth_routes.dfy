/** The decision logic of the authentication routes (app/routes/auth.py):
    password rules, signup, login, token refresh, the current-user check and
    logout. The request's cookies are a map; the response whose cookies the
    handlers set is a `Response` object. */
module AuthRoutes {
  import opened Values
  import opened Text
  import opened TokenService
  import opened UserService

  const PasswordTooShort := HttpError(400, "비밀번호는 8자 이상이어야 합니다.")
  const PasswordNeedsLetterAndDigit := HttpError(400, "비밀번호는 영문과 숫자를 포함해야 합니다.")
  const SignupUsernameTaken := HttpError(400, "이미 존재하는 사용자명입니다.")
  const SignupDone := "회원가입이 완료되었습니다."
  const LoginDone := "로그인 성공"
  const LogoutDone := "로그아웃 완료"
  const NoRefreshToken := HttpError(401, "Refresh token이 없습니다.")
  const RefreshTokenRejected := HttpError(401, "Refresh token이 만료되었거나 유효하지 않습니다.")
  const InvalidTokenPayload := HttpError(401, "Invalid token payload")
  const RefreshDone := "Access token refreshed"
  const NoAccessToken := HttpError(401, "Access token이 없습니다.")
  const AccessTokenRejected := HttpError(401, "토큰이 만료되었거나 잘못되었습니다.")
  const AccessTokenNoSubject := HttpError(401, "토큰 정보가 올바르지 않습니다.")
  const CurrentUserNotFound := HttpError(401, "사용자를 찾을 수 없습니다.")

  const AccessCookieName := "access_token"
  const RefreshCookieName := "refresh_token"

  /** validate_password: at least 8 characters (checked first), then at least
      one ASCII letter and at least one digit. */
  function ValidatePassword(password: string): (r: Result<bool, HttpError>)
    ensures r.Ok? <==> |password| >= 8 && HasAsciiLetter(password) && HasDigit(password)
    ensures r.Ok? ==> r.value
    ensures |password| < 8 ==> r == Err(PasswordTooShort)
    ensures |password| >= 8 && !(HasAsciiLetter(password) && HasDigit(password))
            ==> r == Err(PasswordNeedsLetterAndDigit)
  {
    if |password| < 8 then Err(PasswordTooShort)
    else if !HasAsciiLetter(password) || !HasDigit(password) then Err(PasswordNeedsLetterAndDigit)
    else Ok(true)
  }

  /** A cookie as Set-Cookie carries it. */
  datatype Cookie = Cookie(value: string, maxAge: int, httpOnly: bool, secure: bool, sameSite: string)

  /** What Starlette's delete_cookie sends: an empty value that expires at once. */
  const ExpiredCookie := Cookie("", 0, false, false, "lax")

  /** `is_secure` as written: `settings.ENVIRONMENT == "production"`. The
      settings object has no attribute ENVIRONMENT, so the read raises
      AttributeError and FastAPI answers 500. */
  function SecureFlagAsWritten(settings: Settings): Result<bool, HttpError>
  {
    match Attribute(settings, "ENVIRONMENT")
    case None => Err(UnhandledError)
    case Some(env) => Ok(env == JStr("production"))
  }

  /** The secure flag lines 100 and 146 evidently mean: the application
      environment is "production". */
  function SecureFlag(settings: Settings): (secure: bool)
    ensures secure <==> Attribute(settings, "APP_ENV") == Some(JStr("production"))
  {
    settings.appEnv == "production"
  }

  /** As written the flag can never be computed, whatever the settings. */
  lemma SecureFlagAsWrittenAlwaysFails(settings: Settings)
    ensures SecureFlagAsWritten(settings) == Err(UnhandledError)
  {
  }

  /** The cookies are secure only in production, so not with the defaults. */
  lemma SecureOnlyInProduction(settings: Settings)
    ensures SecureFlag(settings) <==> settings.appEnv == "production"
    ensures !SecureFlag(DefaultSettings)
  {
  }

  function AccessCookie(token: string, settings: Settings): Cookie
  {
    Cookie(token, settings.accessTokenExpireMinutes * 60, true, SecureFlag(settings), "lax")
  }

  function RefreshCookie(token: string, settings: Settings): Cookie
  {
    Cookie(token, settings.refreshTokenExpireDays * 24 * 60 * 60, true, SecureFlag(settings), "lax")
  }

  /** The cookies live exactly as long as the tokens they hold: max_age is
      the distance from `now` to the token's "exp"; with the default
      settings that is one hour and seven days. */
  lemma CookieLifetimesMatchTokens(data: Claims, now: int, settings: Settings, token: string)
    ensures AccessCookie(token, settings).maxAge == AccessClaims(data, now, settings)["exp"].n - now
    ensures RefreshCookie(token, settings).maxAge == RefreshClaims(data, now, settings)["exp"].n - now
    ensures AccessCookie(token, DefaultSettings).maxAge == 3600
    ensures RefreshCookie(token, DefaultSettings).maxAge == 604800
  {
  }

  /** The outgoing response; only its cookies are modelled. */
  class Response {
    var cookies: map<string, Cookie>

    constructor ()
      ensures cookies == map[]
    {
      cookies := map[];
    }

    method SetCookie(key: string, cookie: Cookie)
      modifies this
      ensures cookies == old(cookies)[key := cookie]
    {
      cookies := cookies[key := cookie];
    }

    method DeleteCookie(key: string)
      modifies this
      ensures cookies == old(cookies)[key := ExpiredCookie]
    {
      cookies := cookies[key := ExpiredCookie];
    }
  }

  /** `request.cookies.get(name)` followed by `if not token`: absent or empty. */
  predicate MissingCookie(cookies: map<string, string>, name: string)
  {
    name !in cookies || cookies[name] == ""
  }

  // ---------------------------------------------------------------- signup

  /** What signup answers: the password rules first, then its own existence
      query (whose failure nothing catches, a 500) and its own 400 for a
      taken username, before create_user is reached; then create_user, whose
      query asks the same database the same question. */
  function SignupResult(users: map<string, UserRecord>, username: string, password: string,
                        hasher: string -> string, faults: DbFaults): (r: Result<string, HttpError>)
    ensures ValidatePassword(password).Err? ==> r == Err(ValidatePassword(password).error)
    ensures ValidatePassword(password).Ok? && faults.queryFails ==> r == Err(UnhandledError)
    ensures ValidatePassword(password).Ok? && !faults.queryFails && username in users
            ==> r == Err(SignupUsernameTaken)
    ensures r.Ok? <==>
      && ValidatePassword(password).Ok? && username !in users && |username| >= 3
      && !faults.queryFails && !faults.commitFails && !faults.refreshFails
    ensures r.Ok? ==> r.value == SignupDone
  {
    match ValidatePassword(password)
    case Err(e) => Err(e)
    case Ok(_) =>
      if faults.queryFails then Err(UnhandledError)
      else if username in users then Err(SignupUsernameTaken)
      else
        match CreateUserResult(users, username, password, hasher, faults)
        case Err(e) => Err(e)
        case Ok(_) => Ok(SignupDone)
  }

  /** signup: the table gains (username, hash(password)) exactly when
      create_user's commit goes through, which a success implies. */
  method Signup(table: UserTable, username: string, password: string,
                hasher: string -> string, faults: DbFaults) returns (r: Result<string, HttpError>)
    requires table.Valid()
    modifies table
    ensures table.Valid()
    ensures r == SignupResult(old(table.users), username, password, hasher, faults)
    ensures ValidatePassword(password).Ok? && CreateUserCommits(old(table.users), username, password, faults)
            ==> table.users == old(table.users)[username := UserRecord(username, hasher(password))]
    ensures !(ValidatePassword(password).Ok? && CreateUserCommits(old(table.users), username, password, faults))
            ==> table.users == old(table.users)
    ensures r.Ok? ==> table.users == old(table.users)[username := UserRecord(username, hasher(password))]
  {
    var valid := ValidatePassword(password);
    if valid.Err? {
      return Err(valid.error);
    }
    if faults.queryFails {
      return Err(UnhandledError);
    }
    if username in table.users {
      return Err(SignupUsernameTaken);
    }
    var created := table.CreateUser(username, password, hasher, faults);
    if created.Err? {
      return Err(created.error);
    }
    r := Ok(SignupDone);
  }

  // ----------------------------------------------------------------- login

  /** What login reaches before its first set_cookie, as written: after
      authentication, generate_token_pair is given {"sub": username} but reads
      user["username"] (line 99), and then the secure flag reads
      settings.ENVIRONMENT (line 100). Neither KeyError nor AttributeError is
      an HTTPException, so FastAPI answers 500 and no cookie is set. */
  function LoginResultAsWritten(auth: Result<UserRecord, HttpError>, now: int, settings: Settings,
                                codec: Codec): Result<TokenPair, HttpError>
  {
    match auth
    case Err(e) => Err(e)
    case Ok(user) =>
      match GenerateTokenPair(map["sub" := JStr(user.username)], now, settings, codec)
      case Err(_) => Err(UnhandledError)
      case Ok(pair) =>
        match SecureFlagAsWritten(settings)
        case Err(e) => Err(e)
        case Ok(_) => Ok(pair)
  }

  /** The same with only line 99 corrected: line 100 still raises. */
  function LoginWithTokenFixAsWritten(auth: Result<UserRecord, HttpError>, now: int, settings: Settings,
                                      codec: Codec): Result<TokenPair, HttpError>
  {
    match auth
    case Err(e) => Err(e)
    case Ok(user) =>
      match SecureFlagAsWritten(settings)
      case Err(e) => Err(e)
      case Ok(_) => Ok(LoginTokenRequest(user, now, settings, codec).value)
  }

  /** As written, no login ever succeeds: a correct password ends in a 500,
      and correcting the token request alone does not change that. */
  lemma LoginAsWrittenAlwaysFails(auth: Result<UserRecord, HttpError>, now: int, settings: Settings,
                                  codec: Codec)
    ensures LoginResultAsWritten(auth, now, settings, codec).Err?
    ensures auth.Ok? ==> LoginResultAsWritten(auth, now, settings, codec) == Err(UnhandledError)
    ensures LoginWithTokenFixAsWritten(auth, now, settings, codec).Err?
    ensures auth.Ok? ==> LoginWithTokenFixAsWritten(auth, now, settings, codec) == Err(UnhandledError)
  {
  }

  /** The token request login is evidently meant to make: the dict that
      generate_token_pair reads, {"username": username}. */
  function LoginTokenRequest(user: UserRecord, now: int, settings: Settings, codec: Codec)
    : (r: Result<TokenPair, string>)
    ensures r.Ok?
  {
    GenerateTokenPair(map["username" := JStr(user.username)], now, settings, codec)
  }

  /** With the corrected request both tokens verify, each as its own type,
      and both name the user who logged in. */
  lemma LoginTokensNameTheUser(user: UserRecord, now: int, settings: Settings, codec: Codec)
    requires RoundTrips(codec)
    ensures var pair := LoginTokenRequest(user, now, settings, codec).value;
      && VerifyToken(pair.accessToken, AccessType, codec).Some?
      && VerifyToken(pair.accessToken, AccessType, codec).value["sub"] == JStr(user.username)
      && VerifyToken(pair.refreshToken, RefreshType, codec).Some?
      && VerifyToken(pair.refreshToken, RefreshType, codec).value["sub"] == JStr(user.username)
      && VerifyToken(pair.accessToken, RefreshType, codec).None?
      && VerifyToken(pair.refreshToken, AccessType, codec).None?
  {
    TokenPairSameSubject(map["username" := JStr(user.username)], now, settings, codec);
    var subject := map["sub" := JStr(user.username)];
    AccessTokenVerifiesOnlyAsAccess(subject, now, settings, codec);
    RefreshTokenVerifiesOnlyAsRefresh(subject, now, settings, codec);
  }

  /** login with the corrected token request: authenticate, then set the
      access and refresh cookies (http-only, SameSite=lax). */
  method Login(table: UserTable, response: Response, username: string, password: string,
               verify: (string, string) -> bool, queryFails: bool,
               now: int, settings: Settings, codec: Codec) returns (r: Result<string, HttpError>)
    modifies response
    ensures var auth := table.Authenticate(username, password, verify, queryFails);
      && (auth.Err? ==> r == Err(auth.error) && response.cookies == old(response.cookies))
      && (auth.Ok? ==>
           var pair := LoginTokenRequest(auth.value, now, settings, codec).value;
           && r == Ok(LoginDone)
           && response.cookies == old(response.cookies)
                [AccessCookieName := AccessCookie(pair.accessToken, settings)]
                [RefreshCookieName := RefreshCookie(pair.refreshToken, settings)])
  {
    var auth := table.Authenticate(username, password, verify, queryFails);
    if auth.Err? {
      return Err(auth.error);
    }
    var pair := LoginTokenRequest(auth.value, now, settings, codec).value;
    response.SetCookie(AccessCookieName, AccessCookie(pair.accessToken, settings));
    response.SetCookie(RefreshCookieName, RefreshCookie(pair.refreshToken, settings));
    r := Ok(LoginDone);
  }

  // --------------------------------------------------------------- refresh

  /** refresh_token's decisions: a refresh cookie must be present, must verify
      as a "refresh" token, and must carry a truthy "sub"; the new access
      token is issued for exactly that subject. */
  function RefreshResult(cookies: map<string, string>, now: int, settings: Settings, codec: Codec)
    : (r: Result<string, HttpError>)
    ensures MissingCookie(cookies, RefreshCookieName) ==> r == Err(NoRefreshToken)
    ensures !MissingCookie(cookies, RefreshCookieName)
            && VerifyToken(cookies[RefreshCookieName], RefreshType, codec).None?
            ==> r == Err(RefreshTokenRejected)
    ensures r.Ok? <==>
      && !MissingCookie(cookies, RefreshCookieName)
      && VerifyToken(cookies[RefreshCookieName], RefreshType, codec).Some?
      && Truthy(Get(VerifyToken(cookies[RefreshCookieName], RefreshType, codec).value, "sub"))
    ensures r.Ok? ==>
      var sub := Get(VerifyToken(cookies[RefreshCookieName], RefreshType, codec).value, "sub");
      r.value == CreateAccessToken(map["sub" := sub], now, settings, codec)
  {
    if MissingCookie(cookies, RefreshCookieName) then Err(NoRefreshToken)
    else
      match VerifyToken(cookies[RefreshCookieName], RefreshType, codec)
      case None => Err(RefreshTokenRejected)
      case Some(payload) =>
        var username := Get(payload, "sub");
        if !Truthy(username) then Err(InvalidTokenPayload)
        else Ok(CreateAccessToken(map["sub" := username], now, settings, codec))
  }

  /** Without a refresh cookie the answer does not depend on the codec at all:
      the token is never decoded. */
  lemma RefreshWithoutCookieNeverDecodes(cookies: map<string, string>, now: int, settings: Settings,
                                         c1: Codec, c2: Codec)
    requires MissingCookie(cookies, RefreshCookieName)
    ensures RefreshResult(cookies, now, settings, c1) == RefreshResult(cookies, now, settings, c2)
            == Err(NoRefreshToken)
  {
  }

  /** An access token in the refresh cookie is refused. */
  lemma RefreshRefusesAccessToken(data: Claims, now: int, later: int, settings: Settings, codec: Codec)
    requires RoundTrips(codec) && NonEmptyTokens(codec)
    requires "sub" in data && data["sub"] != JNull
    ensures RefreshResult(map[RefreshCookieName := CreateAccessToken(data, now, settings, codec)],
                          later, settings, codec) == Err(RefreshTokenRejected)
  {
    AccessTokenVerifiesOnlyAsAccess(data, now, settings, codec);
  }

  /** A refresh token whose subject is the empty string passes verify_token
      (which only rejects None) but is refused by refresh's own check. */
  lemma RefreshRefusesEmptySubject(now: int, later: int, settings: Settings, codec: Codec)
    requires RoundTrips(codec) && NonEmptyTokens(codec)
    ensures var data := map["sub" := JStr("")];
      && VerifyToken(CreateRefreshToken(data, now, settings, codec), RefreshType, codec).Some?
      && RefreshResult(map[RefreshCookieName := CreateRefreshToken(data, now, settings, codec)],
                       later, settings, codec) == Err(InvalidTokenPayload)
  {
    RefreshTokenVerifiesOnlyAsRefresh(map["sub" := JStr("")], now, settings, codec);
  }

  /** The refresh token handed out at login renews an access token for the
      same user. */
  lemma RefreshAfterLogin(user: UserRecord, now: int, later: int, settings: Settings, codec: Codec)
    requires RoundTrips(codec) && NonEmptyTokens(codec)
    requires user.username != ""
    ensures var pair := LoginTokenRequest(user, now, settings, codec).value;
      var r := RefreshResult(map[RefreshCookieName := pair.refreshToken], later, settings, codec);
      && r.Ok?
      && VerifyToken(r.value, AccessType, codec).Some?
      && VerifyToken(r.value, AccessType, codec).value["sub"] == JStr(user.username)
  {
    var pair := LoginTokenRequest(user, now, settings, codec).value;
    LoginTokensNameTheUser(user, now, settings, codec);
    AccessTokenVerifiesOnlyAsAccess(map["sub" := JStr(user.username)], later, settings, codec);
  }

  /** refresh_token as written: the decisions of RefreshResult, then the
      secure flag of line 146, read before set_cookie is called. A request
      that passes every check ends in a 500 and no cookie is set. */
  function RefreshAsWritten(cookies: map<string, string>, now: int, settings: Settings, codec: Codec)
    : Result<string, HttpError>
  {
    match RefreshResult(cookies, now, settings, codec)
    case Err(e) => Err(e)
    case Ok(token) =>
      match SecureFlagAsWritten(settings)
      case Err(e) => Err(e)
      case Ok(_) => Ok(token)
  }

  /** As written no refresh succeeds: the route's own 401s are kept, and
      every request that would renew the token gets a 500 instead. */
  lemma RefreshAsWrittenAlwaysFails(cookies: map<string, string>, now: int, settings: Settings, codec: Codec)
    ensures RefreshAsWritten(cookies, now, settings, codec).Err?
    ensures RefreshResult(cookies, now, settings, codec).Err? ==>
      RefreshAsWritten(cookies, now, settings, codec) == RefreshResult(cookies, now, settings, codec)
    ensures RefreshResult(cookies, now, settings, codec).Ok? ==>
      RefreshAsWritten(cookies, now, settings, codec) == Err(UnhandledError)
  {
  }

  datatype RefreshReply = RefreshReply(accessToken: string, message: string)

  /** refresh_token: on success the access cookie is replaced, else nothing is set. */
  method Refresh(cookies: map<string, string>, response: Response, now: int, settings: Settings,
                 codec: Codec) returns (r: Result<RefreshReply, HttpError>)
    modifies response
    ensures RefreshResult(cookies, now, settings, codec).Err? ==>
      r == Err(RefreshResult(cookies, now, settings, codec).error)
      && response.cookies == old(response.cookies)
    ensures RefreshResult(cookies, now, settings, codec).Ok? ==>
      var token := RefreshResult(cookies, now, settings, codec).value;
      && r == Ok(RefreshReply(token, RefreshDone))
      && response.cookies == old(response.cookies)[AccessCookieName := AccessCookie(token, settings)]
  {
    var decided := RefreshResult(cookies, now, settings, codec);
    if decided.Err? {
      return Err(decided.error);
    }
    response.SetCookie(AccessCookieName, AccessCookie(decided.value, settings));
    r := Ok(RefreshReply(decided.value, RefreshDone));
  }

  // ---------------------------------------------------------- current user

  /** get_current_user: the access cookie is decoded directly (its "type" is
      not looked at); a missing subject is its own 401, raised outside the
      JWTError handler; the subject must name a stored user. The user query
      (`queryFails`) is outside every handler, so its failure is a 500. */
  function CurrentUser(cookies: map<string, string>, codec: Codec, users: map<string, UserRecord>,
                       queryFails: bool)
    : (r: Result<UserRecord, HttpError>)
    ensures MissingCookie(cookies, AccessCookieName) ==> r == Err(NoAccessToken)
    ensures !MissingCookie(cookies, AccessCookieName) && codec.decode(cookies[AccessCookieName]).None?
            ==> r == Err(AccessTokenRejected)
    ensures !MissingCookie(cookies, AccessCookieName) && codec.decode(cookies[AccessCookieName]).Some?
            && Get(codec.decode(cookies[AccessCookieName]).value, "sub") == JNull
            ==> r == Err(AccessTokenNoSubject)
    ensures r == Err(UnhandledError) <==>
      && !MissingCookie(cookies, AccessCookieName)
      && codec.decode(cookies[AccessCookieName]).Some?
      && Get(codec.decode(cookies[AccessCookieName]).value, "sub") != JNull
      && queryFails
    ensures r.Ok? <==>
      && !MissingCookie(cookies, AccessCookieName)
      && codec.decode(cookies[AccessCookieName]).Some?
      && Get(codec.decode(cookies[AccessCookieName]).value, "sub").JStr?
      && Get(codec.decode(cookies[AccessCookieName]).value, "sub").s in users
      && !queryFails
    ensures r.Ok? ==> r.value == users[Get(codec.decode(cookies[AccessCookieName]).value, "sub").s]
    ensures r.Err? && r != Err(UnhandledError) ==> r.error.status == 401
  {
    if MissingCookie(cookies, AccessCookieName) then Err(NoAccessToken)
    else
      match codec.decode(cookies[AccessCookieName])
      case None => Err(AccessTokenRejected)
      case Some(payload) =>
        var username := Get(payload, "sub");
        if username == JNull then Err(AccessTokenNoSubject)
        else if queryFails then Err(UnhandledError)
        else if username.JStr? && username.s in users then Ok(users[username.s])
        else Err(CurrentUserNotFound)
  }

  /** Because the "type" claim is not checked, a refresh token placed in the
      access cookie is accepted as a login. */
  lemma CurrentUserAcceptsRefreshToken(user: UserRecord, now: int, settings: Settings, codec: Codec,
                                       users: map<string, UserRecord>)
    requires RoundTrips(codec) && NonEmptyTokens(codec)
    requires user.username in users
    ensures var pair := LoginTokenRequest(user, now, settings, codec).value;
      CurrentUser(map[AccessCookieName := pair.refreshToken], codec, users, false) == Ok(users[user.username])
  {
    LoginTokensNameTheUser(user, now, settings, codec);
  }

  // ---------------------------------------------------------------- logout

  method Logout(response: Response) returns (message: string)
    modifies response
    ensures message == LogoutDone
    ensures response.cookies == old(response.cookies)[AccessCookieName := ExpiredCookie]
                                                     [RefreshCookieName := ExpiredCookie]
  {
    response.DeleteCookie(AccessCookieName);
    response.DeleteCookie(RefreshCookieName);
    message := LogoutDone;
  }
}
