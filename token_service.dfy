/** JWT payload construction and checking (app/utils/token_service.py).
    A token is the encoding of a claim set that carries the registered claims
    "sub" (section 4.1.2 of RFC 7519) and "exp" (section 4.1.4 of RFC 7519,
    a NumericDate in seconds) and the private claim "type" (section 4.3 of
    RFC 7519). Signing and decoding are the library's: they are the two
    functions of a Codec, and the codec's decode is where expiry and bad
    signatures are rejected. The clock is the parameter `now`. */
module TokenService {
  import opened Values

  type Claims = map<string, Json>

  /** The settings the token code and the routes read: the fields
      access_token_expire_minutes, refresh_token_expire_days and app_env of
      app/config.py, with its defaults. */
  datatype Settings = Settings(
    accessTokenExpireMinutes: int,
    refreshTokenExpireDays: int,
    appEnv: string)

  const DefaultSettings := Settings(60, 7, "development")

  /** Reading `settings.NAME` for the upper-case names the routes read, and
      for APP_ENV. app/config.py gives the fields upper-case aliases, but none
      called ENVIRONMENT, so that read raises AttributeError (None here). */
  function Attribute(settings: Settings, name: string): (r: Option<Json>)
    requires name in {"ACCESS_TOKEN_EXPIRE_MINUTES", "REFRESH_TOKEN_EXPIRE_DAYS", "APP_ENV", "ENVIRONMENT"}
    ensures r.None? <==> name == "ENVIRONMENT"
    ensures name == "ACCESS_TOKEN_EXPIRE_MINUTES" ==> r == Some(JNum(settings.accessTokenExpireMinutes))
    ensures name == "REFRESH_TOKEN_EXPIRE_DAYS" ==> r == Some(JNum(settings.refreshTokenExpireDays))
    ensures name == "APP_ENV" ==> r == Some(JStr(settings.appEnv))
  {
    if name == "ACCESS_TOKEN_EXPIRE_MINUTES" then Some(JNum(settings.accessTokenExpireMinutes))
    else if name == "REFRESH_TOKEN_EXPIRE_DAYS" then Some(JNum(settings.refreshTokenExpireDays))
    else if name == "APP_ENV" then Some(JStr(settings.appEnv))
    else None
  }

  /** jwt.encode and jwt.decode with the secret key and algorithm baked in;
      decode answers None where the library raises JWTError. */
  datatype Codec = Codec(encode: Claims -> string, decode: string -> Option<Claims>)

  /** Decoding undoes encoding (for a token that has not expired). */
  ghost predicate RoundTrips(codec: Codec)
  {
    forall p :: codec.decode(codec.encode(p)) == Some(p)
  }

  /** A compact JWT is never the empty string (it has three dot-separated parts). */
  ghost predicate NonEmptyTokens(codec: Codec)
  {
    forall p :: codec.encode(p) != ""
  }

  const AccessType := "access"
  const RefreshType := "refresh"

  /** data.copy() followed by update({"exp": exp, "type": kind}). */
  function WithExpiry(data: Claims, exp: int, kind: string): (p: Claims)
    ensures p.Keys == data.Keys + {"exp", "type"}
    ensures p["exp"] == JNum(exp) && p["type"] == JStr(kind)
    ensures forall k :: k in data && k != "exp" && k != "type" ==> p[k] == data[k]
  {
    data["exp" := JNum(exp)]["type" := JStr(kind)]
  }

  function AccessLifetimeSeconds(settings: Settings): int
  {
    settings.accessTokenExpireMinutes * 60
  }

  function RefreshLifetimeSeconds(settings: Settings): int
  {
    settings.refreshTokenExpireDays * 24 * 60 * 60
  }

  function AccessClaims(data: Claims, now: int, settings: Settings): Claims
  {
    WithExpiry(data, now + AccessLifetimeSeconds(settings), AccessType)
  }

  function RefreshClaims(data: Claims, now: int, settings: Settings): Claims
  {
    WithExpiry(data, now + RefreshLifetimeSeconds(settings), RefreshType)
  }

  /** create_access_token: the token decodes to the access claims. */
  function CreateAccessToken(data: Claims, now: int, settings: Settings, codec: Codec): (t: string)
    ensures RoundTrips(codec) ==> codec.decode(t) == Some(AccessClaims(data, now, settings))
  {
    codec.encode(AccessClaims(data, now, settings))
  }

  /** create_refresh_token: the token decodes to the refresh claims. */
  function CreateRefreshToken(data: Claims, now: int, settings: Settings, codec: Codec): (t: string)
    ensures RoundTrips(codec) ==> codec.decode(t) == Some(RefreshClaims(data, now, settings))
  {
    codec.encode(RefreshClaims(data, now, settings))
  }

  /** The access payload is the caller's claims plus an expiry `minutes * 60`
      seconds after `now` and type "access"; a caller's own "exp" or "type"
      is overridden, every other claim is kept. */
  lemma AccessClaimsShape(data: Claims, now: int, settings: Settings)
    ensures var p := AccessClaims(data, now, settings);
      && p.Keys == data.Keys + {"exp", "type"}
      && p["exp"] == JNum(now + settings.accessTokenExpireMinutes * 60)
      && p["type"] == JStr("access")
      && (forall k :: k in data && k != "exp" && k != "type" ==> p[k] == data[k])
  {
  }

  /** The refresh payload: the caller's claims plus an expiry `days` days
      after `now` and type "refresh". */
  lemma RefreshClaimsShape(data: Claims, now: int, settings: Settings)
    ensures var p := RefreshClaims(data, now, settings);
      && p.Keys == data.Keys + {"exp", "type"}
      && p["exp"] == JNum(now + settings.refreshTokenExpireDays * 86400)
      && p["type"] == JStr("refresh")
      && (forall k :: k in data && k != "exp" && k != "type" ==> p[k] == data[k])
  {
  }

  /** verify_token: decode, then insist on the expected "type" and on a
      "sub" that is present and not None; the payload comes back unchanged. */
  function VerifyToken(token: string, expectedType: string, codec: Codec): (r: Option<Claims>)
    ensures codec.decode(token).None? ==> r.None?
    ensures r.Some? <==>
      && codec.decode(token).Some?
      && Get(codec.decode(token).value, "type") == JStr(expectedType)
      && Get(codec.decode(token).value, "sub") != JNull
    ensures r.Some? ==> r == codec.decode(token)
  {
    match codec.decode(token)
    case None => None
    case Some(payload) =>
      if Get(payload, "type") != JStr(expectedType) then None
      else if Get(payload, "sub") == JNull then None
      else Some(payload)
  }

  datatype TokenPair = TokenPair(accessToken: string, refreshToken: string)

  /** generate_token_pair: both tokens carry {"sub": user["username"]}; a
      user dict without "username" raises KeyError (the Err side). */
  function GenerateTokenPair(user: Claims, now: int, settings: Settings, codec: Codec)
    : (r: Result<TokenPair, string>)
    ensures r.Err? <==> "username" !in user
    ensures r.Err? ==> r.error == "username"
    ensures r.Ok? ==>
      && r.value.accessToken == CreateAccessToken(map["sub" := user["username"]], now, settings, codec)
      && r.value.refreshToken == CreateRefreshToken(map["sub" := user["username"]], now, settings, codec)
  {
    if "username" !in user then Err("username")
    else
      var subject := map["sub" := user["username"]];
      Ok(TokenPair(CreateAccessToken(subject, now, settings, codec),
                   CreateRefreshToken(subject, now, settings, codec)))
  }

  /** An access token verifies as "access", never as "refresh", and gives
      back exactly the payload that was signed, when it has a subject. */
  lemma AccessTokenVerifiesOnlyAsAccess(data: Claims, now: int, settings: Settings, codec: Codec)
    requires RoundTrips(codec)
    requires "sub" in data && data["sub"] != JNull
    ensures VerifyToken(CreateAccessToken(data, now, settings, codec), AccessType, codec)
            == Some(AccessClaims(data, now, settings))
    ensures VerifyToken(CreateAccessToken(data, now, settings, codec), RefreshType, codec).None?
  {
    var p := AccessClaims(data, now, settings);
    assert codec.decode(codec.encode(p)) == Some(p);
  }

  /** A refresh token verifies as "refresh", never as "access". */
  lemma RefreshTokenVerifiesOnlyAsRefresh(data: Claims, now: int, settings: Settings, codec: Codec)
    requires RoundTrips(codec)
    requires "sub" in data && data["sub"] != JNull
    ensures VerifyToken(CreateRefreshToken(data, now, settings, codec), RefreshType, codec)
            == Some(RefreshClaims(data, now, settings))
    ensures VerifyToken(CreateRefreshToken(data, now, settings, codec), AccessType, codec).None?
  {
    var p := RefreshClaims(data, now, settings);
    assert codec.decode(codec.encode(p)) == Some(p);
  }

  /** A token without a subject (absent, or null) never verifies, whatever its type. */
  lemma NoSubjectNeverVerifies(data: Claims, now: int, settings: Settings, codec: Codec, expectedType: string)
    requires RoundTrips(codec)
    requires Get(data, "sub") == JNull
    ensures VerifyToken(CreateAccessToken(data, now, settings, codec), expectedType, codec).None?
    ensures VerifyToken(CreateRefreshToken(data, now, settings, codec), expectedType, codec).None?
  {
    var a := AccessClaims(data, now, settings);
    var f := RefreshClaims(data, now, settings);
    assert codec.decode(codec.encode(a)) == Some(a);
    assert codec.decode(codec.encode(f)) == Some(f);
  }

  /** Both tokens of a pair name the same subject, user["username"]. */
  lemma TokenPairSameSubject(user: Claims, now: int, settings: Settings, codec: Codec)
    requires RoundTrips(codec)
    requires "username" in user && user["username"] != JNull
    ensures GenerateTokenPair(user, now, settings, codec).Ok?
    ensures var pair := GenerateTokenPair(user, now, settings, codec).value;
      && VerifyToken(pair.accessToken, AccessType, codec).Some?
      && VerifyToken(pair.refreshToken, RefreshType, codec).Some?
      && VerifyToken(pair.accessToken, AccessType, codec).value["sub"] == user["username"]
      && VerifyToken(pair.refreshToken, RefreshType, codec).value["sub"] == user["username"]
  {
    var subject := map["sub" := user["username"]];
    AccessTokenVerifiesOnlyAsAccess(subject, now, settings, codec);
    RefreshTokenVerifiesOnlyAsRefresh(subject, now, settings, codec);
  }
}
