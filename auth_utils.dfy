/** Optional login from a bearer token (app/core/auth_utils.py). The token is
    decoded by the library (the Codec), and the user is looked up by the
    database query `User.id == sub`, the collaborator `findById`. Every
    failure inside get_user_from_token becomes an HTTPException, and
    get_current_user_optional turns every HTTPException into "no user". */
module AuthUtils {
  import opened Values
  import opened TokenService

  /** What the query `db.query(User).filter(User.id == sub).first()` yields. */
  datatype Lookup<U> = Found(user: U) | NotFound | QueryFailed

  const InvalidToken := HttpError(401, "Invalid token")
  const InternalError := HttpError(500, "Internal server error")

  /** get_user_from_token. The 401s for a missing "sub" and for an unknown
      user are raised inside the try block; they are not JWTErrors, so the
      generic `except Exception` handler re-raises them as 500. Only a
      decoding failure keeps its 401. */
  function GetUserFromToken<U>(token: string, codec: Codec, findById: Json -> Lookup<U>)
    : (r: Result<U, HttpError>)
    ensures r.Err? ==> r.error == InvalidToken || r.error == InternalError
    ensures codec.decode(token).None? <==> r == Err(InvalidToken)
    ensures r.Ok? <==>
      && codec.decode(token).Some?
      && Get(codec.decode(token).value, "sub") != JNull
      && findById(Get(codec.decode(token).value, "sub")).Found?
    ensures r.Ok? ==> r.value == findById(Get(codec.decode(token).value, "sub")).user
  {
    match codec.decode(token)
    case None => Err(InvalidToken)
    case Some(payload) =>
      var userId := Get(payload, "sub");
      if userId == JNull then Err(InternalError)          // 401 "missing user_id", converted
      else
        match findById(userId)
        case Found(user) => Ok(user)
        case NotFound => Err(InternalError)                // 401 "User not found", converted
        case QueryFailed => Err(InternalError)
  }

  /** get_current_user_optional: no token or an empty one is "not logged in"
      without decoding; otherwise any HTTPException is "not logged in" too. */
  function GetCurrentUserOptional<U>(token: Option<string>, codec: Codec, findById: Json -> Lookup<U>)
    : (r: Option<U>)
    ensures (token.None? || token.value == "") ==> r.None?
    ensures r.Some? <==>
      token.Some? && token.value != "" && GetUserFromToken(token.value, codec, findById).Ok?
    ensures r.Some? ==> r.value == GetUserFromToken(token.value, codec, findById).value
  {
    match token
    case None => None
    case Some(t) =>
      if t == "" then None
      else
        match GetUserFromToken(t, codec, findById)
        case Ok(user) => Some(user)
        case Err(_) => None
  }

  /** Without a token the answer is None whatever the codec and the database do. */
  lemma NoTokenNeverDecodes<U>(token: Option<string>, c1: Codec, c2: Codec,
                               f1: Json -> Lookup<U>, f2: Json -> Lookup<U>)
    requires token.None? || token.value == ""
    ensures GetCurrentUserOptional(token, c1, f1) == GetCurrentUserOptional(token, c2, f2) == None
  {
  }

  /** A missing subject is reported as a server error, not as 401. */
  lemma MissingSubjectIsServerError<U>(data: Claims, now: int, settings: Settings, codec: Codec,
                                       findById: Json -> Lookup<U>)
    requires RoundTrips(codec)
    requires Get(data, "sub") == JNull
    ensures GetUserFromToken(CreateAccessToken(data, now, settings, codec), codec, findById)
            == Err(InternalError)
  {
    var p := AccessClaims(data, now, settings);
    assert codec.decode(codec.encode(p)) == Some(p);
  }

  /** A signed token whose subject the database finds gives that user back,
      both from get_user_from_token and from get_current_user_optional. */
  lemma ValidTokenGivesUser<U>(data: Claims, now: int, settings: Settings, codec: Codec,
                               findById: Json -> Lookup<U>, user: U)
    requires RoundTrips(codec) && NonEmptyTokens(codec)
    requires "sub" in data && data["sub"] != JNull && findById(data["sub"]) == Found(user)
    ensures GetUserFromToken(CreateAccessToken(data, now, settings, codec), codec, findById) == Ok(user)
    ensures GetCurrentUserOptional(Some(CreateAccessToken(data, now, settings, codec)), codec, findById)
            == Some(user)
  {
    var p := AccessClaims(data, now, settings);
    assert codec.decode(codec.encode(p)) == Some(p);
    assert codec.encode(p) != "";
  }
}
