/** Account creation and password login (app/services/user_service.py) over
    a users table keyed by username. bcrypt is the two collaborators
    `hasher` (hash_password) and `verify` (verify_password); which of the
    session's calls raise is a `DbFaults`. */
module UserService {
  import opened Values

  datatype UserRecord = UserRecord(username: string, passwordHash: string)

  /** Which database calls raise: the existence query, db.add/db.commit, and
      db.refresh after a commit that went through. */
  datatype DbFaults = DbFaults(queryFails: bool, commitFails: bool, refreshFails: bool)

  const NoFaults := DbFaults(false, false, false)

  const CredentialsRequired := HttpError(400, "Username and password required")
  const CredentialsTooShort := HttpError(400, "Username ≥3, password ≥6 chars")
  const UsernameTaken := HttpError(400, "Username already exists")
  const InternalError := HttpError(500, "Internal server error")
  const InvalidCredentials := HttpError(401, "Invalid username or password")

  /** Whether create_user's insert is committed: the checks pass, the query
      works, the name is free and the commit goes through. A refresh that
      fails afterwards does not undo it. */
  predicate CreateUserCommits(users: map<string, UserRecord>, username: string, password: string,
                              faults: DbFaults)
  {
    |username| >= 3 && |password| >= 6 && !faults.queryFails && username !in users && !faults.commitFails
  }

  /** The outcome create_user promises: the first failing step wins, in the
      order empty, too short, query, taken, commit, refresh. The existence
      query sits outside the try block, so its failure is not turned into
      the handler's 500 and FastAPI answers its own. Success stores
      (username, hash(password)). */
  function CreateUserResult(users: map<string, UserRecord>, username: string, password: string,
                            hasher: string -> string, faults: DbFaults): (r: Result<UserRecord, HttpError>)
    ensures r.Ok? <==> CreateUserCommits(users, username, password, faults) && !faults.refreshFails
    ensures r.Ok? ==> r.value == UserRecord(username, hasher(password))
    ensures (username == "" || password == "") ==> r == Err(CredentialsRequired)
    ensures username != "" && password != "" && (|username| < 3 || |password| < 6)
            ==> r == Err(CredentialsTooShort)
    ensures |username| >= 3 && |password| >= 6 && faults.queryFails ==> r == Err(UnhandledError)
    ensures |username| >= 3 && |password| >= 6 && !faults.queryFails && username in users
            ==> r == Err(UsernameTaken)
    ensures (|username| >= 3 && |password| >= 6 && !faults.queryFails && username !in users &&
             (faults.commitFails || faults.refreshFails)) ==> r == Err(InternalError)
  {
    if username == "" || password == "" then Err(CredentialsRequired)
    else if |username| < 3 || |password| < 6 then Err(CredentialsTooShort)
    else if faults.queryFails then Err(UnhandledError)
    else if username in users then Err(UsernameTaken)
    else if faults.commitFails || faults.refreshFails then Err(InternalError)
    else Ok(UserRecord(username, hasher(password)))
  }

  /** The table the session writes to. */
  class UserTable {
    var users: map<string, UserRecord>

    /** Every stored record is filed under its own username. */
    ghost predicate Valid()
      reads this
    {
      forall name :: name in users ==> users[name].username == name
    }

    constructor ()
      ensures users == map[] && Valid()
    {
      users := map[];
    }

    /** create_user: validation, the existence query, then db.add + commit +
        refresh, or db.rollback and 500. The table gains the new record
        exactly when the commit goes through, even if the refresh after it
        fails; otherwise it is left as it was. */
    method CreateUser(username: string, password: string, hasher: string -> string, faults: DbFaults)
      returns (r: Result<UserRecord, HttpError>)
      requires Valid()
      modifies this
      ensures Valid()
      ensures r == CreateUserResult(old(users), username, password, hasher, faults)
      ensures CreateUserCommits(old(users), username, password, faults) ==>
        users == old(users)[username := UserRecord(username, hasher(password))] && username !in old(users)
      ensures !CreateUserCommits(old(users), username, password, faults) ==> users == old(users)
    {
      if username == "" || password == "" {
        return Err(CredentialsRequired);
      }
      if |username| < 3 || |password| < 6 {
        return Err(CredentialsTooShort);
      }
      if faults.queryFails {
        return Err(UnhandledError);
      }
      if username in users {
        return Err(UsernameTaken);
      }
      var before := users;
      var record := UserRecord(username, hasher(password));
      users := users[username := record];  // db.add
      if faults.commitFails {
        users := before;                   // db.rollback
        return Err(InternalError);
      }
      if faults.refreshFails {             // committed; the rollback finds nothing to undo
        return Err(InternalError);
      }
      r := Ok(record);
    }

    /** authenticate_user: a read-only lookup. An unknown user and a wrong
        password are the same 401; a failing query or verifier is a 500. */
    function Authenticate(username: string, password: string,
                          verify: (string, string) -> bool, queryFails: bool)
      : (r: Result<UserRecord, HttpError>)
      reads this
      ensures (username == "" || password == "") ==> r == Err(CredentialsRequired)
      ensures r.Ok? <==>
        username != "" && password != "" && !queryFails && username in users
        && verify(password, users[username].passwordHash)
      ensures r.Ok? ==> r.value == users[username]
      ensures username != "" && password != "" && !queryFails && r.Err? ==> r == Err(InvalidCredentials)
    {
      if username == "" || password == "" then Err(CredentialsRequired)
      else if queryFails then Err(InternalError)
      else if username !in users || !verify(password, users[username].passwordHash) then Err(InvalidCredentials)
      else Ok(users[username])
    }
  }

  /** A user who did not exist cannot log in with any password: the answer is
      the same 401 a wrong password gets, so the reason is not revealed. */
  lemma UnknownUserLooksLikeWrongPassword(t: UserTable, username: string, password: string,
                                          verify: (string, string) -> bool)
    requires username != "" && password != "" && username !in t.users
    ensures t.Authenticate(username, password, verify, false) == Err(InvalidCredentials)
  {
  }

  /** An account that create_user stored can log in with the same password,
      whenever bcrypt's verify accepts the hash that was stored. */
  lemma CreatedUserCanAuthenticate(t: UserTable, before: map<string, UserRecord>, username: string,
                                   password: string, hasher: string -> string,
                                   verify: (string, string) -> bool)
    requires CreateUserResult(before, username, password, hasher, NoFaults).Ok?
    requires t.users == before[username := CreateUserResult(before, username, password, hasher, NoFaults).value]
    requires verify(password, hasher(password))
    ensures t.Authenticate(username, password, verify, false) == Ok(UserRecord(username, hasher(password)))
  {
  }
}
