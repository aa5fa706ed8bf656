/** The sign-in use cases: registration, mailed codes, password reset, refresh-token rotation. */
module AuthFlows {
  import opened Common
  import opened AuthStores

  /** The three stores together. */
  datatype Auth = Auth(users: Users, codes: Codes, tokens: Tokens)

  datatype Reason =
    | InvalidCode | Superseded | Expired | TooManyAttempts | PasswordTooShort
    | InvalidToken | InvalidCredentials | InvalidEmail | EmailTaken | Undelivered | SigningFailed

  /** The access token is the user it was signed for. */
  datatype SessionTokens = SessionTokens(user: Uuid, refreshToken: string)

  /** In bytes. */
  const MIN_PASSWORD_LENGTH: nat := 8

  /** The refresh token is stored before the access token is signed, so a failure to sign leaves it. */
  function Session(user: Uuid, draw: FreshToken): Result<SessionTokens, Reason>
  {
    if draw.signed then Ok(SessionTokens(user, draw.plaintext)) else Err(SigningFailed)
  }

  function NormalEmail(email: string): string { Lower(RustTrim(email)) }

  function Registered(users: Users, found: Option<User>, email: string, password: string, id: Uuid)
    : (Users, Result<User, Reason>)
  {
    var normal := NormalEmail(email);
    if '@' !in normal || Utf8Length(normal) < 3 then (users, Err(InvalidEmail))
    else if Utf8Length(password) < MIN_PASSWORD_LENGTH then (users, Err(PasswordTooShort))
    else if found.Some? then (users, Err(EmailTaken))
    else
      var user := User(id, normal, Argon2(password), None);
      (users[id := user], Ok(user))
  }

  // ---------------------------------------------------------------- presenting a code

  /** The verdict on a presented code; `None` accepts it. */
  function Judge(codes: Codes, user: Uuid, purpose: CodePurpose, active: Option<EmailVerification>, code: string,
                 now: int): Option<Reason>
  {
    var stale := if WasIssued(codes, user, purpose, CodeDigest(code)) then Superseded else InvalidCode;
    match active
    case None => Some(stale)
    case Some(record) =>
      if record.IsExhausted() then Some(TooManyAttempts)
      else if record.IsExpired(now) then Some(Expired)
      else if !record.Matches(code) then Some(stale)
      else None
  }

  /** Only a wrong guess against a live code is charged to it; an accepted code is spent. */
  function CodesAfter(codes: Codes, active: Option<EmailVerification>, verdict: Option<Reason>, now: int): Codes
  {
    match active
    case None => codes
    case Some(record) =>
      if verdict.None? then CodeConsumed(codes, record.id, now)
      else if verdict == Some(InvalidCode) then AttemptRecorded(codes, record.id)
      else codes
  }

  function Issued(a: Auth, user: Uuid, purpose: CodePurpose, draw: FreshCode, ttl: nat): Auth
  {
    a.(codes := CodeInserted(a.codes, NewCode(user, purpose, draw, ttl)))
  }

  function Opened(tokens: Tokens, user: Uuid, draw: FreshToken, ttl: nat): Tokens
  {
    tokens[draw.id := NewToken(user, draw.family, draw, ttl)]
  }

  function Confirmed(a: Auth, found: Option<User>, active: Option<EmailVerification>, code: string, now: int,
                     draw: FreshToken, ttl: nat): (Auth, Result<SessionTokens, Reason>)
  {
    match found
    case None => (a, Err(InvalidCode))
    case Some(user) =>
      var verdict := Judge(a.codes, user.id, Verify, active, code, now);
      var codes := CodesAfter(a.codes, active, verdict, now);
      match verdict
      case Some(reason) => (a.(codes := codes), Err(reason))
      case None =>
        (Auth(EmailVerified(a.users, user.id, now), codes, Opened(a.tokens, user.id, draw, ttl)),
         Session(user.id, draw))
  }

  function PasswordReset(a: Auth, found: Option<User>, active: Option<EmailVerification>, code: string,
                         password: string, now: int, draw: FreshToken, ttl: nat): (Auth, Result<SessionTokens, Reason>)
  {
    if Utf8Length(password) < MIN_PASSWORD_LENGTH then (a, Err(PasswordTooShort))
    else match found
      case None => (a, Err(InvalidCode))
      case Some(user) =>
        var verdict := Judge(a.codes, user.id, CodePurpose.Reset, active, code, now);
        var codes := CodesAfter(a.codes, active, verdict, now);
        match verdict
        case Some(reason) => (a.(codes := codes), Err(reason))
        case None =>
          (Auth(EmailVerified(PasswordUpdated(a.users, user.id, Argon2(password)), user.id, now), codes,
                Opened(WithoutUser(a.tokens, user.id), user.id, draw, ttl)),
           Session(user.id, draw))
  }

  /** Rotation with reuse detection. */
  function Rotated(tokens: Tokens, stored: Option<RefreshToken>, checkedAt: int, markedAt: int, draw: FreshToken,
                   ttl: nat): (Tokens, Result<SessionTokens, Reason>)
  {
    match stored
    case None => (tokens, Err(InvalidToken))
    case Some(t) =>
      if t.IsConsumed() then (WithoutFamily(tokens, t.familyId), Err(InvalidToken))
      else if t.IsExpired(checkedAt) then (tokens - {t.id}, Err(InvalidToken))
      else
        (TokenConsumed(tokens, t.id, markedAt)[draw.id := NewToken(t.userId, t.familyId, draw, ttl)],
         Session(t.userId, draw))
  }

  function Revoked(tokens: Tokens, stored: Option<RefreshToken>): Tokens
  {
    match stored
    case None => tokens
    case Some(t) => WithoutFamily(tokens, t.familyId)
  }

  // ---------------------------------------------------------------- the use cases

  class SessionIssuer {
    const refreshTokens: RefreshTokenRepository
    const refreshTtl: nat

    constructor (tokens: RefreshTokenRepository, ttl: nat)
      ensures refreshTokens == tokens && refreshTtl == ttl
    {
      refreshTokens, refreshTtl := tokens, ttl;
    }

    /** A family of one token, for a user the caller vouches for. */
    method Issue(user: Uuid, draw: FreshToken) returns (session: Result<SessionTokens, Reason>)
      requires refreshTokens.Valid()
      modifies refreshTokens
      ensures refreshTokens.Valid()
      ensures refreshTokens.tokens == Opened(old(refreshTokens.tokens), user, draw, refreshTtl)
      ensures session == Session(user, draw)
    {
      refreshTokens.Insert(NewToken(user, draw.family, draw, refreshTtl));
      session := if draw.signed then Ok(SessionTokens(user, draw.plaintext)) else Err(SigningFailed);
    }
  }

  class RegisterUser {
    const users: UserRepository

    constructor (repository: UserRepository)
      ensures users == repository
    {
      users := repository;
    }

    method Execute(email: string, password: string, id: Uuid) returns (r: Result<User, Reason>)
      requires users.Valid()
      modifies users
      ensures users.Valid()
      ensures exists found :: FindsUser(old(users.users), NormalEmail(email), found)
                              && (users.users, r) == Registered(old(users.users), found, email, password, id)
    {
      ghost var before := users.users;
      ghost var answer := SomeFinding(before, NormalEmail(email));
      var normal := NormalEmail(email);
      if '@' !in normal || Utf8Length(normal) < 3 {
        assert (users.users, Err(InvalidEmail)) == Registered(before, answer, email, password, id);
        return Err(InvalidEmail);
      }
      if Utf8Length(password) < MIN_PASSWORD_LENGTH {
        assert (users.users, Err(PasswordTooShort)) == Registered(before, answer, email, password, id);
        return Err(PasswordTooShort);
      }
      var found := users.FindByEmail(normal);
      if found.Some? {
        return Err(EmailTaken);
      }
      var user := User(id, normal, Argon2(password), None);
      users.Insert(user);
      r := Ok(user);
    }
  }

  /** Every lookup has a possible answer. */
  lemma SomeFinding(users: Users, email: string) returns (found: Option<User>)
    requires forall id :: id in users ==> users[id].id == id
    ensures FindsUser(users, email, found)
  {
    if id :| id in users && users[id].email == email {
      found := Some(users[id]);
    } else {
      found := None;
    }
  }

  class LoginUser {
    const users: UserRepository

    constructor (repository: UserRepository)
      ensures users == repository
    {
      users := repository;
    }

    /** Checks the password and signs nobody in. */
    method Execute(email: string, password: string) returns (r: Result<User, Reason>)
      requires users.Valid()
      ensures exists found :: FindsUser(users.users, NormalEmail(email), found)
                              && r == if found.Some? && found.value.passwordHash == Argon2(password)
                                      then Ok(found.value) else Err(InvalidCredentials)
    {
      var found := users.FindByEmail(NormalEmail(email));
      if found.Some? && found.value.passwordHash == Argon2(password) {
        r := Ok(found.value);
      } else {
        r := Err(InvalidCredentials);
      }
    }
  }

  class RequestEmailVerification {
    const users: UserRepository
    const verifications: EmailVerificationRepository
    const ttl: nat

    constructor (repository: UserRepository, codes: EmailVerificationRepository, ttlMinutes: nat)
      ensures users == repository && verifications == codes && ttl == ttlMinutes
    {
      users, verifications, ttl := repository, codes, ttlMinutes;
    }

    /** A failed delivery leaves the code in the store. */
    method IssueFor(user: User, draw: FreshCode, delivered: bool) returns (r: Result<string, Reason>)
      requires verifications.Valid()
      modifies verifications
      ensures verifications.Valid()
      ensures verifications.codes == CodeInserted(old(verifications.codes), NewCode(user.id, Verify, draw, ttl))
      ensures r == if delivered then Ok(draw.plaintext) else Err(Undelivered)
    {
      verifications.Insert(NewCode(user.id, Verify, draw, ttl));
      r := if delivered then Ok(draw.plaintext) else Err(Undelivered);
    }

    /** Nothing is sent to an address that is unknown or verified. */
    method Execute(email: string, draw: FreshCode, delivered: bool)
      returns (r: Result<Option<string>, Reason>, ghost found: Option<User>)
      requires users.Valid() && verifications.Valid()
      modifies verifications
      ensures verifications.Valid() && FindsUser(users.users, NormalEmail(email), found)
      ensures var sends := found.Some? && found.value.emailVerifiedAt.None?;
              && verifications.codes
                   == (if sends then CodeInserted(old(verifications.codes), NewCode(found.value.id, Verify, draw, ttl))
                                         else old(verifications.codes))
              && r == if !sends then Ok(None) else if delivered then Ok(Some(draw.plaintext)) else Err(Undelivered)
    {
      var user := users.FindByEmail(NormalEmail(email));
      found := user;
      if user.None? || user.value.emailVerifiedAt.Some? {
        return Ok(None), found;
      }
      var sent := IssueFor(user.value, draw, delivered);
      match sent
      case Ok(code) => r := Ok(Some(code));
      case Err(reason) => r := Err(reason);
    }
  }

  class ConfirmEmailVerification {
    const users: UserRepository
    const verifications: EmailVerificationRepository
    const sessions: SessionIssuer

    constructor (repository: UserRepository, codes: EmailVerificationRepository, issuer: SessionIssuer)
      ensures users == repository && verifications == codes && sessions == issuer
    {
      users, verifications, sessions := repository, codes, issuer;
    }

    ghost function State(): Auth
      reads users, verifications, sessions.refreshTokens
    {
      Auth(users.users, verifications.codes, sessions.refreshTokens.tokens)
    }

    ghost predicate Valid()
      reads users, verifications, sessions.refreshTokens
    {
      users.Valid() && verifications.Valid() && sessions.refreshTokens.Valid()
    }

    method StaleOrInvalid(user: User, code: string) returns (reason: Reason)
      requires Valid()
      ensures reason == if WasIssued(verifications.codes, user.id, Verify, CodeDigest(code)) then Superseded
              else InvalidCode
    {
      var earlier := verifications.FindByHash(user.id, Verify, CodeDigest(code));
      reason := if earlier.Some? then Superseded else InvalidCode;
    }

    /** An accepted code is spent, the address counts as verified, and a family is opened. */
    method Execute(email: string, code: string, now: int, draw: FreshToken)
      returns (r: Result<SessionTokens, Reason>, ghost found: Option<User>, ghost active: Option<EmailVerification>)
      requires Valid()
      modifies users, verifications, sessions.refreshTokens
      ensures Valid()
      ensures FindsUser(old(users.users), NormalEmail(email), found)
      ensures found.Some? ==> FindsLive(old(verifications.codes), found.value.id, Verify, active)
      ensures (State(), r) == Confirmed(old(State()), found, active, code, now, draw, sessions.refreshTtl)
    {
      active := None;
      var user := users.FindByEmail(NormalEmail(email));
      found := user;
      if user.None? {
        return Err(InvalidCode), found, active;
      }
      var record := verifications.ActiveForUser(user.value.id, Verify);
      active := record;
      if record.None? {
        var stale := StaleOrInvalid(user.value, code);
        return Err(stale), found, active;
      }
      if record.value.IsExhausted() {
        return Err(TooManyAttempts), found, active;
      }
      if record.value.IsExpired(now) {
        return Err(Expired), found, active;
      }
      if !record.value.Matches(code) {
        var stale := StaleOrInvalid(user.value, code);
        if stale == InvalidCode {
          verifications.RecordAttempt(record.value.id);
        }
        return Err(stale), found, active;
      }
      verifications.MarkConsumed(record.value.id, now);
      users.MarkEmailVerified(user.value.id, now);
      r := sessions.Issue(user.value.id, draw);
    }
  }

  class RequestPasswordReset {
    const users: UserRepository
    const codes: EmailVerificationRepository
    const ttl: nat

    constructor (repository: UserRepository, verifications: EmailVerificationRepository, ttlMinutes: nat)
      ensures users == repository && codes == verifications && ttl == ttlMinutes
    {
      users, codes, ttl := repository, verifications, ttlMinutes;
    }

    method Execute(email: string, draw: FreshCode, delivered: bool)
      returns (r: Result<Option<string>, Reason>, ghost found: Option<User>)
      requires users.Valid() && codes.Valid()
      modifies codes
      ensures codes.Valid() && FindsUser(users.users, NormalEmail(email), found)
      ensures codes.codes
                == (if found.Some?
                       then CodeInserted(old(codes.codes), NewCode(found.value.id, CodePurpose.Reset, draw, ttl))
                              else old(codes.codes))
      ensures r == if found.None? then Ok(None) else if delivered then Ok(Some(draw.plaintext)) else Err(Undelivered)
    {
      var user := users.FindByEmail(NormalEmail(email));
      found := user;
      if user.None? {
        return Ok(None), found;
      }
      codes.Insert(NewCode(user.value.id, CodePurpose.Reset, draw, ttl));
      r := if delivered then Ok(Some(draw.plaintext)) else Err(Undelivered);
    }
  }

  class ResetPassword {
    const users: UserRepository
    const codes: EmailVerificationRepository
    const refreshTokens: RefreshTokenRepository
    const sessions: SessionIssuer

    constructor (repository: UserRepository, verifications: EmailVerificationRepository, tokens: RefreshTokenRepository,
                 issuer: SessionIssuer)
      ensures users == repository && codes == verifications && refreshTokens == tokens && sessions == issuer
    {
      users, codes, refreshTokens, sessions := repository, verifications, tokens, issuer;
    }

    ghost function State(): Auth
      reads users, codes, refreshTokens
    {
      Auth(users.users, codes.codes, refreshTokens.tokens)
    }

    ghost predicate Valid()
      reads users, codes, refreshTokens
    {
      users.Valid() && codes.Valid() && refreshTokens.Valid() && sessions.refreshTokens == refreshTokens
    }

    method Execute(email: string, code: string, newPassword: string, now: int, draw: FreshToken)
      returns (r: Result<SessionTokens, Reason>, ghost found: Option<User>, ghost active: Option<EmailVerification>)
      requires Valid()
      modifies users, codes, refreshTokens
      ensures Valid()
      ensures Utf8Length(newPassword) >= MIN_PASSWORD_LENGTH ==> FindsUser(old(users.users), NormalEmail(email), found)
      ensures found.Some? ==> FindsLive(old(codes.codes), found.value.id, CodePurpose.Reset, active)
      ensures (State(), r)
                 == PasswordReset(old(State()), found, active, code, newPassword, now, draw, sessions.refreshTtl)
    {
      found, active := None, None;
      if Utf8Length(newPassword) < MIN_PASSWORD_LENGTH {
        return Err(PasswordTooShort), found, active;
      }
      var user := users.FindByEmail(NormalEmail(email));
      found := user;
      if user.None? {
        return Err(InvalidCode), found, active;
      }
      var record := codes.ActiveForUser(user.value.id, CodePurpose.Reset);
      active := record;
      if record.None? {
        var earlier := codes.FindByHash(user.value.id, CodePurpose.Reset, CodeDigest(code));
        return Err(if earlier.Some? then Superseded else InvalidCode), found, active;
      }
      if record.value.IsExhausted() {
        return Err(TooManyAttempts), found, active;
      }
      if record.value.IsExpired(now) {
        return Err(Expired), found, active;
      }
      if !record.value.Matches(code) {
        var earlier := codes.FindByHash(user.value.id, CodePurpose.Reset, CodeDigest(code));
        if earlier.Some? {
          return Err(Superseded), found, active;
        }
        codes.RecordAttempt(record.value.id);
        return Err(InvalidCode), found, active;
      }
      codes.MarkConsumed(record.value.id, now);
      users.UpdatePasswordHash(user.value.id, Argon2(newPassword));
      users.MarkEmailVerified(user.value.id, now);
      refreshTokens.DeleteForUser(user.value.id);
      r := sessions.Issue(user.value.id, draw);
    }
  }

  class RefreshSession {
    const refreshTokens: RefreshTokenRepository
    const refreshTtl: nat

    constructor (tokens: RefreshTokenRepository, ttl: nat)
      ensures refreshTokens == tokens && refreshTtl == ttl
    {
      refreshTokens, refreshTtl := tokens, ttl;
    }

    method Rotate(presented: string, checkedAt: int, markedAt: int, draw: FreshToken)
      returns (r: Result<SessionTokens, Reason>, ghost stored: Option<RefreshToken>)
      requires refreshTokens.Valid()
      modifies refreshTokens
      ensures refreshTokens.Valid() && FindsToken(old(refreshTokens.tokens), TokenDigest(presented), stored)
      ensures (refreshTokens.tokens, r)
                 == Rotated(old(refreshTokens.tokens), stored, checkedAt, markedAt, draw, refreshTtl)
    {
      var found := refreshTokens.FindByHash(TokenDigest(presented));
      stored := found;
      if found.None? {
        return Err(InvalidToken), stored;
      }
      var t := found.value;
      if t.IsConsumed() {
        refreshTokens.DeleteFamily(t.familyId);
        return Err(InvalidToken), stored;
      }
      if t.IsExpired(checkedAt) {
        refreshTokens.Delete(t.id);
        return Err(InvalidToken), stored;
      }
      refreshTokens.MarkConsumed(t.id, markedAt);
      refreshTokens.Insert(NewToken(t.userId, t.familyId, draw, refreshTtl));
      r := Session(t.userId, draw);
    }

    method Revoke(presented: string) returns (ghost stored: Option<RefreshToken>)
      requires refreshTokens.Valid()
      modifies refreshTokens
      ensures refreshTokens.Valid() && FindsToken(old(refreshTokens.tokens), TokenDigest(presented), stored)
      ensures refreshTokens.tokens == Revoked(old(refreshTokens.tokens), stored)
    {
      var found := refreshTokens.FindByHash(TokenDigest(presented));
      stored := found;
      if found.Some? {
        refreshTokens.DeleteFamily(found.value.familyId);
      }
    }
  }
}
