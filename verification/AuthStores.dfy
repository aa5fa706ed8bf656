/** Accounts, mailed codes and refresh tokens: the records and the in-memory repositories
    of `in_memory.rs`. Identifiers are naturals, instants are integers. */
module AuthStores {
  import opened Common

  type Uuid = nat

  /** SHA-256 seen as an injective function. */
  datatype Digest = Sha256(text: string)

  datatype PasswordHash = Argon2(password: string)

  datatype CodePurpose = Verify | Reset

  datatype User = User(id: Uuid, email: string, passwordHash: PasswordHash, emailVerifiedAt: Option<int>)

  datatype EmailVerification = EmailVerification(
    id: Uuid, userId: Uuid, purpose: CodePurpose, codeHash: Digest,
    expiresAt: int, attempts: nat, consumedAt: Option<int>, createdAt: int)
  {
    predicate IsExpired(now: int) { expiresAt <= now }
    predicate IsConsumed() { consumedAt.Some? }
    predicate IsExhausted() { attempts >= MAX_ATTEMPTS }
    predicate Matches(presented: string) { codeHash == CodeDigest(presented) }
    predicate LiveFor(user: Uuid, kind: CodePurpose) { userId == user && purpose == kind && !IsConsumed() }
    predicate IssuedAs(user: Uuid, kind: CodePurpose, digest: Digest)
    {
      userId == user && purpose == kind && codeHash == digest
    }
  }

  const MAX_ATTEMPTS: nat := 5

  datatype RefreshToken = RefreshToken(
    id: Uuid, userId: Uuid, familyId: Uuid, tokenHash: Digest,
    expiresAt: int, createdAt: int, consumedAt: Option<int>)
  {
    predicate IsConsumed() { consumedAt.Some? }
    predicate IsExpired(now: int) { expiresAt <= now }
  }

  type Users = map<Uuid, User>
  type Codes = map<Uuid, EmailVerification>
  type Tokens = map<Uuid, RefreshToken>

  function CodeDigest(plaintext: string): Digest { Sha256(RustTrim(plaintext)) }

  function TokenDigest(plaintext: string): Digest { Sha256(plaintext) }

  /** What the random generator and the clock supply for a new code. */
  datatype FreshCode = FreshCode(id: Uuid, plaintext: string, at: int)

  /** What they supply for a new token, and whether the access token beside it could be signed;
      `family` is used only when a family is opened. */
  datatype FreshToken = FreshToken(id: Uuid, family: Uuid, plaintext: string, at: int, signed: bool)

  function NewCode(user: Uuid, purpose: CodePurpose, draw: FreshCode, ttl: nat): EmailVerification
  {
    EmailVerification(draw.id, user, purpose, CodeDigest(draw.plaintext), draw.at + ttl, 0, None, draw.at)
  }

  function NewToken(user: Uuid, family: Uuid, draw: FreshToken, ttl: nat): RefreshToken
  {
    RefreshToken(draw.id, user, family, TokenDigest(draw.plaintext), draw.at + ttl, draw.at, None)
  }

  // ---------------------------------------------------------------- effects on the stores

  function ConsumeOne(c: EmailVerification, at: int): EmailVerification
  {
    if c.IsConsumed() then c else c.(consumedAt := Some(at))
  }

  /** A new code replaces the live codes of its user and purpose. */
  function CodeInserted(codes: Codes, code: EmailVerification): Codes
  {
    (map id | id in codes ::
      if codes[id].LiveFor(code.userId, code.purpose) then ConsumeOne(codes[id], code.createdAt) else codes[id])
      [code.id := code]
  }

  function AttemptRecorded(codes: Codes, id: Uuid): Codes
  {
    if id in codes then codes[id := codes[id].(attempts := codes[id].attempts + 1)] else codes
  }

  function CodeConsumed(codes: Codes, id: Uuid, at: int): Codes
  {
    if id in codes then codes[id := ConsumeOne(codes[id], at)] else codes
  }

  function CodesUnexpired(codes: Codes, now: int): Codes
  {
    map id | id in codes && !codes[id].IsExpired(now) :: codes[id]
  }

  function TokenConsumed(tokens: Tokens, id: Uuid, at: int): Tokens
  {
    if id in tokens then tokens[id := tokens[id].(consumedAt := Some(at))] else tokens
  }

  function WithoutFamily(tokens: Tokens, family: Uuid): Tokens
  {
    map id | id in tokens && tokens[id].familyId != family :: tokens[id]
  }

  function WithoutUser(tokens: Tokens, user: Uuid): Tokens
  {
    map id | id in tokens && tokens[id].userId != user :: tokens[id]
  }

  function TokensUnexpired(tokens: Tokens, now: int): Tokens
  {
    map id | id in tokens && !tokens[id].IsExpired(now) :: tokens[id]
  }

  function EmailVerified(users: Users, id: Uuid, at: int): Users
  {
    if id in users && users[id].emailVerifiedAt.None? then users[id := users[id].(emailVerifiedAt := Some(at))]
       else users
  }

  function PasswordUpdated(users: Users, id: Uuid, hash: PasswordHash): Users
  {
    if id in users then users[id := users[id].(passwordHash := hash)] else users
  }

  // ---------------------------------------------------------------- what a lookup may return

  /** A hash map's `find` returns any match; these say which answers are possible. */
  predicate FindsUser(users: Users, email: string, found: Option<User>)
  {
    match found
    case Some(u) => u.id in users && users[u.id] == u && u.email == email
    case None => forall id :: id in users ==> users[id].email != email
  }

  predicate FindsLive(codes: Codes, user: Uuid, purpose: CodePurpose, found: Option<EmailVerification>)
  {
    match found
    case Some(c) => c.id in codes && codes[c.id] == c && c.LiveFor(user, purpose)
    case None => forall id :: id in codes ==> !codes[id].LiveFor(user, purpose)
  }

  predicate WasIssued(codes: Codes, user: Uuid, purpose: CodePurpose, digest: Digest)
  {
    exists id :: id in codes && codes[id].IssuedAs(user, purpose, digest)
  }

  predicate FindsToken(tokens: Tokens, digest: Digest, found: Option<RefreshToken>)
  {
    match found
    case Some(t) => t.id in tokens && tokens[t.id] == t && t.tokenHash == digest
    case None => forall id :: id in tokens ==> tokens[id].tokenHash != digest
  }

  // ---------------------------------------------------------------- the repositories

  class UserRepository {
    var users: Users

    /** Entries are filed under their own id. */
    ghost predicate Valid()
      reads this
    {
      forall id :: id in users ==> users[id].id == id
    }

    method Insert(user: User)
      requires Valid()
      modifies this
      ensures Valid() && users == old(users)[user.id := user]
    {
      users := users[user.id := user];
    }

    method FindByEmail(email: string) returns (found: Option<User>)
      requires Valid()
      ensures FindsUser(users, email, found)
    {
      if exists id :: id in users && users[id].email == email {
        var id :| id in users && users[id].email == email;
        return Some(users[id]);
      }
      return None;
    }

    method MarkEmailVerified(id: Uuid, at: int)
      requires Valid()
      modifies this
      ensures Valid() && users == EmailVerified(old(users), id, at)
    {
      if id in users {
        var user := users[id];
        if user.emailVerifiedAt.None? {
          user := user.(emailVerifiedAt := Some(at));
        }
        users := users[id := user];
      }
    }

    method UpdatePasswordHash(id: Uuid, hash: PasswordHash)
      requires Valid()
      modifies this
      ensures Valid() && users == PasswordUpdated(old(users), id, hash)
    {
      if id in users {
        users := users[id := users[id].(passwordHash := hash)];
      }
    }
  }

  class EmailVerificationRepository {
    var codes: Codes

    ghost predicate Valid()
      reads this
    {
      forall id :: id in codes ==> codes[id].id == id
    }

    /** The loop consumes the live codes of the same user and purpose before the new one goes in. */
    method Insert(verification: EmailVerification)
      requires Valid()
      modifies this
      ensures Valid() && codes == CodeInserted(old(codes), verification)
    {
      var pending := codes.Keys;
      while pending != {}
        invariant Valid() && pending <= codes.Keys == old(codes).Keys
        invariant forall id :: id in pending ==> codes[id] == old(codes)[id]
        invariant forall id :: id in codes && id !in pending ==>
                    codes[id] == if old(codes)[id].LiveFor(verification.userId, verification.purpose)
                                 then ConsumeOne(old(codes)[id], verification.createdAt) else old(codes)[id]
        decreases |pending|
      {
        var id :| id in pending;
        var existing := codes[id];
        if existing.userId == verification.userId && existing.purpose == verification.purpose
           && !existing.IsConsumed() {
          codes := codes[id := existing.(consumedAt := Some(verification.createdAt))];
        }
        pending := pending - {id};
      }
      codes := codes[verification.id := verification];
    }

    method ActiveForUser(user: Uuid, purpose: CodePurpose) returns (found: Option<EmailVerification>)
      requires Valid()
      ensures FindsLive(codes, user, purpose, found)
    {
      if exists id :: id in codes && codes[id].LiveFor(user, purpose) {
        var id :| id in codes && codes[id].LiveFor(user, purpose);
        return Some(codes[id]);
      }
      return None;
    }

    method FindByHash(user: Uuid, purpose: CodePurpose, digest: Digest) returns (found: Option<EmailVerification>)
      requires Valid()
      ensures found.Some? <==> WasIssued(codes, user, purpose, digest)
      ensures found.Some? ==> found.value.id in codes && codes[found.value.id] == found.value
                              && found.value.IssuedAs(user, purpose, digest)
    {
      if exists id :: id in codes && codes[id].IssuedAs(user, purpose, digest) {
        var id :| id in codes && codes[id].IssuedAs(user, purpose, digest);
        return Some(codes[id]);
      }
      return None;
    }

    method RecordAttempt(id: Uuid)
      requires Valid()
      modifies this
      ensures Valid() && codes == AttemptRecorded(old(codes), id)
    {
      if id in codes {
        codes := codes[id := codes[id].(attempts := codes[id].attempts + 1)];
      }
    }

    method MarkConsumed(id: Uuid, at: int)
      requires Valid()
      modifies this
      ensures Valid() && codes == CodeConsumed(old(codes), id, at)
    {
      if id in codes {
        var code := codes[id];
        if code.consumedAt.None? {
          code := code.(consumedAt := Some(at));
        }
        codes := codes[id := code];
      }
    }

    method DeleteExpired(now: int) returns (removed: nat)
      requires Valid()
      modifies this
      ensures Valid() && codes == CodesUnexpired(old(codes), now)
      ensures removed == |old(codes)| - |codes|
    {
      var before := |codes|;
      ghost var keys := codes.Keys;
      codes := map id | id in codes && codes[id].expiresAt > now :: codes[id];
      SubsetSize(codes.Keys, keys);
      removed := before - |codes|;
    }
  }

  class RefreshTokenRepository {
    var tokens: Tokens

    ghost predicate Valid()
      reads this
    {
      forall id :: id in tokens ==> tokens[id].id == id
    }

    method Insert(token: RefreshToken)
      requires Valid()
      modifies this
      ensures Valid() && tokens == old(tokens)[token.id := token]
    {
      tokens := tokens[token.id := token];
    }

    method FindByHash(digest: Digest) returns (found: Option<RefreshToken>)
      requires Valid()
      ensures FindsToken(tokens, digest, found)
    {
      if exists id :: id in tokens && tokens[id].tokenHash == digest {
        var id :| id in tokens && tokens[id].tokenHash == digest;
        return Some(tokens[id]);
      }
      return None;
    }

    method MarkConsumed(id: Uuid, at: int)
      requires Valid()
      modifies this
      ensures Valid() && tokens == TokenConsumed(old(tokens), id, at)
    {
      if id in tokens {
        tokens := tokens[id := tokens[id].(consumedAt := Some(at))];
      }
    }

    method Delete(id: Uuid)
      requires Valid()
      modifies this
      ensures Valid() && tokens == old(tokens) - {id}
    {
      tokens := tokens - {id};
    }

    method DeleteForUser(user: Uuid)
      requires Valid()
      modifies this
      ensures Valid() && tokens == WithoutUser(old(tokens), user)
    {
      tokens := map id | id in tokens && tokens[id].userId != user :: tokens[id];
    }

    method DeleteFamily(family: Uuid)
      requires Valid()
      modifies this
      ensures Valid() && tokens == WithoutFamily(old(tokens), family)
    {
      tokens := map id | id in tokens && tokens[id].familyId != family :: tokens[id];
    }

    method DeleteExpired(now: int) returns (removed: nat)
      requires Valid()
      modifies this
      ensures Valid() && tokens == TokensUnexpired(old(tokens), now)
      ensures removed == |old(tokens)| - |tokens|
    {
      var before := |tokens|;
      ghost var keys := tokens.Keys;
      tokens := map id | id in tokens && !tokens[id].IsExpired(now) :: tokens[id];
      SubsetSize(tokens.Keys, keys);
      removed := before - |tokens|;
    }
  }
}
