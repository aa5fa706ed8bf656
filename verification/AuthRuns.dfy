/** Whole runs of the sign-in machinery: any mix of registrations, logins, mailed codes,
    resets, rotations, logouts and purges, one use case per step. */
module AuthRuns {
  import opened Common
  import opened AuthStores
  import opened AuthFlows

  /** One use case with everything the outside supplies: the request, the clock, the drawn
      identifiers and secrets, and what the store lookups returned. */
  datatype Event =
    | Register(email: string, password: string, id: Uuid, found: Option<User>, draw: FreshCode)
    | Login(email: string, password: string, found: Option<User>, draw: FreshCode)
    | Resend(email: string, found: Option<User>, draw: FreshCode)
    | RequestReset(email: string, found: Option<User>, draw: FreshCode)
    | Confirm(email: string, code: string, found: Option<User>, active: Option<EmailVerification>, now: int,
              token: FreshToken)
    | ResetWith(email: string, code: string, password: string, found: Option<User>, active: Option<EmailVerification>,
                now: int, token: FreshToken)
    | Rotate(presented: string, stored: Option<RefreshToken>, checkedAt: int, markedAt: int, token: FreshToken)
    | Logout(presented: string, stored: Option<RefreshToken>)
    | PurgeTokens(now: int)
    | PurgeCodes(now: int)

  datatype Ttls = Ttls(code: nat, token: nat)

  /** Who asked for which kind of code, if the event sends one. */
  function Sends(a: Auth, e: Event): Option<(Uuid, CodePurpose)>
  {
    match e
    case Register(email, password, id, found, draw) =>
      if Registered(a.users, found, email, password, id).1.Ok? then Some((id, Verify)) else None
    case Login(email, password, found, draw) =>
      if found.Some? && found.value.passwordHash == Argon2(password) then Some((found.value.id, Verify)) else None
    case Resend(email, found, draw) =>
      if found.Some? && found.value.emailVerifiedAt.None? then Some((found.value.id, Verify)) else None
    case RequestReset(email, found, draw) =>
      if found.Some? then Some((found.value.id, CodePurpose.Reset)) else None
    case _ => None
  }

  function PurposeOf(e: Event): CodePurpose
  {
    if e.ResetWith? || e.RequestReset? then CodePurpose.Reset else Verify
  }

  predicate PresentsCode(e: Event) { e.Confirm? || e.ResetWith? }

  /** The refusal of a presented code; `None` means it was accepted. */
  function Refusal(a: Auth, e: Event): Option<Reason>
    requires PresentsCode(e)
  {
    if e.ResetWith? && Utf8Length(e.password) < MIN_PASSWORD_LENGTH then Some(PasswordTooShort)
    else if e.found.None? then Some(InvalidCode)
    else Judge(a.codes, e.found.value.id, PurposeOf(e), e.active, e.code, e.now)
  }

  predicate SignsIn(a: Auth, e: Event)
  {
    PresentsCode(e) && Refusal(a, e).None?
  }

  predicate ChargesGuess(a: Auth, e: Event)
  {
    PresentsCode(e) && e.found.Some? && e.active.Some? && Refusal(a, e) == Some(InvalidCode)
  }

  predicate Rotates(e: Event)
  {
    e.Rotate? && e.stored.Some? && !e.stored.value.IsConsumed() && !e.stored.value.IsExpired(e.checkedAt)
  }

  /** A consumed token came back: the family dies. */
  predicate Replays(e: Event)
  {
    e.Rotate? && e.stored.Some? && e.stored.value.IsConsumed()
  }

  function NextUsers(a: Auth, e: Event): Users
  {
    if e.Register? then Registered(a.users, e.found, e.email, e.password, e.id).0
    else if SignsIn(a, e) then
      var users := if e.ResetWith? then PasswordUpdated(a.users, e.found.value.id, Argon2(e.password)) else a.users;
      EmailVerified(users, e.found.value.id, e.now)
    else a.users
  }

  function NextCodes(a: Auth, e: Event, ttl: nat): Codes
  {
    if Sends(a, e).Some? then CodeInserted(a.codes, NewCode(Sends(a, e).value.0, Sends(a, e).value.1, e.draw, ttl))
    else if SignsIn(a, e) then CodeConsumed(a.codes, e.active.value.id, e.now)
    else if ChargesGuess(a, e) then AttemptRecorded(a.codes, e.active.value.id)
    else if e.PurgeCodes? then CodesUnexpired(a.codes, e.now)
    else a.codes
  }

  function NextTokens(a: Auth, e: Event, ttl: nat): Tokens
  {
    if SignsIn(a, e) then
      Opened(if e.ResetWith? then WithoutUser(a.tokens, e.found.value.id) else a.tokens, e.found.value.id, e.token, ttl)
    else if e.Rotate? then Rotated(a.tokens, e.stored, e.checkedAt, e.markedAt, e.token, ttl).0
    else if e.Logout? then Revoked(a.tokens, e.stored)
    else if e.PurgeTokens? then TokensUnexpired(a.tokens, e.now)
    else a.tokens
  }

  function Next(a: Auth, e: Event, ttls: Ttls): Auth
  {
    Auth(NextUsers(a, e), NextCodes(a, e, ttls.code), NextTokens(a, e, ttls.token))
  }

  /** A step is what the use case computes: same stores, same answer. */
  lemma StepIsTheUseCase(a: Auth, e: Event, ttls: Ttls)
    ensures e.Confirm? ==>
              var (after, answer) := Confirmed(a, e.found, e.active, e.code, e.now, e.token, ttls.token);
              Next(a, e, ttls) == after
              && answer == if SignsIn(a, e) then Session(e.found.value.id, e.token) else Err(Refusal(a, e).value)
    ensures e.ResetWith? ==>
              var (after, answer) :=
                     PasswordReset(a, e.found, e.active, e.code, e.password, e.now, e.token, ttls.token);
              Next(a, e, ttls) == after
              && answer == if SignsIn(a, e) then Session(e.found.value.id, e.token) else Err(Refusal(a, e).value)
    ensures e.Rotate? ==>
              var (tokens, answer) := Rotated(a.tokens, e.stored, e.checkedAt, e.markedAt, e.token, ttls.token);
              Next(a, e, ttls) == a.(tokens := tokens)
              && answer == if Rotates(e) then Session(e.stored.value.userId, e.token) else Err(InvalidToken)
    ensures e.Logout? ==> Next(a, e, ttls) == a.(tokens := Revoked(a.tokens, e.stored))
    ensures e.Register? ==>
              var (users, answer) := Registered(a.users, e.found, e.email, e.password, e.id);
              Next(a, e, ttls) == if answer.Ok? then Issued(a.(users := users), e.id, Verify, e.draw, ttls.code) else a
    ensures e.Login? || e.Resend? || e.RequestReset? ==>
              Next(a, e, ttls) == match Sends(a, e)
                                  case Some(to) => Issued(a, to.0, to.1, e.draw, ttls.code)
                                  case None => a
    ensures e.PurgeCodes? ==> Next(a, e, ttls) == a.(codes := CodesUnexpired(a.codes, e.now))
    ensures e.PurgeTokens? ==> Next(a, e, ttls) == a.(tokens := TokensUnexpired(a.tokens, e.now))
  {
  }

  // ---------------------------------------------------------------- the history kept beside the stores

  datatype Issue = Issue(user: Uuid, purpose: CodePurpose, digest: Digest)

  datatype Opening = Opening(user: Uuid, code: Uuid)

  /** The stores, and what has happened so far: identifiers and secrets drawn, codes ever issued,
      families ever opened and by which code, secrets ever rotated, guesses ever charged. */
  datatype World = World(
    auth: Auth, ids: set<Uuid>, secrets: set<string>, issued: map<Uuid, Issue>,
    families: map<Uuid, Opening>, rotated: seq<string>, charged: map<Uuid, nat>)

  function Charges(charged: map<Uuid, nat>, id: Uuid): nat
  {
    if id in charged then charged[id] else 0
  }

  function DrawnIds(e: Event): seq<Uuid>
  {
    match e
    case Register(_, _, id, _, draw) => [id, draw.id]
    case Login(_, _, _, draw) => [draw.id]
    case Resend(_, _, draw) => [draw.id]
    case RequestReset(_, _, draw) => [draw.id]
    case Confirm(_, _, _, _, _, token) => [token.id, token.family]
    case ResetWith(_, _, _, _, _, _, token) => [token.id, token.family]
    case Rotate(_, _, _, _, token) => [token.id, token.family]
    case _ => []
  }

  function DrawnSecrets(e: Event): set<string>
  {
    if e.Confirm? || e.ResetWith? || e.Rotate? then {e.token.plaintext} else {}
  }

  /** Draws are new, and lookups answered with something the stores could return. */
  predicate Enabled(w: World, e: Event)
  {
    && Distinct(DrawnIds(e))
    && (forall id :: id in DrawnIds(e) ==> id !in w.ids)
    && DrawnSecrets(e) !! w.secrets
    && (e.Register? || e.Login? || e.Resend? || e.RequestReset? || e.Confirm? || e.ResetWith? ==>
          FindsUser(w.auth.users, NormalEmail(e.email), e.found))
    && (e.Confirm? && e.found.Some? ==> FindsLive(w.auth.codes, e.found.value.id, Verify, e.active))
    && (e.ResetWith? && e.found.Some? ==> FindsLive(w.auth.codes, e.found.value.id, CodePurpose.Reset, e.active))
    && (e.Rotate? || e.Logout? ==> FindsToken(w.auth.tokens, TokenDigest(e.presented), e.stored))
  }

  function Advance(w: World, e: Event, ttls: Ttls): World
    requires Enabled(w, e)
  {
    var sends := Sends(w.auth, e);
    World(
      Next(w.auth, e, ttls),
      w.ids + (set id | id in DrawnIds(e)),
      w.secrets + DrawnSecrets(e),
      if sends.Some? then w.issued[e.draw.id := Issue(sends.value.0, sends.value.1, CodeDigest(e.draw.plaintext))]
         else w.issued,
      if SignsIn(w.auth, e) then w.families[e.token.family := Opening(e.found.value.id, e.active.value.id)]
         else w.families,
      if Rotates(e) then w.rotated + [e.presented] else w.rotated,
      if ChargesGuess(w.auth, e) then w.charged[e.active.value.id := Charges(w.charged, e.active.value.id) + 1]
         else w.charged)
  }

  function Initial(): World
  {
    World(Auth(map[], map[], map[]), {}, {}, map[], map[], [], map[])
  }

  predicate Legal(events: seq<Event>, ttls: Ttls)
    decreases |events|, 0
  {
    events == [] ||
    (Legal(events[..|events| - 1], ttls) && Enabled(After(events[..|events| - 1], ttls), events[|events| - 1]))
  }

  function After(events: seq<Event>, ttls: Ttls): World
    requires Legal(events, ttls)
    decreases |events|, 1
  {
    if events == [] then Initial()
    else Advance(After(events[..|events| - 1], ttls), events[|events| - 1], ttls)
  }

  // ---------------------------------------------------------------- the invariants

  predicate UsersInv(users: Users, ids: set<Uuid>)
  {
    && (forall id :: id in users ==> users[id].id == id && id in ids)
    && (forall i, j :: i in users && j in users && users[i].email == users[j].email ==> i == j)
  }

  predicate CodesInv(codes: Codes, issued: map<Uuid, Issue>, charged: map<Uuid, nat>, ids: set<Uuid>)
  {
    && (forall id :: id in issued ==> id in ids)
    && (forall id :: id in charged ==> id in issued && charged[id] <= MAX_ATTEMPTS)
    && (forall id :: id in codes ==> CodeFiled(codes, id, issued, charged))
    && OneLiveCode(codes)
  }

  /** A stored code is filed under its id, is what was issued, and counts the guesses charged to it. */
  predicate CodeFiled(codes: Codes, id: Uuid, issued: map<Uuid, Issue>, charged: map<Uuid, nat>)
    requires id in codes
  {
    var c := codes[id];
    c.id == id && id in issued && issued[id] == Issue(c.userId, c.purpose, c.codeHash)
    && c.attempts == Charges(charged, id)
  }

  predicate LiveTogether(codes: Codes, i: Uuid, j: Uuid)
  {
    && i in codes && j in codes
    && codes[i].LiveFor(codes[j].userId, codes[j].purpose)
    && !codes[j].IsConsumed()
  }

  /** At most one unconsumed code for each user and purpose. */
  predicate OneLiveCode(codes: Codes)
  {
    forall i, j :: i in codes && j in codes && LiveTogether(codes, i, j) ==> i == j
  }

  predicate TokensInv(tokens: Tokens, families: map<Uuid, Opening>, rotated: seq<string>, ids: set<Uuid>,
                      secrets: set<string>)
  {
    && (forall id :: id in tokens ==> TokenFiled(tokens, id, families, rotated, ids, secrets))
    && (forall i, j :: i in tokens && j in tokens && tokens[i].tokenHash == tokens[j].tokenHash ==> i == j)
    && OneLiveToken(tokens)
    && Distinct(rotated)
    && (forall p :: p in rotated ==> p in secrets)
  }

  /** A stored token belongs to a family opened for its user, and is consumed once it was rotated. */
  predicate TokenFiled(tokens: Tokens, id: Uuid, families: map<Uuid, Opening>, rotated: seq<string>, ids: set<Uuid>,
                       secrets: set<string>)
    requires id in tokens
  {
    var t := tokens[id];
    && t.id == id && id in ids && t.tokenHash.text in secrets
    && t.familyId in families && families[t.familyId].user == t.userId
    && (t.tokenHash.text in rotated ==> t.IsConsumed())
  }

  /** At most one unconsumed token in each family. */
  predicate OneLiveToken(tokens: Tokens)
  {
    forall i, j :: i in tokens && j in tokens && LiveSiblings(tokens, i, j) ==> i == j
  }

  predicate LiveSiblings(tokens: Tokens, i: Uuid, j: Uuid)
    requires i in tokens && j in tokens
  {
    tokens[i].familyId == tokens[j].familyId && !tokens[i].IsConsumed() && !tokens[j].IsConsumed()
  }

  predicate FamiliesInv(families: map<Uuid, Opening>, issued: map<Uuid, Issue>, codes: Codes, ids: set<Uuid>)
  {
    && (forall f :: f in families ==> f in ids && CodeSpent(families[f], issued, codes))
    && (forall f, g :: f in families && g in families && families[f].code == families[g].code ==> f == g)
  }

  /** The code that opened a family was issued to its user and can never be presented again. */
  predicate CodeSpent(o: Opening, issued: map<Uuid, Issue>, codes: Codes)
  {
    && o.code in issued && issued[o.code].user == o.user
    && (o.code in codes ==> codes[o.code].IsConsumed())
  }

  predicate Inv(w: World)
  {
    && UsersInv(w.auth.users, w.ids)
    && CodesInv(w.auth.codes, w.issued, w.charged, w.ids)
    && TokensInv(w.auth.tokens, w.families, w.rotated, w.ids, w.secrets)
    && FamiliesInv(w.families, w.issued, w.auth.codes, w.ids)
  }

  // ---------------------------------------------------------------- what one store effect keeps

  lemma InsertKeepsCodes(codes: Codes, issued: map<Uuid, Issue>, charged: map<Uuid, nat>, ids: set<Uuid>, user: Uuid,
                         purpose: CodePurpose, draw: FreshCode, ttl: nat)
    requires CodesInv(codes, issued, charged, ids) && draw.id !in ids
    ensures CodesInv(CodeInserted(codes, NewCode(user, purpose, draw, ttl)),
                     issued[draw.id := Issue(user, purpose, CodeDigest(draw.plaintext))], charged, ids + {draw.id})
  {
  }

  lemma AttemptKeepsCodes(codes: Codes, issued: map<Uuid, Issue>, charged: map<Uuid, nat>, ids: set<Uuid>, id: Uuid)
    requires CodesInv(codes, issued, charged, ids) && id in codes && !codes[id].IsExhausted()
    ensures CodesInv(AttemptRecorded(codes, id), issued, charged[id := Charges(charged, id) + 1], ids)
  {
    var after := AttemptRecorded(codes, id);
    assert CodeFiled(codes, id, issued, charged);
    forall i, j | LiveTogether(after, i, j) ensures i == j {
      assert LiveTogether(codes, i, j);
    }
  }

  lemma ConsumeKeepsCodes(codes: Codes, issued: map<Uuid, Issue>, charged: map<Uuid, nat>, ids: set<Uuid>, id: Uuid,
                          at: int)
    requires CodesInv(codes, issued, charged, ids) && id in codes
    ensures CodesInv(CodeConsumed(codes, id, at), issued, charged, ids)
  {
    var after := CodeConsumed(codes, id, at);
    assert CodeFiled(codes, id, issued, charged);
    forall i, j | LiveTogether(after, i, j) ensures i == j {
      assert LiveTogether(codes, i, j);
    }
  }

  lemma PurgeKeepsCodes(codes: Codes, issued: map<Uuid, Issue>, charged: map<Uuid, nat>, ids: set<Uuid>, now: int)
    requires CodesInv(codes, issued, charged, ids)
    ensures CodesInv(CodesUnexpired(codes, now), issued, charged, ids)
  {
    var after := CodesUnexpired(codes, now);
    forall id | id in after ensures CodeFiled(after, id, issued, charged) {
      assert CodeFiled(codes, id, issued, charged);
    }
    forall i, j | LiveTogether(after, i, j) ensures i == j {
      assert LiveTogether(codes, i, j);
    }
  }

  lemma MoreIdsKeepCodes(codes: Codes, issued: map<Uuid, Issue>, charged: map<Uuid, nat>, ids: set<Uuid>,
                         more: set<Uuid>)
    requires CodesInv(codes, issued, charged, ids) && ids <= more
    ensures CodesInv(codes, issued, charged, more)
  {
  }

  lemma OpenKeepsTokens(tokens: Tokens, families: map<Uuid, Opening>, rotated: seq<string>, ids: set<Uuid>,
                        secrets: set<string>, o: Opening, draw: FreshToken, ttl: nat)
    requires TokensInv(tokens, families, rotated, ids, secrets)
    requires draw.id !in ids && draw.family !in families && draw.plaintext !in secrets
    ensures TokensInv(Opened(tokens, o.user, draw, ttl), families[draw.family := o], rotated,
                      ids + {draw.id, draw.family}, secrets + {draw.plaintext})
  {
    var after := Opened(tokens, o.user, draw, ttl);
    var more := families[draw.family := o];
    forall id | id in after
      ensures TokenFiled(after, id, more, rotated, ids + {draw.id, draw.family}, secrets + {draw.plaintext}) {
      if id in tokens {
        assert TokenFiled(tokens, id, families, rotated, ids, secrets);
      }
    }
    forall i, j | i in after && j in after && LiveSiblings(after, i, j) ensures i == j {
      if i in tokens && j in tokens {
        assert LiveSiblings(tokens, i, j);
      }
    }
  }

  lemma FewerTokensKept(tokens: Tokens, fewer: Tokens, families: map<Uuid, Opening>, rotated: seq<string>,
                        ids: set<Uuid>, secrets: set<string>)
    requires TokensInv(tokens, families, rotated, ids, secrets)
    requires forall id :: id in fewer ==> id in tokens && fewer[id] == tokens[id]
    ensures TokensInv(fewer, families, rotated, ids, secrets)
  {
    forall id | id in fewer ensures TokenFiled(fewer, id, families, rotated, ids, secrets) {
      assert TokenFiled(tokens, id, families, rotated, ids, secrets);
    }
    forall i, j | i in fewer && j in fewer && LiveSiblings(fewer, i, j) ensures i == j {
      assert LiveSiblings(tokens, i, j);
    }
  }

  lemma MoreDrawsKeepTokens(tokens: Tokens, families: map<Uuid, Opening>, rotated: seq<string>, ids: set<Uuid>,
                            secrets: set<string>, ids': set<Uuid>, secrets': set<string>)
    requires TokensInv(tokens, families, rotated, ids, secrets) && ids <= ids' && secrets <= secrets'
    ensures TokensInv(tokens, families, rotated, ids', secrets')
  {
    forall id | id in tokens ensures TokenFiled(tokens, id, families, rotated, ids', secrets') {
      assert TokenFiled(tokens, id, families, rotated, ids, secrets);
    }
  }

  lemma RotateKeepsTokens(tokens: Tokens, families: map<Uuid, Opening>, rotated: seq<string>, ids: set<Uuid>,
                          secrets: set<string>, t: RefreshToken, presented: string, at: int, draw: FreshToken, ttl: nat)
    requires TokensInv(tokens, families, rotated, ids, secrets)
    requires t.id in tokens && tokens[t.id] == t && t.tokenHash == TokenDigest(presented) && !t.IsConsumed()
    requires draw.id !in ids && draw.plaintext !in secrets
    ensures TokensInv(TokenConsumed(tokens, t.id, at)[draw.id := NewToken(t.userId, t.familyId, draw, ttl)],
                      families, rotated + [presented], ids + {draw.id, draw.family}, secrets + {draw.plaintext})
  {
    var after := TokenConsumed(tokens, t.id, at)[draw.id := NewToken(t.userId, t.familyId, draw, ttl)];
    var log := rotated + [presented];
    assert TokenFiled(tokens, t.id, families, rotated, ids, secrets);
    forall id | id in after
      ensures TokenFiled(after, id, families, log, ids + {draw.id, draw.family}, secrets + {draw.plaintext}) {
      if id in tokens {
        assert TokenFiled(tokens, id, families, rotated, ids, secrets);
      }
    }
    forall i, j | i in after && j in after && LiveSiblings(after, i, j) ensures i == j {
      if i in tokens && j in tokens {
        assert LiveSiblings(tokens, i, j);
      } else if i in tokens {
        assert LiveSiblings(tokens, i, t.id);
      } else if j in tokens {
        assert LiveSiblings(tokens, j, t.id);
      }
    }
  }

  lemma OpenKeepsFamilies(families: map<Uuid, Opening>, issued: map<Uuid, Issue>, codes: Codes, ids: set<Uuid>,
                          family: Uuid, o: Opening, at: int)
    requires FamiliesInv(families, issued, codes, ids)
    requires o.code in codes && !codes[o.code].IsConsumed() && o.code in issued && issued[o.code].user == o.user
    ensures FamiliesInv(families[family := o], issued, CodeConsumed(codes, o.code, at), ids + {family})
  {
  }

  lemma NeverUnconsumed(families: map<Uuid, Opening>, issued: map<Uuid, Issue>, codes: Codes, ids: set<Uuid>,
                        issued': map<Uuid, Issue>, codes': Codes, ids': set<Uuid>)
    requires FamiliesInv(families, issued, codes, ids) && ids <= ids'
    requires forall id :: id in issued ==> id in issued' && issued'[id] == issued[id]
    requires forall id :: id in codes' && id in issued ==>
               id in codes && (codes[id].IsConsumed() ==> codes'[id].IsConsumed())
    ensures FamiliesInv(families, issued', codes', ids')
  {
    forall f | f in families ensures f in ids' && CodeSpent(families[f], issued', codes') {
      assert CodeSpent(families[f], issued, codes);
    }
  }
}
