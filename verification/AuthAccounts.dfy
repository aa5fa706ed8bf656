/** What the answers of the sign-in use cases rest on, told by the history of a run: who can log in,
    which codes and tokens are accepted, and for how long. */
module AuthAccounts {
  import opened Common
  import opened AuthStores
  import opened AuthFlows
  import opened AuthRuns
  import opened AuthTheorems

  // ---------------------------------------------------------------- addresses

  /** Addresses that differ only in ASCII case or surrounding space are one address. */
  lemma AddressIsCanonical(email: string)
    ensures NormalEmail(Lower(email)) == NormalEmail(RustTrim(email)) == NormalEmail(NormalEmail(email))
            == NormalEmail(email)
    ensures forall c :: c in NormalEmail(email) ==> !('A' <= c <= 'Z')
    ensures var normal := NormalEmail(email);
            normal != [] ==> !IsWhiteSpace(normal[0]) && !IsWhiteSpace(normal[|normal| - 1])
  {
    var trimmed := RustTrim(email);
    LowerTrims(email, IsWhiteSpace);
    LowerTrims(trimmed, IsWhiteSpace);
    LowerTwice(trimmed);
    TrimIdempotent(email, IsWhiteSpace);
    TrimIdentity(Lower(trimmed), IsWhiteSpace);
  }

  /** The bytes of a character in UTF-8. */
  function Utf8(c: char): seq<nat>
  {
    var v := c as int;
    if v < 0x80 then [v]
    else if v < 0x800 then [0xC0 + v / 64, 0x80 + v % 64]
    else if v < 0x1_0000 then [0xE0 + v / 4096, 0x80 + v / 64 % 64, 0x80 + v % 64]
    else [0xF0 + v / 262_144, 0x80 + v / 4096 % 64, 0x80 + v / 64 % 64, 0x80 + v % 64]
  }

  function AllUtf8(s: string): seq<nat>
  {
    if s == [] then [] else AllUtf8(s[..|s| - 1]) + Utf8(s[|s| - 1])
  }

  /** Lengths are measured in bytes of UTF-8. */
  lemma {:induction false} LengthsAreBytes(s: string)
    ensures Utf8Length(s) == |AllUtf8(s)|
  {
    if s != [] {
      LengthsAreBytes(s[..|s| - 1]);
    }
  }

  // ---------------------------------------------------------------- accounts

  predicate Registers(a: Auth, e: Event)
  {
    e.Register? && Registered(a.users, e.found, e.email, e.password, e.id).1.Ok?
  }

  predicate Resets(a: Auth, e: Event) { e.ResetWith? && SignsIn(a, e) }

  /** An account after a step: a successful reset replaces the password of its user, and a first
      accepted code verifies the address of its user. */
  function AccountAfter(a: Auth, e: Event, u: User): User
  {
    var mine := SignsIn(a, e) && e.found.value.id == u.id;
    User(u.id, u.email, if mine && e.ResetWith? then Argon2(e.password) else u.passwordHash,
         if mine && u.emailVerifiedAt.None? then Some(e.now) else u.emailVerifiedAt)
  }

  lemma SignInAccounts(a: Auth, e: Event, id: Uuid)
    requires SignsIn(a, e) && id in a.users && a.users[id].id == id
    ensures NextUsers(a, e).Keys == a.users.Keys && NextUsers(a, e)[id] == AccountAfter(a, e, a.users[id])
  {
  }

  lemma RegisterDrawIsNew(w: World, e: Event)
    requires UsersInv(w.auth.users, w.ids) && Enabled(w, e) && e.Register?
    ensures e.id !in w.auth.users
  {
    assert e.id in DrawnIds(e);
  }

  /** That is all a step does to an account that exists. */
  lemma AccountStep(w: World, e: Event, ttls: Ttls, id: Uuid)
    requires UsersInv(w.auth.users, w.ids) && Enabled(w, e) && id in w.auth.users
    ensures var after := Advance(w, e, ttls).auth.users;
            id in after && after[id] == AccountAfter(w.auth, e, w.auth.users[id])
  {
    if SignsIn(w.auth, e) {
      SignInAccounts(w.auth, e, id);
    } else if e.Register? {
      RegisterDrawIsNew(w, e);
    }
  }

  /** An account appears exactly by a registration: an address with an at sign and three bytes that no
      account has, and a password of eight bytes. */
  lemma RegistersIff(w: World, e: Event)
    requires Enabled(w, e)
    ensures Registers(w.auth, e)
            <==> && e.Register? && '@' in NormalEmail(e.email) && Utf8Length(NormalEmail(e.email)) >= 3
                 && Utf8Length(e.password) >= 8
                 && forall id :: id in w.auth.users ==> w.auth.users[id].email != NormalEmail(e.email)
  {
  }

  /** It starts unverified, and there is no other way to an account. */
  lemma AccountsAppear(w: World, e: Event, ttls: Ttls)
    requires UsersInv(w.auth.users, w.ids) && Enabled(w, e)
    ensures var after := Advance(w, e, ttls).auth.users;
            if Registers(w.auth, e) then
              e.id !in w.auth.users && after.Keys == w.auth.users.Keys + {e.id}
              && after[e.id] == User(e.id, NormalEmail(e.email), Argon2(e.password), None)
            else after.Keys == w.auth.users.Keys
  {
    if e.Register? {
      RegisterDrawIsNew(w, e);
    }
  }

  predicate Sets(a: Auth, e: Event, user: Uuid)
  {
    (Registers(a, e) && e.id == user) || (Resets(a, e) && e.found.value.id == user)
  }

  /** The password a user last set, by registering or by a successful reset. */
  function LastPassword(events: seq<Event>, ttls: Ttls, user: Uuid): Option<string>
    requires Legal(events, ttls)
  {
    if events == [] then None
    else
      var before, e := events[..|events| - 1], events[|events| - 1];
      if Sets(After(before, ttls).auth, e, user) then Some(e.password) else LastPassword(before, ttls, user)
  }

  predicate HasPassword(users: Users, user: Uuid, password: Option<string>)
  {
    && (user in users <==> password.Some?)
    && (user in users ==> users[user].passwordHash == Argon2(password.value))
  }

  lemma PasswordStep(w: World, e: Event, ttls: Ttls, user: Uuid, password: Option<string>)
    requires UsersInv(w.auth.users, w.ids) && Enabled(w, e) && HasPassword(w.auth.users, user, password)
    ensures HasPassword(Advance(w, e, ttls).auth.users, user,
                        if Sets(w.auth, e, user) then Some(e.password) else password)
  {
    AccountsAppear(w, e, ttls);
    if user in w.auth.users {
      AccountStep(w, e, ttls, user);
    }
  }

  lemma {:induction false} PasswordsAreTheLast(events: seq<Event>, ttls: Ttls, user: Uuid)
    requires Legal(events, ttls)
    ensures HasPassword(After(events, ttls).auth.users, user, LastPassword(events, ttls, user))
  {
    if events != [] {
      var before, e := events[..|events| - 1], events[|events| - 1];
      PasswordsAreTheLast(before, ttls, user);
      Reachable(before, ttls);
      PasswordStep(After(before, ttls), e, ttls, user, LastPassword(before, ttls, user));
    }
  }

  /** The account a login finds: its address and the password last set for it. */
  predicate LogsIn(events: seq<Event>, ttls: Ttls, email: string, password: string, user: Uuid)
    requires Legal(events, ttls)
  {
    var users := After(events, ttls).auth.users;
    user in users && users[user].email == NormalEmail(email) && LastPassword(events, ttls, user) == Some(password)
  }

  /** A login mails a code to a user if and only if it names the address of the account and the password
      its user last set. So a reset locks the old password out and lets the new one in. */
  lemma LoginIff(events: seq<Event>, ttls: Ttls, e: Event, user: Uuid)
    requires Legal(events, ttls) && Enabled(After(events, ttls), e) && e.Login?
    ensures Sends(After(events, ttls).auth, e) == Some((user, Verify))
            <==> LogsIn(events, ttls, e.email, e.password, user)
  {
    Reachable(events, ttls);
    PasswordsAreTheLast(events, ttls, user);
    if e.found.Some? {
      PasswordsAreTheLast(events, ttls, e.found.value.id);
    }
  }

  lemma OneMore(events: seq<Event>, ttls: Ttls, e: Event)
    requires Legal(events, ttls) && Enabled(After(events, ttls), e)
    ensures Legal(events + [e], ttls) && After(events + [e], ttls) == Advance(After(events, ttls), e, ttls)
  {
    assert (events + [e])[..|events|] == events;
  }

  /** Right after a reset its user logs in with the new password and with no other. */
  lemma ResetThenLogin(events: seq<Event>, ttls: Ttls, reset: Event, login: Event)
    requires Legal(events, ttls) && Enabled(After(events, ttls), reset) && Resets(After(events, ttls).auth, reset)
    requires Legal(events + [reset], ttls) && login.Login? && Enabled(After(events + [reset], ttls), login)
    requires NormalEmail(login.email) == NormalEmail(reset.email)
    ensures Sends(After(events + [reset], ttls).auth, login)
            == if login.password == reset.password then Some((reset.found.value.id, Verify)) else None
  {
    var user := reset.found.value.id;
    OneMore(events, ttls, reset);
    Reachable(events, ttls);
    AccountStep(After(events, ttls), reset, ttls, user);
    assert (events + [reset])[..|events|] == events;
    LoginIff(events + [reset], ttls, login, user);
    Reachable(events + [reset], ttls);
  }

  // ---------------------------------------------------------------- lifetimes

  /** Every stored code and token expires its lifetime after it was made. */
  predicate CodesAge(codes: Codes, ttl: nat)
  {
    forall id :: id in codes ==> codes[id].expiresAt == codes[id].createdAt + ttl
  }

  predicate TokensAge(tokens: Tokens, ttl: nat)
  {
    forall id :: id in tokens ==> tokens[id].expiresAt == tokens[id].createdAt + ttl
  }

  predicate Lifetimes(a: Auth, ttls: Ttls)
  {
    CodesAge(a.codes, ttls.code) && TokensAge(a.tokens, ttls.token)
  }

  lemma NextCodesAge(a: Auth, e: Event, ttl: nat)
    requires CodesAge(a.codes, ttl)
    ensures CodesAge(NextCodes(a, e, ttl), ttl)
  {
    if Sends(a, e).Some? {
      var (user, purpose) := Sends(a, e).value;
      InsertedAge(a.codes, NewCode(user, purpose, e.draw, ttl), ttl);
    }
  }

  lemma InsertedAge(codes: Codes, code: EmailVerification, ttl: nat)
    requires CodesAge(codes, ttl) && code.expiresAt == code.createdAt + ttl
    ensures CodesAge(CodeInserted(codes, code), ttl)
  {
  }

  lemma NextTokensAge(a: Auth, e: Event, ttl: nat)
    requires TokensAge(a.tokens, ttl)
    ensures TokensAge(NextTokens(a, e, ttl), ttl)
  {
  }

  lemma {:induction false} LifetimesHold(events: seq<Event>, ttls: Ttls)
    requires Legal(events, ttls)
    ensures Lifetimes(After(events, ttls).auth, ttls)
  {
    if events != [] {
      var before, e := events[..|events| - 1], events[|events| - 1];
      LifetimesHold(before, ttls);
      NextCodesAge(After(before, ttls).auth, e, ttls.code);
      NextTokensAge(After(before, ttls).auth, e, ttls.token);
      NextAuth(After(before, ttls), e, ttls);
    }
  }

  lemma NextAuth(w: World, e: Event, ttls: Ttls)
    requires Enabled(w, e)
    ensures Advance(w, e, ttls).auth == Next(w.auth, e, ttls)
  {
  }

  /** A code that may still be presented: live, not used up by five wrong guesses, and not a lifetime old. */
  predicate Acceptable(codes: Codes, ttl: nat, id: Uuid, user: Uuid, purpose: CodePurpose, now: int)
  {
    && id in codes && codes[id].userId == user && codes[id].purpose == purpose && codes[id].consumedAt.None?
    && codes[id].attempts < 5 && now < codes[id].createdAt + ttl
  }

  /** Code `id` is the live one of the account the event names, for its purpose. */
  predicate IsFor(a: Auth, e: Event, user: Uuid, id: Uuid)
    requires PresentsCode(e)
  {
    && user in a.users && a.users[user].email == NormalEmail(e.email)
    && id in a.codes && a.codes[id].userId == user && a.codes[id].purpose == PurposeOf(e)
    && a.codes[id].consumedAt.None?
  }

  predicate Accepts(a: Auth, ttl: nat, e: Event, user: Uuid, id: Uuid)
    requires PresentsCode(e)
  {
    && IsFor(a, e, user, id) && Acceptable(a.codes, ttl, id, user, PurposeOf(e), e.now)
    && RustTrim(e.code) == a.codes[id].codeHash.text
  }

  /** A presented code signs its user in if and only if that account has an acceptable code with this
      digest, and a password to be set has eight bytes. */
  lemma SignsInIff(events: seq<Event>, ttls: Ttls, e: Event)
    requires Legal(events, ttls) && Enabled(After(events, ttls), e) && PresentsCode(e)
    ensures SignsIn(After(events, ttls).auth, e)
            <==> && (e.ResetWith? ==> Utf8Length(e.password) >= 8)
                 && exists user, id :: Accepts(After(events, ttls).auth, ttls.code, e, user, id)
  {
    var w := After(events, ttls);
    Reachable(events, ttls);
    LifetimesHold(events, ttls);
    if SignsIn(w.auth, e) {
      LookupsAreStored(w, e);
      assert Accepts(w.auth, ttls.code, e, e.found.value.id, e.active.value.id);
    }
    if user, id :| Accepts(w.auth, ttls.code, e, user, id) {
      LiveIsFound(w, e, user, id);
    }
  }

  /** The account the event names was once sent this very code, and it is spent. */
  ghost predicate WasSpent(a: Auth, e: Event)
    requires PresentsCode(e)
  {
    exists user, id ::
      && user in a.users && a.users[user].email == NormalEmail(e.email)
      && id in a.codes && a.codes[id].userId == user && a.codes[id].purpose == PurposeOf(e)
      && a.codes[id].codeHash.text == RustTrim(e.code) && a.codes[id].consumedAt.Some?
  }

  ghost predicate UsedUp(a: Auth, e: Event)
    requires PresentsCode(e)
  {
    exists user, id :: IsFor(a, e, user, id) && a.codes[id].attempts >= 5
  }

  ghost predicate TooOld(a: Auth, ttl: nat, e: Event)
    requires PresentsCode(e)
  {
    exists user, id :: IsFor(a, e, user, id) && a.codes[id].attempts < 5 && a.codes[id].createdAt + ttl <= e.now
  }

  /** Both in terms of what the lookups return. */
  lemma FaultsAreFound(w: World, e: Event, ttl: nat)
    requires Inv(w) && Enabled(w, e) && PresentsCode(e) && CodesAge(w.auth.codes, ttl)
    ensures UsedUp(w.auth, e) <==> e.found.Some? && e.active.Some? && e.active.value.IsExhausted()
    ensures TooOld(w.auth, ttl, e)
            <==> e.found.Some? && e.active.Some? && !e.active.value.IsExhausted() && e.active.value.IsExpired(e.now)
  {
    if e.found.Some? && e.active.Some? {
      LookupsAreStored(w, e);
      assert IsFor(w.auth, e, e.found.value.id, e.active.value.id);
    }
    forall user, id | IsFor(w.auth, e, user, id)
      ensures e.found == Some(w.auth.users[user]) && e.active == Some(w.auth.codes[id]) {
      LiveIsFound(w, e, user, id);
    }
  }

  lemma RefusalReasons(a: Auth, e: Event)
    requires PresentsCode(e)
    ensures var tooShort := e.ResetWith? && Utf8Length(e.password) < 8;
            && (Refusal(a, e) == Some(PasswordTooShort) <==> tooShort)
            && (Refusal(a, e) == Some(TooManyAttempts)
                <==> !tooShort && e.found.Some? && e.active.Some? && e.active.value.IsExhausted())
            && (Refusal(a, e) == Some(Expired)
                <==> && !tooShort && e.found.Some? && e.active.Some?
                     && !e.active.value.IsExhausted() && e.active.value.IsExpired(e.now))
  {
  }

  lemma RefusalOfWrongCode(a: Auth, e: Event)
    requires PresentsCode(e)
    ensures Refusal(a, e) == Some(Superseded)
            <==> && !(e.ResetWith? && Utf8Length(e.password) < 8) && e.found.Some?
                 && WasIssued(a.codes, e.found.value.id, PurposeOf(e), CodeDigest(e.code))
                 && (e.active.Some? ==> && !e.active.value.IsExhausted() && !e.active.value.IsExpired(e.now)
                                        && !e.active.value.Matches(e.code))
  {
  }

  lemma SpentIsIssued(w: World, e: Event)
    requires Inv(w) && Enabled(w, e) && PresentsCode(e)
    ensures WasSpent(w.auth, e) ==>
              e.found.Some? && WasIssued(w.auth.codes, e.found.value.id, PurposeOf(e), CodeDigest(e.code))
    ensures (&& e.found.Some? && (e.active.Some? ==> !e.active.value.Matches(e.code))
             && WasIssued(w.auth.codes, e.found.value.id, PurposeOf(e), CodeDigest(e.code))) ==>
              WasSpent(w.auth, e)
  {
    if e.found.Some? {
      var user := e.found.value.id;
      if id :| id in w.auth.codes && w.auth.codes[id].IssuedAs(user, PurposeOf(e), CodeDigest(e.code)) {
        if w.auth.codes[id].consumedAt.None? {
          assert IsFor(w.auth, e, user, id);
          LiveIsFound(w, e, user, id);
        }
      }
    }
    if WasSpent(w.auth, e) {
      var user, id :| && user in w.auth.users && w.auth.users[user].email == NormalEmail(e.email)
                      && id in w.auth.codes && w.auth.codes[id].userId == user
                      && w.auth.codes[id].purpose == PurposeOf(e)
                      && w.auth.codes[id].codeHash.text == RustTrim(e.code) && w.auth.codes[id].consumedAt.Some?;
      assert w.auth.users[user].id == user;
      assert w.auth.codes[id].IssuedAs(user, PurposeOf(e), CodeDigest(e.code));
    }
  }

  /** A code that is not accepted is called superseded exactly when the account was once sent it and it
      is spent, unless a fault of the password or of the live code comes first. Anything else is invalid. */
  lemma SupersededIff(events: seq<Event>, ttls: Ttls, e: Event)
    requires Legal(events, ttls) && Enabled(After(events, ttls), e) && PresentsCode(e)
    ensures var a := After(events, ttls).auth;
            var faulty := (e.ResetWith? && Utf8Length(e.password) < 8) || UsedUp(a, e) || TooOld(a, ttls.code, e);
            && (Refusal(a, e) == Some(Superseded) <==> !faulty && !SignsIn(a, e) && WasSpent(a, e))
            && (Refusal(a, e) == Some(InvalidCode) <==> !faulty && !SignsIn(a, e) && !WasSpent(a, e))
  {
    var w := After(events, ttls);
    Reachable(events, ttls);
    LifetimesHold(events, ttls);
    FaultsAreFound(w, e, ttls.code);
    RefusalReasons(w.auth, e);
    RefusalOfWrongCode(w.auth, e);
    SpentIsIssued(w, e);
    OneOfSix(w.auth, e);
    if SignsIn(w.auth, e) {
      LookupsAreStored(w, e);
    }
  }

  lemma OneOfSix(a: Auth, e: Event)
    requires PresentsCode(e)
    ensures Refusal(a, e) in {None, Some(PasswordTooShort), Some(TooManyAttempts), Some(Expired), Some(Superseded),
                              Some(InvalidCode)}
    ensures Refusal(a, e).None? <==> SignsIn(a, e)
    ensures e.found.Some? && e.active.Some? && e.active.value.Matches(e.code) ==>
              Refusal(a, e) != Some(Superseded) && Refusal(a, e) != Some(InvalidCode)
    ensures e.found.None? && !(e.ResetWith? && Utf8Length(e.password) < 8) ==> Refusal(a, e) == Some(InvalidCode)
  {
  }

  /** A code is consumed once: when it is accepted, or when a newer one replaces it. */
  lemma ConsumptionIsStamped(w: World, e: Event, ttls: Ttls, id: Uuid)
    requires Inv(w) && Enabled(w, e) && id in w.auth.codes && id in Advance(w, e, ttls).auth.codes
    ensures var before, after := w.auth.codes[id].consumedAt, Advance(w, e, ttls).auth.codes[id].consumedAt;
            && (before.Some? ==> after == before)
            && (before.None? && after.Some? ==>
                  || (SignsIn(w.auth, e) && after == Some(e.now))
                  || (Sends(w.auth, e).Some? && after == Some(e.draw.at)))
  {
    if Sends(w.auth, e).Some? {
      SentDrawIsNew(w, e);
      assert CodeFiled(w.auth.codes, id, w.issued, w.charged);
    }
    NextAuth(w, e, ttls);
    NextConsumption(w.auth, e, ttls.code, id);
  }

  lemma NextConsumption(a: Auth, e: Event, ttl: nat, id: Uuid)
    requires id in a.codes && id in NextCodes(a, e, ttl) && (Sends(a, e).Some? ==> id != e.draw.id)
    ensures var before, after := a.codes[id].consumedAt, NextCodes(a, e, ttl)[id].consumedAt;
            && (before.Some? ==> after == before)
            && (before.None? && after.Some? ==>
                  || (SignsIn(a, e) && after == Some(e.now))
                  || (Sends(a, e).Some? && after == Some(e.draw.at)))
  {
  }

  /** Why a code is refused: a short password comes first, five wrong guesses before age. */
  lemma RefusalsAreExact(events: seq<Event>, ttls: Ttls, e: Event)
    requires Legal(events, ttls) && Enabled(After(events, ttls), e) && PresentsCode(e)
    ensures var a := After(events, ttls).auth;
            var tooShort := e.ResetWith? && Utf8Length(e.password) < 8;
            && (Refusal(a, e) == Some(PasswordTooShort) <==> tooShort)
            && (Refusal(a, e) == Some(TooManyAttempts) <==> !tooShort && UsedUp(a, e))
            && (Refusal(a, e) == Some(Expired) <==> !tooShort && TooOld(a, ttls.code, e))
  {
    Reachable(events, ttls);
    LifetimesHold(events, ttls);
    FaultsAreFound(After(events, ttls), e, ttls.code);
    RefusalReasons(After(events, ttls).auth, e);
  }

  /** What the lookups return is the one account with the address and its one live code. */
  lemma LiveIsFound(w: World, e: Event, user: Uuid, id: Uuid)
    requires Inv(w) && Enabled(w, e) && PresentsCode(e) && IsFor(w.auth, e, user, id)
    ensures e.found == Some(w.auth.users[user]) && e.active == Some(w.auth.codes[id])
  {
    assert w.auth.users[user].id == user;
    assert w.auth.codes[id].LiveFor(user, PurposeOf(e));
    assert LiveTogether(w.auth.codes, id, e.active.value.id);
    assert CodeFiled(w.auth.codes, id, w.issued, w.charged);
  }

  /** A token rotates if and only if it is stored, unconsumed and not a lifetime old. */
  lemma RotatesIff(events: seq<Event>, ttls: Ttls, e: Event)
    requires Legal(events, ttls) && Enabled(After(events, ttls), e) && e.Rotate?
    ensures Rotates(e)
            <==> CanRotate(After(events, ttls).auth.tokens, ttls.token, e.presented, e.checkedAt)
  {
    Reachable(events, ttls);
    LifetimesHold(events, ttls);
    RotatesWhenFound(After(events, ttls), ttls.token, e);
  }

  lemma RotatesWhenFound(w: World, ttl: nat, e: Event)
    requires TokensInv(w.auth.tokens, w.families, w.rotated, w.ids, w.secrets) && TokensAge(w.auth.tokens, ttl)
    requires e.Rotate? && FindsToken(w.auth.tokens, TokenDigest(e.presented), e.stored)
    ensures Rotates(e) <==> CanRotate(w.auth.tokens, ttl, e.presented, e.checkedAt)
  {
    if Rotates(e) {
      assert Rotatable(w.auth.tokens, ttl, e.stored.value.id, e.presented, e.checkedAt);
    }
    if id :| Rotatable(w.auth.tokens, ttl, id, e.presented, e.checkedAt) {
      assert w.auth.tokens[id].tokenHash == TokenDigest(e.presented);
      assert TokenFiled(w.auth.tokens, id, w.families, w.rotated, w.ids, w.secrets);
    }
  }

  predicate Rotatable(tokens: Tokens, ttl: nat, id: Uuid, presented: string, now: int)
  {
    && id in tokens && tokens[id].tokenHash.text == presented && tokens[id].consumedAt.None?
    && now < tokens[id].createdAt + ttl
  }

  ghost predicate CanRotate(tokens: Tokens, ttl: nat, presented: string, now: int)
  {
    exists id :: Rotatable(tokens, ttl, id, presented, now)
  }

  /** The purges remove nothing that could still be accepted and leave nothing that could not for its age. */
  lemma PurgesAreInvisible(events: seq<Event>, ttls: Ttls, purgedAt: int, now: int, id: Uuid, user: Uuid,
                           purpose: CodePurpose, presented: string)
    requires Legal(events, ttls) && purgedAt <= now
    ensures var a := After(events, ttls).auth;
            var codes, tokens := CodesUnexpired(a.codes, purgedAt), TokensUnexpired(a.tokens, purgedAt);
            && (Acceptable(codes, ttls.code, id, user, purpose, now)
                <==> Acceptable(a.codes, ttls.code, id, user, purpose, now))
            && (Rotatable(tokens, ttls.token, id, presented, now)
                <==> Rotatable(a.tokens, ttls.token, id, presented, now))
            && (id in codes ==> purgedAt < a.codes[id].createdAt + ttls.code && codes[id] == a.codes[id])
            && (id in tokens ==> purgedAt < a.tokens[id].createdAt + ttls.token && tokens[id] == a.tokens[id])
  {
    LifetimesHold(events, ttls);
  }

  // ---------------------------------------------------------------- what a session is for

  /** The token of the answer is stored, unconsumed, for the user the answer names. */
  predicate IsSessionOf(tokens: Tokens, s: SessionTokens, user: Uuid, id: Uuid)
  {
    && s.user == user && id in tokens && tokens[id].userId == user
    && tokens[id].tokenHash.text == s.refreshToken && tokens[id].consumedAt.None?
  }

  /** Whoever presents an accepted code gets a session of the account the code was sent to. */
  lemma SignInAnswersOwner(w: World, e: Event, ttls: Ttls)
    requires Inv(w) && Enabled(w, e) && SignsIn(w.auth, e) && e.token.signed
    ensures var answer := if e.Confirm? then Confirmed(w.auth, e.found, e.active, e.code, e.now, e.token, ttls.token).1
                          else PasswordReset(w.auth, e.found, e.active, e.code, e.password, e.now, e.token,
                                             ttls.token).1;
            && answer.Ok? && w.issued[e.active.value.id].user == answer.value.user
            && IsSessionOf(Advance(w, e, ttls).auth.tokens, answer.value, answer.value.user, e.token.id)
  {
    LookupsAreStored(w, e);
    assert CodeFiled(w.auth.codes, e.active.value.id, w.issued, w.charged);
    StepIsTheUseCase(w.auth, e, ttls);
  }

  /** Whoever rotates a token gets a session of its user in the same family. */
  lemma RotationAnswersOwner(w: World, e: Event, ttls: Ttls)
    requires Inv(w) && Enabled(w, e) && Rotates(e) && e.token.signed
    ensures var answer := Rotated(w.auth.tokens, e.stored, e.checkedAt, e.markedAt, e.token, ttls.token).1;
            var after := Advance(w, e, ttls).auth.tokens;
            && answer.Ok? && IsSessionOf(after, answer.value, e.stored.value.userId, e.token.id)
            && after[e.token.id].familyId == e.stored.value.familyId
  {
  }
}
