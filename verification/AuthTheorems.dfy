/** What every run of the sign-in machinery guarantees. */
module AuthTheorems {
  import opened Common
  import opened AuthStores
  import opened AuthFlows
  import opened AuthRuns

  // ---------------------------------------------------------------- every step keeps the invariant

  lemma UpdatedUsersKept(users: Users, users': Users, ids: set<Uuid>, more: set<Uuid>)
    requires UsersInv(users, ids) && ids <= more && users'.Keys == users.Keys
    requires forall id :: id in users ==> users'[id].id == users[id].id && users'[id].email == users[id].email
    ensures UsersInv(users', more)
  {
  }

  lemma InsertedUserKept(users: Users, user: User, ids: set<Uuid>, more: set<Uuid>)
    requires UsersInv(users, ids) && ids <= more && user.id in more && user.id !in ids
    requires forall id :: id in users ==> users[id].email != user.email
    ensures UsersInv(users[user.id := user], more)
  {
  }

  /** Apart from registration, a use case changes no account's id or email. */
  lemma SameAccounts(a: Auth, e: Event, ttls: Ttls)
    requires !e.Register?
    ensures var users := Next(a, e, ttls).users;
            users.Keys == a.users.Keys
            && forall id :: id in users ==> users[id].id == a.users[id].id && users[id].email == a.users[id].email
  {
  }

  lemma UsersKept(w: World, e: Event, ttls: Ttls)
    requires Inv(w) && Enabled(w, e)
    ensures UsersInv(Advance(w, e, ttls).auth.users, Advance(w, e, ttls).ids)
  {
    var v := Advance(w, e, ttls);
    if e.Register? {
      var r := Registered(w.auth.users, e.found, e.email, e.password, e.id).1;
      if r.Ok? {
        assert e.id in DrawnIds(e);
        InsertedUserKept(w.auth.users, r.value, w.ids, v.ids);
      }
    } else {
      SameAccounts(w.auth, e, ttls);
      UpdatedUsersKept(w.auth.users, v.auth.users, w.ids, v.ids);
    }
  }

  lemma SentCodesKept(w: World, e: Event, ttls: Ttls)
    requires Inv(w) && Enabled(w, e) && Sends(w.auth, e).Some?
    ensures var v := Advance(w, e, ttls); CodesInv(v.auth.codes, v.issued, v.charged, v.ids)
  {
    var v := Advance(w, e, ttls);
    var (user, purpose) := Sends(w.auth, e).value;
    assert e.draw.id in DrawnIds(e);
    InsertKeepsCodes(w.auth.codes, w.issued, w.charged, w.ids, user, purpose, e.draw, ttls.code);
    MoreIdsKeepCodes(v.auth.codes, v.issued, v.charged, w.ids + {e.draw.id}, v.ids);
  }

  lemma LookupsAreStored(w: World, e: Event)
    requires Enabled(w, e) && PresentsCode(e) && e.found.Some? && e.active.Some?
    ensures e.active.value.id in w.auth.codes && w.auth.codes[e.active.value.id] == e.active.value
    ensures e.active.value.LiveFor(e.found.value.id, PurposeOf(e))
    ensures ChargesGuess(w.auth, e) ==> !e.active.value.IsExhausted()
    ensures SignsIn(w.auth, e) ==>
              e.active.value.Matches(e.code) && !e.active.value.IsExpired(e.now) && !e.active.value.IsExhausted()
  {
  }

  lemma ChargedCodesKept(w: World, e: Event)
    requires CodesInv(w.auth.codes, w.issued, w.charged, w.ids) && Enabled(w, e) && ChargesGuess(w.auth, e)
    ensures var id := e.active.value.id;
            CodesInv(AttemptRecorded(w.auth.codes, id), w.issued, w.charged[id := Charges(w.charged, id) + 1], w.ids)
  {
    LookupsAreStored(w, e);
    AttemptKeepsCodes(w.auth.codes, w.issued, w.charged, w.ids, e.active.value.id);
  }

  lemma SpentCodesKept(w: World, e: Event)
    requires CodesInv(w.auth.codes, w.issued, w.charged, w.ids) && Enabled(w, e) && SignsIn(w.auth, e)
    ensures CodesInv(CodeConsumed(w.auth.codes, e.active.value.id, e.now), w.issued, w.charged, w.ids)
  {
    LookupsAreStored(w, e);
    ConsumeKeepsCodes(w.auth.codes, w.issued, w.charged, w.ids, e.active.value.id, e.now);
  }

  lemma UnsentEffect(w: World, e: Event, ttls: Ttls)
    requires Enabled(w, e) && Sends(w.auth, e).None?
    ensures var v := Advance(w, e, ttls);
            && v.issued == w.issued && v.auth.codes == NextCodes(w.auth, e, ttls.code) && w.ids <= v.ids
            && v.charged == NextCharged(w, e)
  {
  }

  function NextCharged(w: World, e: Event): map<Uuid, nat>
  {
    if ChargesGuess(w.auth, e) then w.charged[e.active.value.id := Charges(w.charged, e.active.value.id) + 1]
    else w.charged
  }

  lemma CodesKept(w: World, e: Event, ttls: Ttls)
    requires Inv(w) && Enabled(w, e)
    ensures var v := Advance(w, e, ttls); CodesInv(v.auth.codes, v.issued, v.charged, v.ids)
  {
    if Sends(w.auth, e).Some? {
      SentCodesKept(w, e, ttls);
    } else {
      UnsentEffect(w, e, ttls);
      UnsentCodesKept(w, e, ttls.code);
      MoreIdsKeepCodes(NextCodes(w.auth, e, ttls.code), w.issued, NextCharged(w, e), w.ids, Advance(w, e, ttls).ids);
    }
  }

  lemma UnsentCodesKept(w: World, e: Event, ttl: nat)
    requires CodesInv(w.auth.codes, w.issued, w.charged, w.ids) && Enabled(w, e) && Sends(w.auth, e).None?
    ensures CodesInv(NextCodes(w.auth, e, ttl), w.issued, NextCharged(w, e), w.ids)
  {
    if SignsIn(w.auth, e) {
      SpentCodesKept(w, e);
    } else if ChargesGuess(w.auth, e) {
      ChargedCodesKept(w, e);
    } else if e.PurgeCodes? {
      PurgeKeepsCodes(w.auth.codes, w.issued, w.charged, w.ids, e.now);
    }
  }

  lemma SignedInTokensKept(w: World, e: Event, ttls: Ttls)
    requires TokensInv(w.auth.tokens, w.families, w.rotated, w.ids, w.secrets)
    requires FamiliesInv(w.families, w.issued, w.auth.codes, w.ids) && Enabled(w, e) && SignsIn(w.auth, e)
    ensures var v := Advance(w, e, ttls); TokensInv(v.auth.tokens, v.families, v.rotated, v.ids, v.secrets)
  {
    var t := e.token;
    SignInDrawsAreNew(w, e);
    SignInEffect(w, e, ttls);
    assert t.family !in w.families;
    var kept := if e.ResetWith? then WithoutUser(w.auth.tokens, e.found.value.id) else w.auth.tokens;
    FewerTokensKept(w.auth.tokens, kept, w.families, w.rotated, w.ids, w.secrets);
    OpenKeepsTokens(kept, w.families, w.rotated, w.ids, w.secrets, Opening(e.found.value.id, e.active.value.id), t,
                    ttls.token);
  }

  lemma TokensKept(w: World, e: Event, ttls: Ttls)
    requires Inv(w) && Enabled(w, e)
    ensures var v := Advance(w, e, ttls); TokensInv(v.auth.tokens, v.families, v.rotated, v.ids, v.secrets)
  {
    var v := Advance(w, e, ttls);
    if SignsIn(w.auth, e) {
      SignedInTokensKept(w, e, ttls);
    } else if Rotates(e) {
      assert e.token.id in DrawnIds(e) && e.token.plaintext in DrawnSecrets(e);
      assert (set id | id in DrawnIds(e)) == {e.token.id, e.token.family};
      RotateKeepsTokens(w.auth.tokens, w.families, w.rotated, w.ids, w.secrets, e.stored.value, e.presented,
                        e.markedAt, e.token, ttls.token);
    } else {
      FewerTokensKept(w.auth.tokens, v.auth.tokens, w.families, w.rotated, w.ids, w.secrets);
      MoreDrawsKeepTokens(v.auth.tokens, w.families, w.rotated, w.ids, w.secrets, v.ids, v.secrets);
    }
  }

  lemma SignedInFamiliesKept(w: World, e: Event, ttls: Ttls)
    requires CodesInv(w.auth.codes, w.issued, w.charged, w.ids)
    requires FamiliesInv(w.families, w.issued, w.auth.codes, w.ids)
    requires Enabled(w, e) && SignsIn(w.auth, e)
    ensures var v := Advance(w, e, ttls); FamiliesInv(v.families, v.issued, v.auth.codes, v.ids)
  {
    SignInEffect(w, e, ttls);
    LookupsAreStored(w, e);
    OpenedFamilyKept(w.families, w.issued, w.auth.codes, w.charged, w.ids, e.token.family,
                     Opening(e.found.value.id, e.active.value.id), e.now, Advance(w, e, ttls).ids);
  }

  lemma OpenedFamilyKept(families: map<Uuid, Opening>, issued: map<Uuid, Issue>, codes: Codes, charged: map<Uuid, nat>,
                         ids: set<Uuid>, family: Uuid, o: Opening, at: int, more: set<Uuid>)
    requires CodesInv(codes, issued, charged, ids) && FamiliesInv(families, issued, codes, ids)
    requires o.code in codes && codes[o.code].userId == o.user && !codes[o.code].IsConsumed()
    requires ids + {family} <= more
    ensures FamiliesInv(families[family := o], issued, CodeConsumed(codes, o.code, at), more)
  {
    assert CodeFiled(codes, o.code, issued, charged);
    OpenKeepsFamilies(families, issued, codes, ids, family, o, at);
    var after := CodeConsumed(codes, o.code, at);
    NeverUnconsumed(families[family := o], issued, after, ids + {family}, issued, after, more);
  }

  lemma FamiliesKept(w: World, e: Event, ttls: Ttls)
    requires CodesInv(w.auth.codes, w.issued, w.charged, w.ids)
    requires FamiliesInv(w.families, w.issued, w.auth.codes, w.ids)
    requires Enabled(w, e)
    ensures var v := Advance(w, e, ttls); FamiliesInv(v.families, v.issued, v.auth.codes, v.ids)
  {
    if SignsIn(w.auth, e) {
      SignedInFamiliesKept(w, e, ttls);
    } else {
      var v := Advance(w, e, ttls);
      ConsumedStaysConsumed(w, e, ttls);
      NeverUnconsumed(w.families, w.issued, w.auth.codes, w.ids, v.issued, v.auth.codes, v.ids);
    }
  }

  lemma SentDrawIsNew(w: World, e: Event)
    requires Enabled(w, e) && Sends(w.auth, e).Some?
    ensures e.draw.id !in w.ids
  {
    assert e.draw.id in DrawnIds(e);
  }

  lemma SignInDrawsAreNew(w: World, e: Event)
    requires Enabled(w, e) && PresentsCode(e)
    ensures e.token.id !in w.ids && e.token.family !in w.ids && e.token.id != e.token.family
    ensures e.token.plaintext !in w.secrets
  {
    var drawn := DrawnIds(e);
    assert drawn[0] == e.token.id && drawn[1] == e.token.family;
    assert drawn[0] in drawn && drawn[1] in drawn;
    assert e.token.plaintext in DrawnSecrets(e);
  }

  /** What signing in does to the world. */
  lemma SignInEffect(w: World, e: Event, ttls: Ttls)
    requires Enabled(w, e) && SignsIn(w.auth, e)
    ensures var v, o := Advance(w, e, ttls), Opening(e.found.value.id, e.active.value.id);
            && v.issued == w.issued && v.families == w.families[e.token.family := o] && v.rotated == w.rotated
            && v.auth.codes == CodeConsumed(w.auth.codes, o.code, e.now)
            && v.ids == w.ids + {e.token.id, e.token.family} && v.secrets == w.secrets + {e.token.plaintext}
  {
    assert (set id | id in DrawnIds(e)) == {e.token.id, e.token.family};
  }

  /** No use case revives a spent code. */
  lemma NextKeepsConsumed(a: Auth, e: Event, ttl: nat, issued: set<Uuid>)
    requires Sends(a, e).Some? ==> e.draw.id !in issued
    ensures forall id :: id in NextCodes(a, e, ttl) && id in issued ==>
              id in a.codes && (a.codes[id].IsConsumed() ==> NextCodes(a, e, ttl)[id].IsConsumed())
  {
    if Sends(a, e).Some? {
      InsertedConsumption(a.codes, NewCode(Sends(a, e).value.0, Sends(a, e).value.1, e.draw, ttl));
    }
  }

  lemma ConsumedStaysConsumed(w: World, e: Event, ttls: Ttls)
    requires CodesInv(w.auth.codes, w.issued, w.charged, w.ids) && Enabled(w, e)
    ensures var v := Advance(w, e, ttls);
            && (forall id :: id in w.issued ==> id in v.issued && v.issued[id] == w.issued[id])
            && forall id :: id in v.auth.codes && id in w.issued ==>
                 id in w.auth.codes && (w.auth.codes[id].IsConsumed() ==> v.auth.codes[id].IsConsumed())
  {
    if Sends(w.auth, e).Some? {
      SentDrawIsNew(w, e);
    }
    NextKeepsConsumed(w.auth, e, ttls.code, w.issued.Keys);
  }

  lemma InsertedConsumption(codes: Codes, code: EmailVerification)
    ensures forall id :: id in codes && id != code.id && codes[id].IsConsumed() ==>
              CodeInserted(codes, code)[id].IsConsumed()
    ensures CodeInserted(codes, code).Keys == codes.Keys + {code.id}
  {
  }

  lemma StepKeepsInv(w: World, e: Event, ttls: Ttls)
    requires Inv(w) && Enabled(w, e)
    ensures Inv(Advance(w, e, ttls))
  {
    UsersKept(w, e, ttls);
    CodesKept(w, e, ttls);
    TokensKept(w, e, ttls);
    FamiliesKept(w, e, ttls);
  }

  lemma {:induction false} Reachable(events: seq<Event>, ttls: Ttls)
    requires Legal(events, ttls)
    ensures Inv(After(events, ttls))
  {
    if events != [] {
      var before := events[..|events| - 1];
      Reachable(before, ttls);
      StepKeepsInv(After(before, ttls), events[|events| - 1], ttls);
    }
  }

  // ---------------------------------------------------------------- codes and sessions

  /** No code ever opens two sessions: families and the codes that opened them correspond one to
      one, each code was issued to the family's user and is spent, and every stored token lives in
      an opened family of its own user. */
  lemma OneSessionPerCode(events: seq<Event>, ttls: Ttls)
    requires Legal(events, ttls)
    ensures var w := After(events, ttls);
            && (forall f, g :: f in w.families && g in w.families && f != g ==>
                  w.families[f].code != w.families[g].code)
            && (forall f :: f in w.families ==>
                  w.families[f].code in w.issued && w.issued[w.families[f].code].user == w.families[f].user)
            && (forall f :: f in w.families && w.families[f].code in w.auth.codes ==>
                  w.auth.codes[w.families[f].code].IsConsumed())
            && (forall id :: id in w.auth.tokens ==>
                  w.auth.tokens[id].familyId in w.families
                  && w.families[w.auth.tokens[id].familyId].user == w.auth.tokens[id].userId)
  {
    Reachable(events, ttls);
    var w := After(events, ttls);
    forall f | f in w.families ensures CodeSpent(w.families[f], w.issued, w.auth.codes) {
    }
    forall id | id in w.auth.tokens ensures TokenFiled(w.auth.tokens, id, w.families, w.rotated, w.ids, w.secrets) {
    }
  }

  /** The step that opens a family spends the live, matching, unexpired code recorded for it, and
      nothing else ever adds or rewrites a family. */
  lemma OpeningSpendsItsCode(w: World, e: Event, ttls: Ttls)
    requires Inv(w) && Enabled(w, e)
    ensures var v := Advance(w, e, ttls);
            if SignsIn(w.auth, e) then
              && e.token.family !in w.families && v.families.Keys == w.families.Keys + {e.token.family}
              && (forall f :: f in w.families ==> v.families[f] == w.families[f])
              && var code := v.families[e.token.family].code;
              && code in w.auth.codes && w.auth.codes[code].LiveFor(e.found.value.id, PurposeOf(e))
              && w.auth.codes[code].Matches(e.code) && !w.auth.codes[code].IsExpired(e.now)
              && !w.auth.codes[code].IsExhausted()
              && code in v.auth.codes && v.auth.codes[code].IsConsumed()
            else v.families == w.families
  {
    if SignsIn(w.auth, e) {
      SignInDrawsAreNew(w, e);
      AcceptedCodeIsLive(w, e, ttls);
    }
  }

  lemma AcceptedCodeIsLive(w: World, e: Event, ttls: Ttls)
    requires Enabled(w, e) && SignsIn(w.auth, e)
    ensures var code := e.active.value.id;
            && code in w.auth.codes && w.auth.codes[code].LiveFor(e.found.value.id, PurposeOf(e))
            && w.auth.codes[code].Matches(e.code) && !w.auth.codes[code].IsExpired(e.now)
            && !w.auth.codes[code].IsExhausted()
            && code in NextCodes(w.auth, e, ttls.code) && NextCodes(w.auth, e, ttls.code)[code].IsConsumed()
  {
    LookupsAreStored(w, e);
  }

  // ---------------------------------------------------------------- where a code comes from

  /** Event `i` of the run sent this code to this user. */
  ghost predicate SentAt(events: seq<Event>, ttls: Ttls, i: nat, id: Uuid, user: Uuid, purpose: CodePurpose)
    requires i < |events| && Legal(events[..i], ttls)
  {
    Sends(After(events[..i], ttls).auth, events[i]) == Some((user, purpose)) && events[i].draw.id == id
  }

  /** A code is issued by the step that sends it and never changes. */
  lemma IssuedNext(w: World, e: Event, ttls: Ttls, id: Uuid)
    requires Enabled(w, e) && id in Advance(w, e, ttls).issued
    ensures var issue := Advance(w, e, ttls).issued[id];
            if Sends(w.auth, e).Some? && e.draw.id == id then Sends(w.auth, e) == Some((issue.user, issue.purpose))
            else id in w.issued && w.issued[id] == issue
  {
  }

  lemma {:induction false} IssuedWasSent(events: seq<Event>, ttls: Ttls, id: Uuid) returns (i: nat)
    requires Legal(events, ttls) && id in After(events, ttls).issued
    ensures i < |events| && Legal(events[..i], ttls) && Enabled(After(events[..i], ttls), events[i])
    ensures var issue := After(events, ttls).issued[id]; SentAt(events, ttls, i, id, issue.user, issue.purpose)
  {
    var n := |events| - 1;
    IssuedNext(After(events[..n], ttls), events[n], ttls, id);
    if Sends(After(events[..n], ttls).auth, events[n]).Some? && events[n].draw.id == id {
      i := n;
    } else {
      i := IssuedWasSent(events[..n], ttls, id);
      assert events[..n][..i] == events[..i];
    }
  }

  /** The person proved to know the password when event `i` sent a sign-in code, having just chosen it or
      given it right; or the address had never been verified when the code was sent again. */
  ghost predicate ProperlySent(events: seq<Event>, ttls: Ttls, i: nat, user: Uuid)
    requires i < |events| && Legal(events[..i], ttls)
  {
    var users := After(events[..i], ttls).auth.users;
    match events[i]
    case Register(_, _, id, _, _) => id == user && user !in users
    case Login(_, password, _, _) => user in users && users[user].passwordHash == Argon2(password)
    case Resend(_, _, _) => user in users && users[user].emailVerifiedAt.None?
    case _ => false
  }

  lemma VerifyCodesAreProper(events: seq<Event>, ttls: Ttls, i: nat, id: Uuid, user: Uuid)
    requires i < |events| && Legal(events[..i], ttls) && Enabled(After(events[..i], ttls), events[i])
    requires SentAt(events, ttls, i, id, user, Verify)
    ensures ProperlySent(events, ttls, i, user)
  {
    Reachable(events[..i], ttls);
    if events[i].Register? {
      assert events[i].id in DrawnIds(events[i]);
    }
  }

  /** Every session opened by confirming a code goes back to a registration, a sign-in with the right
      password, or a code sent again at a moment when the account was unverified. */
  lemma ConfirmedCodeIsProper(events: seq<Event>, ttls: Ttls, j: nat) returns (i: nat)
    requires Legal(events, ttls) && j < |events| && Legal(events[..j], ttls)
    requires events[j].Confirm? && SignsIn(After(events[..j], ttls).auth, events[j])
    ensures i < j && Legal(events[..i], ttls)
    ensures SentAt(events, ttls, i, events[j].active.value.id, events[j].found.value.id, Verify)
    ensures ProperlySent(events, ttls, i, events[j].found.value.id)
  {
    EnabledWhenReached(events, j, ttls);
    var user, id := events[j].found.value.id, events[j].active.value.id;
    ConfirmedIsIssued(After(events[..j], ttls), events[j], events[..j], ttls);
    i := IssuedProperly(events[..j], ttls, id);
    SameOrigin(events, ttls, i, j, id, user);
  }

  lemma IssuedProperly(events: seq<Event>, ttls: Ttls, id: Uuid) returns (i: nat)
    requires Legal(events, ttls) && id in After(events, ttls).issued && After(events, ttls).issued[id].purpose == Verify
    ensures i < |events| && Legal(events[..i], ttls)
    ensures SentAt(events, ttls, i, id, After(events, ttls).issued[id].user, Verify)
    ensures ProperlySent(events, ttls, i, After(events, ttls).issued[id].user)
  {
    i := IssuedWasSent(events, ttls, id);
    VerifyCodesAreProper(events, ttls, i, id, After(events, ttls).issued[id].user);
  }

  /** What happened within a prefix happened in the run. */
  lemma SameOrigin(events: seq<Event>, ttls: Ttls, i: nat, j: nat, id: Uuid, user: Uuid)
    requires i < j <= |events| && Legal(events[..j][..i], ttls)
    requires SentAt(events[..j], ttls, i, id, user, Verify) && ProperlySent(events[..j], ttls, i, user)
    ensures Legal(events[..i], ttls)
    ensures SentAt(events, ttls, i, id, user, Verify) && ProperlySent(events, ttls, i, user)
  {
    assert events[..j][..i] == events[..i] && events[..j][i] == events[i];
  }

  /** An accepted sign-in code was issued to that user for that purpose. */
  lemma ConfirmedIsIssued(w: World, e: Event, events: seq<Event>, ttls: Ttls)
    requires Legal(events, ttls) && w == After(events, ttls) && Enabled(w, e) && e.Confirm? && SignsIn(w.auth, e)
    ensures var id := e.active.value.id;
            id in w.issued && w.issued[id].user == e.found.value.id && w.issued[id].purpose == Verify
  {
    Reachable(events, ttls);
    LookupsAreStored(w, e);
    assert CodeFiled(w.auth.codes, e.active.value.id, w.issued, w.charged);
  }

  /** After a successful reset the user holds exactly the token just issued, and the other users'
      tokens are untouched. */
  lemma ResetLeavesOneToken(w: World, e: Event, ttls: Ttls)
    requires Inv(w) && Enabled(w, e) && e.ResetWith? && SignsIn(w.auth, e)
    ensures var tokens := Advance(w, e, ttls).auth.tokens;
            var user := e.found.value.id;
            && e.token.id in tokens && tokens[e.token.id].tokenHash == TokenDigest(e.token.plaintext)
            && !tokens[e.token.id].IsConsumed()
            && (forall id :: id in tokens && tokens[id].userId == user <==> id == e.token.id)
            && (forall id :: id in w.auth.tokens && w.auth.tokens[id].userId != user ==>
                  id in tokens && tokens[id] == w.auth.tokens[id])
  {
    assert e.token.id in DrawnIds(e);
    forall id | id in w.auth.tokens ensures id != e.token.id {
      assert TokenFiled(w.auth.tokens, id, w.families, w.rotated, w.ids, w.secrets);
    }
  }

  predicate OnlyLive(codes: Codes, user: Uuid, purpose: CodePurpose, only: Uuid)
  {
    forall id :: id in codes ==> (codes[id].LiveFor(user, purpose) <==> id == only)
  }

  /** Sending a code makes it the only live one of its user and purpose. */
  lemma SentCodeIsTheLiveOne(w: World, e: Event, ttls: Ttls)
    requires Inv(w) && Enabled(w, e) && Sends(w.auth, e).Some?
    ensures var v := Advance(w, e, ttls);
            var (user, purpose) := Sends(w.auth, e).value;
            e.draw.id in v.auth.codes && OnlyLive(v.auth.codes, user, purpose, e.draw.id)
  {
  }

  function OfPurpose(codes: Codes, purpose: CodePurpose): Codes
  {
    map id | id in codes && codes[id].purpose == purpose :: codes[id]
  }

  /** A use case working on one purpose leaves the codes of the other exactly as they were. */
  lemma PurposesApart(w: World, e: Event, ttls: Ttls, other: CodePurpose)
    requires Inv(w) && Enabled(w, e) && !e.PurgeCodes? && other != PurposeOf(e)
    ensures OfPurpose(Advance(w, e, ttls).auth.codes, other) == OfPurpose(w.auth.codes, other)
  {
    if Sends(w.auth, e).Some? {
      SendingLeavesOther(w, e, ttls.code, other);
    } else if PresentsCode(e) {
      PresentingLeavesOther(w, e, ttls, other);
    }
  }

  lemma SendingLeavesOther(w: World, e: Event, ttl: nat, other: CodePurpose)
    requires CodesInv(w.auth.codes, w.issued, w.charged, w.ids) && Enabled(w, e)
    requires Sends(w.auth, e).Some? && other != PurposeOf(e)
    ensures OfPurpose(NextCodes(w.auth, e, ttl), other) == OfPurpose(w.auth.codes, other)
  {
    SentDrawIsNew(w, e);
    var (user, purpose) := Sends(w.auth, e).value;
    assert e.draw.id in w.auth.codes ==> CodeFiled(w.auth.codes, e.draw.id, w.issued, w.charged);
    InsertLeavesOther(w.auth.codes, NewCode(user, purpose, e.draw, ttl), other);
  }

  lemma PresentingLeavesOther(w: World, e: Event, ttls: Ttls, other: CodePurpose)
    requires Enabled(w, e) && PresentsCode(e) && other != PurposeOf(e)
    ensures OfPurpose(NextCodes(w.auth, e, ttls.code), other) == OfPurpose(w.auth.codes, other)
  {
    if SignsIn(w.auth, e) {
      ConsumeLeavesOther(w.auth.codes, e.active.value.id, e.now, other);
    } else if ChargesGuess(w.auth, e) {
      AttemptLeavesOther(w.auth.codes, e.active.value.id, other);
    }
  }

  lemma ConsumeLeavesOther(codes: Codes, id: Uuid, at: int, other: CodePurpose)
    requires id in codes && codes[id].purpose != other
    ensures OfPurpose(CodeConsumed(codes, id, at), other) == OfPurpose(codes, other)
  {
  }

  lemma AttemptLeavesOther(codes: Codes, id: Uuid, other: CodePurpose)
    requires id in codes && codes[id].purpose != other
    ensures OfPurpose(AttemptRecorded(codes, id), other) == OfPurpose(codes, other)
  {
  }

  lemma InsertLeavesOther(codes: Codes, code: EmailVerification, other: CodePurpose)
    requires code.id !in codes && code.purpose != other
    ensures OfPurpose(CodeInserted(codes, code), other) == OfPurpose(codes, other)
  {
  }

  /** `Superseded` is answered only for a code really issued to that user and purpose and now
      consumed; the answer changes nothing. */
  lemma SupersededIsHonest(w: World, e: Event, ttls: Ttls)
    requires Inv(w) && Enabled(w, e) && PresentsCode(e) && Refusal(w.auth, e) == Some(Superseded)
    ensures Advance(w, e, ttls).auth == w.auth && Advance(w, e, ttls).charged == w.charged
    ensures e.found.Some?
            && exists id :: id in w.issued && w.issued[id] == Issue(e.found.value.id, PurposeOf(e), CodeDigest(e.code))
                            && id in w.auth.codes && w.auth.codes[id].IsConsumed()
  {
    SupersededIsStale(w.auth, e);
    StaleIsConsumed(w, e.found.value.id, PurposeOf(e), e.active, e.code);
  }

  lemma SupersededIsStale(a: Auth, e: Event)
    requires PresentsCode(e) && Refusal(a, e) == Some(Superseded)
    ensures e.found.Some? && WasIssued(a.codes, e.found.value.id, PurposeOf(e), CodeDigest(e.code))
    ensures e.active.Some? ==> !e.active.value.Matches(e.code)
  {
  }

  lemma StaleIsConsumed(w: World, user: Uuid, purpose: CodePurpose, active: Option<EmailVerification>, code: string)
    requires CodesInv(w.auth.codes, w.issued, w.charged, w.ids) && FindsLive(w.auth.codes, user, purpose, active)
    requires WasIssued(w.auth.codes, user, purpose, CodeDigest(code))
    requires active.Some? ==> !active.value.Matches(code)
    ensures exists id :: id in w.issued && w.issued[id] == Issue(user, purpose, CodeDigest(code))
                         && id in w.auth.codes && w.auth.codes[id].IsConsumed()
  {
    var codes := w.auth.codes;
    var id :| id in codes && codes[id].IssuedAs(user, purpose, CodeDigest(code));
    assert CodeFiled(codes, id, w.issued, w.charged);
    if !codes[id].IsConsumed() {
      assert LiveTogether(codes, id, active.value.id);
    }
  }

  /** The guesses a run charged to one code. */
  function Guesses(events: seq<Event>, ttls: Ttls, id: Uuid): nat
    requires Legal(events, ttls)
  {
    if events == [] then 0
    else
      var before := events[..|events| - 1];
      var e := events[|events| - 1];
      Guesses(before, ttls, id)
        + if ChargesGuess(After(before, ttls).auth, e) && e.active.value.id == id then 1 else 0
  }

  /** No code is ever charged more than five wrong guesses. */
  lemma {:induction false} GuessesCapped(events: seq<Event>, ttls: Ttls, id: Uuid)
    requires Legal(events, ttls)
    ensures Guesses(events, ttls, id) == Charges(After(events, ttls).charged, id) <= 5
  {
    if events != [] {
      GuessesCapped(events[..|events| - 1], ttls, id);
    }
    Reachable(events, ttls);
  }

  // ---------------------------------------------------------------- token families

  /** Each family has one user and at most one unconsumed token. */
  lemma FamiliesHaveOneHead(events: seq<Event>, ttls: Ttls)
    requires Legal(events, ttls)
    ensures var tokens := After(events, ttls).auth.tokens;
            forall i, j :: i in tokens && j in tokens && tokens[i].familyId == tokens[j].familyId ==>
              tokens[i].userId == tokens[j].userId && (i == j || tokens[i].IsConsumed() || tokens[j].IsConsumed())
  {
    Reachable(events, ttls);
    var w := After(events, ttls);
    var tokens := w.auth.tokens;
    forall i, j | i in tokens && j in tokens && tokens[i].familyId == tokens[j].familyId
      ensures tokens[i].userId == tokens[j].userId && (i == j || tokens[i].IsConsumed() || tokens[j].IsConsumed())
    {
      assert TokenFiled(tokens, i, w.families, w.rotated, w.ids, w.secrets);
      assert TokenFiled(tokens, j, w.families, w.rotated, w.ids, w.secrets);
      assert i == j || !LiveSiblings(tokens, i, j);
    }
  }

  lemma {:induction false} PrefixLegal(events: seq<Event>, k: nat, ttls: Ttls)
    requires Legal(events, ttls) && k <= |events|
    ensures Legal(events[..k], ttls)
  {
    if k == |events| {
      assert events[..k] == events;
    } else {
      PrefixLegal(events[..|events| - 1], k, ttls);
      assert events[..|events| - 1][..k] == events[..k];
    }
  }

  lemma {:induction false} RotationLogged(events: seq<Event>, i: nat, ttls: Ttls)
    requires Legal(events, ttls) && i < |events| && Rotates(events[i])
    ensures events[i].presented in After(events, ttls).rotated
  {
    if i < |events| - 1 {
      RotationLogged(events[..|events| - 1], i, ttls);
    }
  }

  /** Each plaintext rotates successfully at most once in a whole run. */
  lemma RotatesOnce(events: seq<Event>, i: nat, j: nat, ttls: Ttls)
    requires Legal(events, ttls) && i < j < |events|
    requires Rotates(events[i]) && Rotates(events[j])
    ensures events[i].presented != events[j].presented
  {
    EnabledWhenReached(events, j, ttls);
    RotationLogged(events[..j], i, ttls);
    Reachable(events[..j], ttls);
    RotatingIsFirst(After(events[..j], ttls), events[j]);
  }

  lemma EnabledWhenReached(events: seq<Event>, j: nat, ttls: Ttls)
    requires Legal(events, ttls) && j < |events|
    ensures Legal(events[..j], ttls) && Enabled(After(events[..j], ttls), events[j])
  {
    PrefixLegal(events, j + 1, ttls);
    PrefixLegal(events, j, ttls);
    var upTo := events[..j + 1];
    assert upTo[..|upTo| - 1] == events[..j];
  }

  lemma RotatingIsFirst(w: World, e: Event)
    requires Inv(w) && Enabled(w, e) && Rotates(e)
    ensures e.presented !in w.rotated
  {
    assert TokenFiled(w.auth.tokens, e.stored.value.id, w.families, w.rotated, w.ids, w.secrets);
  }

  predicate FamilyEmpty(tokens: Tokens, family: Uuid)
  {
    forall id :: id in tokens ==> tokens[id].familyId != family
  }

  /** A replayed token or a logout empties its family and touches no other. */
  lemma RevocationIsExact(w: World, e: Event, ttls: Ttls)
    requires Inv(w) && Enabled(w, e)
    requires Replays(e) || (e.Logout? && e.stored.Some?)
    ensures var tokens := Advance(w, e, ttls).auth.tokens;
            var family := e.stored.value.familyId;
            FamilyEmpty(tokens, family)
            && forall id :: id in w.auth.tokens && w.auth.tokens[id].familyId != family ==>
                 id in tokens && tokens[id] == w.auth.tokens[id]
  {
  }

  /** What rotation and logout looked up is stored. */
  predicate LookupIsStored(tokens: Tokens, e: Event)
  {
    e.Rotate? && e.stored.Some? ==> e.stored.value.id in tokens && tokens[e.stored.value.id] == e.stored.value
  }

  lemma NextKeepsEmpty(a: Auth, e: Event, ttl: nat, family: Uuid)
    requires FamilyEmpty(a.tokens, family) && LookupIsStored(a.tokens, e)
    requires SignsIn(a, e) ==> e.token.family != family
    ensures FamilyEmpty(NextTokens(a, e, ttl), family)
  {
  }

  lemma EmptyStaysEmpty(w: World, e: Event, ttls: Ttls, family: Uuid)
    requires Enabled(w, e) && family in w.ids && FamilyEmpty(w.auth.tokens, family)
    ensures FamilyEmpty(Advance(w, e, ttls).auth.tokens, family)
  {
    if SignsIn(w.auth, e) {
      SignInDrawsAreNew(w, e);
    }
    NextKeepsEmpty(w.auth, e, ttls.token, family);
  }

  /** Once a drawn family is empty, nothing ever re-enters it, however the run goes on. */
  lemma {:induction false} DeadFamiliesStayDead(events: seq<Event>, k: nat, ttls: Ttls, family: Uuid)
    requires Legal(events, ttls) && k <= |events| && Legal(events[..k], ttls)
    requires var w := After(events[..k], ttls); family in w.ids && FamilyEmpty(w.auth.tokens, family)
    ensures family in After(events, ttls).ids && FamilyEmpty(After(events, ttls).auth.tokens, family)
  {
    if k == |events| {
      assert events[..k] == events;
    } else {
      var before := events[..|events| - 1];
      assert before[..k] == events[..k];
      DeadFamiliesStayDead(before, k, ttls, family);
      Reachable(before, ttls);
      EmptyStaysEmpty(After(before, ttls), events[|events| - 1], ttls, family);
    }
  }
}
