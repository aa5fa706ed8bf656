/** Token rotations with their store calls apart: between finding a token, marking it consumed and
    storing its successor, any other request may run. */
module RotationRuns {
  import opened Common
  import opened AuthStores
  import opened AuthFlows

  datatype Phase = Found | Marked | Over

  /** A rotation in flight: the copy it found, when it looked at its expiry, and how far it got. */
  datatype Rotation = Rotation(token: RefreshToken, checkedAt: int, phase: Phase)
  {
    predicate Accepts() { !token.IsConsumed() && !token.IsExpired(checkedAt) }
    predicate IsPending(family: Uuid) { phase == Marked && token.familyId == family }
    predicate WillInsert(family: Uuid)
    {
      token.familyId == family && (phase == Marked || (phase == Found && Accepts()))
    }
  }

  /** `Open` is a sign-in, `Remove` a logout, a reset or a purge; the others are the store calls of a
      rotation, which a request may also leave unfinished. */
  datatype Event =
    | Open(user: Uuid, draw: FreshToken)
    | Find(presented: string, stored: Option<RefreshToken>, checkedAt: int)
    | Mark(hand: nat, at: int)
    | Insert(hand: nat, draw: FreshToken)
    | Reject(hand: nat)
    | Remove(ids: set<Uuid>)

  datatype State = State(tokens: Tokens, rotations: seq<Rotation>, known: set<Uuid>)

  const EMPTY := State(map[], [], {})

  predicate AtPhase(s: State, hand: nat, phase: Phase)
  {
    hand < |s.rotations| && s.rotations[hand].phase == phase
  }

  predicate Enabled(s: State, e: Event)
  {
    match e
    case Open(_, draw) => draw.id !in s.known && draw.family !in s.known
    case Find(presented, stored, _) => FindsToken(s.tokens, TokenDigest(presented), stored)
    case Mark(hand, _) => AtPhase(s, hand, Found) && s.rotations[hand].Accepts()
    case Insert(hand, draw) => AtPhase(s, hand, Marked) && draw.id !in s.known
    case Reject(hand) => AtPhase(s, hand, Found) && !s.rotations[hand].Accepts()
    case Remove(_) => true
  }

  function Moved(s: State, hand: nat, phase: Phase): seq<Rotation>
    requires hand < |s.rotations|
  {
    s.rotations[hand := s.rotations[hand].(phase := phase)]
  }

  function Step(ttl: nat, s: State, e: Event): State
    requires Enabled(s, e)
  {
    match e
    case Open(user, draw) => State(Opened(s.tokens, user, draw, ttl), s.rotations, s.known + {draw.id, draw.family})
    case Find(_, stored, checkedAt) =>
      if stored.None? then s else s.(rotations := s.rotations + [Rotation(stored.value, checkedAt, Found)])
    case Mark(hand, at) =>
      s.(tokens := TokenConsumed(s.tokens, s.rotations[hand].token.id, at), rotations := Moved(s, hand, Marked))
    case Insert(hand, draw) =>
      var t := s.rotations[hand].token;
      State(s.tokens[draw.id := NewToken(t.userId, t.familyId, draw, ttl)], Moved(s, hand, Over), s.known + {draw.id})
    case Reject(hand) =>
      var t := s.rotations[hand].token;
      s.(tokens := if t.IsConsumed() then WithoutFamily(s.tokens, t.familyId) else s.tokens - {t.id},
         rotations := Moved(s, hand, Over))
    case Remove(ids) => s.(tokens := s.tokens - ids)
  }

  predicate Legal(ttl: nat, run: seq<Event>)
    decreases |run|, 0
  {
    run == [] || (Legal(ttl, run[..|run| - 1]) && Enabled(After(ttl, run[..|run| - 1]), run[|run| - 1]))
  }

  function After(ttl: nat, run: seq<Event>): State
    requires Legal(ttl, run)
    decreases |run|, 1
  {
    if run == [] then EMPTY else Step(ttl, After(ttl, run[..|run| - 1]), run[|run| - 1])
  }

  /** The store calls of one rotation with nothing in between are the rotation. */
  lemma RotateIsItsCalls(ttl: nat, s: State, presented: string, stored: Option<RefreshToken>, checkedAt: int,
                         markedAt: int, draw: FreshToken)
    requires FindsToken(s.tokens, TokenDigest(presented), stored) && draw.id !in s.known
    ensures var hand := |s.rotations|;
            var found := Step(ttl, s, Find(presented, stored, checkedAt));
            var rotated := Rotated(s.tokens, stored, checkedAt, markedAt, draw, ttl).0;
            if stored.None? then found.tokens == rotated
            else if found.rotations[hand].Accepts() then
              && Enabled(found, Mark(hand, markedAt))
              && var marked := Step(ttl, found, Mark(hand, markedAt));
                 Enabled(marked, Insert(hand, draw)) && Step(ttl, marked, Insert(hand, draw)).tokens == rotated
            else Enabled(found, Reject(hand)) && Step(ttl, found, Reject(hand)).tokens == rotated
  {
  }

  // ---------------------------------------------------------------- what every run keeps

  predicate TokensKnown(s: State)
  {
    forall id :: id in s.tokens ==> s.tokens[id].id == id && id in s.known && s.tokens[id].familyId in s.known
  }

  /** A rotation holds a copy of a token of the same family, and marks only what it accepts. */
  predicate RotationKnown(s: State, r: Rotation)
  {
    && r.token.id in s.known && r.token.familyId in s.known
    && (r.token.id in s.tokens ==> s.tokens[r.token.id].familyId == r.token.familyId)
    && (r.phase == Marked ==> r.Accepts())
  }

  predicate Inv(s: State)
  {
    TokensKnown(s) && forall i :: 0 <= i < |s.rotations| ==> RotationKnown(s, s.rotations[i])
  }

  lemma StepKeepsInv(ttl: nat, s: State, e: Event)
    requires Inv(s) && Enabled(s, e)
    ensures Inv(Step(ttl, s, e)) && s.known <= Step(ttl, s, e).known
  {
    var after := Step(ttl, s, e);
    assert TokensKnown(after);
    forall i | 0 <= i < |after.rotations| ensures RotationKnown(after, after.rotations[i]) {
      assert i < |s.rotations| ==> RotationKnown(s, s.rotations[i]);
    }
  }

  lemma {:induction false} Reachable(ttl: nat, run: seq<Event>)
    requires Legal(ttl, run)
    ensures Inv(After(ttl, run))
  {
    if run != [] {
      Reachable(ttl, run[..|run| - 1]);
      StepKeepsInv(ttl, After(ttl, run[..|run| - 1]), run[|run| - 1]);
    }
  }

  // ---------------------------------------------------------------- the heads of a family

  /** The unconsumed tokens of a family. */
  ghost function LiveIn(tokens: Tokens, family: Uuid): set<Uuid>
  {
    set id | id in tokens && tokens[id].familyId == family && !tokens[id].IsConsumed()
  }

  /** The rotations that have marked a token of the family and not yet stored its successor. */
  ghost function PendingIn(rotations: seq<Rotation>, family: Uuid): set<nat>
  {
    set i | 0 <= i < |rotations| && rotations[i].IsPending(family)
  }

  /** Unconsumed tokens, stored or about to be. */
  ghost function Heads(s: State, family: Uuid): nat
  {
    |LiveIn(s.tokens, family)| + |PendingIn(s.rotations, family)|
  }

  /** A mark comes too late: the token it found unconsumed is consumed or gone by now. */
  predicate Overtaken(s: State, e: Event)
    requires Enabled(s, e)
  {
    e.Mark? && (var id := s.rotations[e.hand].token.id; id in s.tokens ==> s.tokens[id].IsConsumed())
  }

  predicate OvertakenIn(s: State, e: Event, family: Uuid)
    requires Enabled(s, e)
  {
    Overtaken(s, e) && s.rotations[e.hand].token.familyId == family
  }

  /** The tokens an event deletes. */
  ghost function Taken(s: State, e: Event): set<Uuid>
    requires Enabled(s, e)
  {
    match e
    case Reject(hand) =>
      var t := s.rotations[hand].token;
      if t.IsConsumed() then set id | id in s.tokens && s.tokens[id].familyId == t.familyId else {t.id}
    case Remove(ids) => ids
    case _ => {}
  }

  /** The heads an event adds to a family. */
  function Gain(s: State, e: Event, family: Uuid): nat
    requires Enabled(s, e)
  {
    if e.Open? && e.draw.family == family then 1
    else if OvertakenIn(s, e, family) then 1
    else 0
  }

  ghost function Loss(s: State, e: Event, family: Uuid): nat
    requires Enabled(s, e)
  {
    |LiveIn(s.tokens, family) * Taken(s, e)|
  }

  lemma PendingMoved(s: State, hand: nat, phase: Phase, family: Uuid)
    requires hand < |s.rotations|
    ensures var r := s.rotations[hand];
            PendingIn(Moved(s, hand, phase), family)
            == (PendingIn(s.rotations, family) - {hand})
               + if phase == Marked && r.token.familyId == family then {hand} else {}
  {
    var after := Moved(s, hand, phase);
    assert forall i :: 0 <= i < |after| && i != hand ==> after[i] == s.rotations[i];
  }

  lemma PendingFound(rotations: seq<Rotation>, r: Rotation, family: Uuid)
    requires r.phase == Found
    ensures PendingIn(rotations + [r], family) == PendingIn(rotations, family)
  {
    var after := rotations + [r];
    assert forall i :: 0 <= i < |rotations| ==> after[i] == rotations[i];
  }

  lemma LiveStored(tokens: Tokens, t: RefreshToken, family: Uuid)
    requires t.id !in tokens && !t.IsConsumed()
    ensures LiveIn(tokens[t.id := t], family) == LiveIn(tokens, family) + if t.familyId == family then {t.id} else {}
  {
  }

  lemma LiveMarked(tokens: Tokens, id: Uuid, at: int, family: Uuid)
    ensures LiveIn(TokenConsumed(tokens, id, at), family) == LiveIn(tokens, family) - {id}
  {
  }

  lemma LiveTaken(tokens: Tokens, ids: set<Uuid>, family: Uuid)
    ensures |LiveIn(tokens - ids, family)| + |LiveIn(tokens, family) * ids| == |LiveIn(tokens, family)|
  {
    var live := LiveIn(tokens, family);
    assert LiveIn(tokens - ids, family) == live - ids;
    assert live == (live - ids) + live * ids;
  }

  lemma RejectTakes(ttl: nat, s: State, e: Event)
    requires Enabled(s, e) && (e.Reject? || e.Remove?)
    ensures Step(ttl, s, e).tokens == s.tokens - Taken(s, e)
  {
    if e.Reject? {
      var t := s.rotations[e.hand].token;
      if t.IsConsumed() {
        assert WithoutFamily(s.tokens, t.familyId) == s.tokens - Taken(s, e);
      }
    }
  }

  lemma MarkHeads(ttl: nat, s: State, e: Event, family: Uuid)
    requires Inv(s) && Enabled(s, e) && e.Mark?
    ensures Heads(Step(ttl, s, e), family) == Heads(s, family) + Gain(s, e, family)
  {
    var t := s.rotations[e.hand].token;
    assert RotationKnown(s, s.rotations[e.hand]);
    LiveMarked(s.tokens, t.id, e.at, family);
    PendingMoved(s, e.hand, Marked, family);
    assert e.hand !in PendingIn(s.rotations, family);
    assert t.id in LiveIn(s.tokens, family) <==> t.familyId == family && !Overtaken(s, e);
  }

  lemma InsertHeads(ttl: nat, s: State, e: Event, family: Uuid)
    requires Inv(s) && Enabled(s, e) && e.Insert?
    ensures Heads(Step(ttl, s, e), family) == Heads(s, family)
  {
    var t := s.rotations[e.hand].token;
    LiveStored(s.tokens, NewToken(t.userId, t.familyId, e.draw, ttl), family);
    PendingMoved(s, e.hand, Over, family);
    assert e.hand in PendingIn(s.rotations, family) <==> t.familyId == family;
  }

  lemma DeleteHeads(ttl: nat, s: State, e: Event, family: Uuid)
    requires Enabled(s, e) && (e.Reject? || e.Remove?)
    ensures Heads(Step(ttl, s, e), family) + Loss(s, e, family) == Heads(s, family)
  {
    RejectTakes(ttl, s, e);
    LiveTaken(s.tokens, Taken(s, e), family);
    if e.Reject? {
      PendingMoved(s, e.hand, Over, family);
      assert e.hand !in PendingIn(s.rotations, family);
    }
  }

  /** Only a sign-in and an overtaken mark add a head; only a deletion removes one. */
  lemma StepHeads(ttl: nat, s: State, e: Event, family: Uuid)
    requires Inv(s) && Enabled(s, e)
    ensures Heads(Step(ttl, s, e), family) + Loss(s, e, family) == Heads(s, family) + Gain(s, e, family)
  {
    if e.Reject? || e.Remove? {
      DeleteHeads(ttl, s, e, family);
    } else {
      assert LiveIn(s.tokens, family) * Taken(s, e) == {};
      match e
      case Open(user, draw) => LiveStored(s.tokens, NewToken(user, draw.family, draw, ttl), family);
      case Find(_, stored, checkedAt) =>
        if stored.Some? {
          PendingFound(s.rotations, Rotation(stored.value, checkedAt, Found), family);
        }
      case Mark(_, _) => MarkHeads(ttl, s, e, family);
      case Insert(_, _) => InsertHeads(ttl, s, e, family);
    }
  }

  ghost function Gained(ttl: nat, run: seq<Event>, family: Uuid): nat
    requires Legal(ttl, run)
  {
    if run == [] then 0
    else
      var init := run[..|run| - 1];
      Gained(ttl, init, family) + Gain(After(ttl, init), run[|run| - 1], family)
  }

  ghost function Lost(ttl: nat, run: seq<Event>, family: Uuid): nat
    requires Legal(ttl, run)
  {
    if run == [] then 0
    else
      var init := run[..|run| - 1];
      Lost(ttl, init, family) + Loss(After(ttl, init), run[|run| - 1], family)
  }

  /** The heads of a family and the deleted ones together are those that were ever added. */
  lemma {:induction false} HeadsConserved(ttl: nat, run: seq<Event>, family: Uuid)
    requires Legal(ttl, run)
    ensures Heads(After(ttl, run), family) + Lost(ttl, run, family) == Gained(ttl, run, family)
  {
    if run == [] {
      assert LiveIn(EMPTY.tokens, family) == {} && PendingIn(EMPTY.rotations, family) == {};
    } else {
      var init := run[..|run| - 1];
      HeadsConserved(ttl, init, family);
      Reachable(ttl, init);
      StepHeads(ttl, After(ttl, init), run[|run| - 1], family);
    }
  }

  /** How many marks of a family came too late. */
  ghost function Overtakes(ttl: nat, run: seq<Event>, family: Uuid): nat
    requires Legal(ttl, run)
  {
    if run == [] then 0
    else
      var init, e := run[..|run| - 1], run[|run| - 1];
      Overtakes(ttl, init, family) + if OvertakenIn(After(ttl, init), e, family) then 1 else 0
  }

  lemma {:induction false} OpenedOnce(ttl: nat, run: seq<Event>, family: Uuid)
    requires Legal(ttl, run)
    ensures Gained(ttl, run, family) <= 1 + Overtakes(ttl, run, family)
    ensures family !in After(ttl, run).known ==> Gained(ttl, run, family) == Overtakes(ttl, run, family) == 0
  {
    if run != [] {
      var init, e := run[..|run| - 1], run[|run| - 1];
      OpenedOnce(ttl, init, family);
      Reachable(ttl, init);
      StepKeepsInv(ttl, After(ttl, init), e);
      assert e.Mark? ==> RotationKnown(After(ttl, init), After(ttl, init).rotations[e.hand]);
    }
  }

  /** However the calls interleave, a family has at most one unconsumed token for each mark that came
      too late, and one. */
  lemma HeadsBounded(ttl: nat, run: seq<Event>, family: Uuid)
    requires Legal(ttl, run)
    ensures |LiveIn(After(ttl, run).tokens, family)| <= 1 + Overtakes(ttl, run, family)
  {
    HeadsConserved(ttl, run, family);
    OpenedOnce(ttl, run, family);
  }

  // ---------------------------------------------------------------- exactly when there is one head

  ghost predicate OneHead(s: State)
  {
    forall family :: Heads(s, family) <= 1
  }

  /** A mark that comes too late although its family has a head. */
  ghost predicate Doubles(s: State, e: Event)
    requires Enabled(s, e)
  {
    Overtaken(s, e) && Heads(s, s.rotations[e.hand].token.familyId) > 0
  }

  lemma StepOneHead(ttl: nat, s: State, e: Event)
    requires Inv(s) && Enabled(s, e) && OneHead(s)
    ensures OneHead(Step(ttl, s, e)) <==> !Doubles(s, e)
  {
    forall family ensures Heads(Step(ttl, s, e), family) <= Heads(s, family) + Gain(s, e, family) {
      StepHeads(ttl, s, e, family);
    }
    if e.Mark? {
      MarkHeads(ttl, s, e, s.rotations[e.hand].token.familyId);
    }
    if e.Open? {
      NoHeads(s, e.draw.family);
    }
  }

  lemma NoHeads(s: State, family: Uuid)
    requires Inv(s) && family !in s.known
    ensures Heads(s, family) == 0
  {
    forall i | 0 <= i < |s.rotations| ensures !s.rotations[i].IsPending(family) {
      assert RotationKnown(s, s.rotations[i]);
    }
    assert LiveIn(s.tokens, family) == {} && PendingIn(s.rotations, family) == {};
  }

  /** Every family has at most one head after each step of the run. */
  ghost predicate OneHeadThroughout(ttl: nat, run: seq<Event>)
    requires Legal(ttl, run)
  {
    OneHead(After(ttl, run)) && (run == [] || OneHeadThroughout(ttl, run[..|run| - 1]))
  }

  ghost predicate NeverDoubles(ttl: nat, run: seq<Event>)
    requires Legal(ttl, run)
  {
    run == [] ||
    (NeverDoubles(ttl, run[..|run| - 1]) && !Doubles(After(ttl, run[..|run| - 1]), run[|run| - 1]))
  }

  /** Families keep one head throughout a run if and only if no mark of it doubles one. */
  lemma {:induction false} OneHeadIff(ttl: nat, run: seq<Event>)
    requires Legal(ttl, run)
    ensures OneHeadThroughout(ttl, run) <==> NeverDoubles(ttl, run)
  {
    if run == [] {
      forall family ensures Heads(EMPTY, family) <= 1 {
        NoHeads(EMPTY, family);
      }
    } else {
      var init, e := run[..|run| - 1], run[|run| - 1];
      OneHeadIff(ttl, init);
      Reachable(ttl, init);
      if OneHead(After(ttl, init)) {
        StepOneHead(ttl, After(ttl, init), e);
      }
    }
  }

  // ---------------------------------------------------------------- exactly when a mark comes too late

  predicate IsLive(s: State, id: Uuid) { id in s.tokens && !s.tokens[id].IsConsumed() }

  /** Another rotation of the same token marks it, or it is deleted. */
  ghost predicate Spoils(s: State, e: Event, id: Uuid)
    requires Enabled(s, e)
  {
    (e.Mark? && s.rotations[e.hand].token.id == id) || id in Taken(s, e)
  }

  lemma StepLive(ttl: nat, s: State, e: Event, id: Uuid)
    requires Inv(s) && Enabled(s, e) && id in s.known
    ensures IsLive(Step(ttl, s, e), id) <==> IsLive(s, id) && !Spoils(s, e, id)
  {
    if e.Reject? || e.Remove? {
      RejectTakes(ttl, s, e);
    }
  }

  /** Something after step `i` of the run spoiled the token. */
  ghost predicate SpoiledSince(ttl: nat, run: seq<Event>, i: nat, id: Uuid)
    requires Legal(ttl, run)
  {
    |run| > i + 1
    && (SpoiledSince(ttl, run[..|run| - 1], i, id) || Spoils(After(ttl, run[..|run| - 1]), run[|run| - 1], id))
  }

  /** Step `i` finds the token `t` unconsumed and becomes the rotation `hand`. */
  ghost predicate FindsAt(ttl: nat, run: seq<Event>, i: nat, hand: nat, t: RefreshToken)
    requires Legal(ttl, run)
  {
    i < |run| &&
    if i == |run| - 1 then
      run[i].Find? && run[i].stored == Some(t) && !t.IsConsumed() && |After(ttl, run[..i]).rotations| == hand
    else FindsAt(ttl, run[..|run| - 1], i, hand, t)
  }

  lemma RotationsKeepCopies(ttl: nat, s: State, e: Event, hand: nat)
    requires Enabled(s, e) && hand < |s.rotations|
    ensures hand < |Step(ttl, s, e).rotations| && Step(ttl, s, e).rotations[hand].token == s.rotations[hand].token
  {
  }

  lemma {:induction false} LiveUntilSpoiled(ttl: nat, run: seq<Event>, i: nat, hand: nat, t: RefreshToken)
    requires Legal(ttl, run) && FindsAt(ttl, run, i, hand, t)
    ensures var s := After(ttl, run);
            && t.id in s.known && hand < |s.rotations| && s.rotations[hand].token == t
            && (IsLive(s, t.id) <==> !SpoiledSince(ttl, run, i, t.id))
  {
    var init, e := run[..|run| - 1], run[|run| - 1];
    Reachable(ttl, init);
    if i < |init| {
      LiveUntilSpoiled(ttl, init, i, hand, t);
      StepLive(ttl, After(ttl, init), e, t.id);
      StepKeepsInv(ttl, After(ttl, init), e);
      RotationsKeepCopies(ttl, After(ttl, init), e, hand);
    }
  }

  /** A rotation marks too late if and only if, since it found its token, another rotation marked the
      same token or the token was deleted. So the second of two rotations of one token adds a head
      exactly when it finds the token before the first one marks it. */
  lemma OvertakenIff(ttl: nat, run: seq<Event>, i: nat, hand: nat, t: RefreshToken, at: int)
    requires Legal(ttl, run) && FindsAt(ttl, run, i, hand, t) && Enabled(After(ttl, run), Mark(hand, at))
    ensures Overtaken(After(ttl, run), Mark(hand, at)) <==> SpoiledSince(ttl, run, i, t.id)
  {
    LiveUntilSpoiled(ttl, run, i, hand, t);
  }

  // ---------------------------------------------------------------- a dead family may come back

  predicate Dead(s: State, family: Uuid)
  {
    forall id :: id in s.tokens ==> s.tokens[id].familyId != family
  }

  predicate Unfinished(s: State, family: Uuid)
  {
    exists i :: 0 <= i < |s.rotations| && s.rotations[i].WillInsert(family)
  }

  lemma OneMore(ttl: nat, run: seq<Event>, e: Event)
    requires Legal(ttl, run) && Enabled(After(ttl, run), e)
    ensures Legal(ttl, run + [e]) && After(ttl, run + [e]) == Step(ttl, After(ttl, run), e)
    ensures forall family ::
              Overtakes(ttl, run + [e], family)
              == Overtakes(ttl, run, family) + (if OvertakenIn(After(ttl, run), e, family) then 1 else 0)
  {
    assert (run + [e])[..|run|] == run;
  }

  /** Nothing is stored of the family and no rotation will store anything. */
  predicate Finished(s: State, family: Uuid)
  {
    family in s.known && Dead(s, family) && !Unfinished(s, family)
  }

  lemma StepKeepsFinished(ttl: nat, s: State, e: Event, family: Uuid)
    requires Inv(s) && Enabled(s, e) && Finished(s, family)
    ensures Finished(Step(ttl, s, e), family)
  {
    var after := Step(ttl, s, e);
    forall i | 0 <= i < |after.rotations| ensures !after.rotations[i].WillInsert(family) {
      assert i < |s.rotations| ==> !s.rotations[i].WillInsert(family);
    }
    assert e.Insert? ==> !s.rotations[e.hand].WillInsert(family);
  }

  lemma {:induction false} StaysFinished(ttl: nat, run: seq<Event>, more: seq<Event>, family: Uuid)
    requires Legal(ttl, run) && Legal(ttl, run + more) && Finished(After(ttl, run), family)
    ensures Finished(After(ttl, run + more), family)
  {
    if more == [] {
      assert run + more == run;
    } else {
      var init := more[..|more| - 1];
      assert (run + more)[..|run + more| - 1] == run + init;
      StaysFinished(ttl, run, init, family);
      Reachable(ttl, run + init);
      StepKeepsFinished(ttl, After(ttl, run + init), more[|more| - 1], family);
    }
  }

  lemma {:induction false} UnusedId(ids: set<Uuid>) returns (unused: Uuid)
    ensures forall id :: id in ids ==> id < unused
  {
    if ids == {} {
      unused := 0;
    } else {
      var some :| some in ids;
      var above := UnusedId(ids - {some});
      unused := if some < above then above else some + 1;
      forall id | id in ids ensures id < unused {
        assert id == some || id in ids - {some};
      }
    }
  }

  lemma InsertRevives(ttl: nat, run: seq<Event>, hand: nat, family: Uuid) returns (more: seq<Event>)
    requires Legal(ttl, run) && AtPhase(After(ttl, run), hand, Marked)
    requires After(ttl, run).rotations[hand].token.familyId == family
    ensures Legal(ttl, run + more) && !Dead(After(ttl, run + more), family)
  {
    var s := After(ttl, run);
    var unused := UnusedId(s.known);
    var insert := Insert(hand, FreshToken(unused, unused, "", 0, true));
    more := [insert];
    OneMore(ttl, run, insert);
    assert unused in Step(ttl, s, insert).tokens;
  }

  /** A rotation still to store its successor can bring the family back. */
  lemma UnfinishedRevives(ttl: nat, run: seq<Event>, family: Uuid) returns (more: seq<Event>)
    requires Legal(ttl, run) && Unfinished(After(ttl, run), family)
    ensures Legal(ttl, run + more) && !Dead(After(ttl, run + more), family)
  {
    var s := After(ttl, run);
    var hand :| 0 <= hand < |s.rotations| && s.rotations[hand].WillInsert(family);
    if s.rotations[hand].phase == Marked {
      more := InsertRevives(ttl, run, hand, family);
    } else {
      OneMore(ttl, run, Mark(hand, 0));
      var later := InsertRevives(ttl, run + [Mark(hand, 0)], hand, family);
      more := [Mark(hand, 0)] + later;
      ConcatAssociative(run, [Mark(hand, 0)], later);
    }
  }

  ghost predicate StaysDead(ttl: nat, run: seq<Event>, family: Uuid)
    requires Legal(ttl, run)
  {
    forall more :: Legal(ttl, run + more) ==> Dead(After(ttl, run + more), family)
  }

  /** A family that was opened and is now empty, by a logout, a reset or a detected replay, stays empty
      if and only if no rotation of it is in flight. */
  lemma StaysDeadIff(ttl: nat, run: seq<Event>, family: Uuid)
    requires Legal(ttl, run) && family in After(ttl, run).known && Dead(After(ttl, run), family)
    ensures StaysDead(ttl, run, family) <==> !Unfinished(After(ttl, run), family)
  {
    if Unfinished(After(ttl, run), family) {
      var more := UnfinishedRevives(ttl, run, family);
      assert !StaysDead(ttl, run, family);
    } else {
      forall more | Legal(ttl, run + more) ensures Dead(After(ttl, run + more), family) {
        StaysFinished(ttl, run, more, family);
      }
    }
  }

  // ---------------------------------------------------------------- runs that show it

  /** The token a sign-in opens its family with. */
  function First(user: Uuid, draw: FreshToken, ttl: nat): RefreshToken { NewToken(user, draw.family, draw, ttl) }

  function Consumed(t: RefreshToken, at: int): RefreshToken { t.(consumedAt := Some(at)) }

  /** `n` rotations of one token: the first `marked` have marked it. */
  function Rotations(t: RefreshToken, n: nat, marked: nat): seq<Rotation>
  {
    seq(n, i => Rotation(t, t.createdAt, if i < marked then Marked else Found))
  }

  lemma OpenOne(ttl: nat, user: Uuid, draw: FreshToken) returns (run: seq<Event>)
    ensures Legal(ttl, run)
    ensures var t := First(user, draw, ttl);
            After(ttl, run) == State(map[t.id := t], [], {draw.id, draw.family})
            && Overtakes(ttl, run, draw.family) == 0
  {
    OneMore(ttl, [], Open(user, draw));
    run := [] + [Open(user, draw)];
  }

  /** `n` requests find the same token. */
  lemma {:induction false} FindMany(ttl: nat, user: Uuid, draw: FreshToken, n: nat) returns (run: seq<Event>)
    ensures Legal(ttl, run)
    ensures var t := First(user, draw, ttl);
            After(ttl, run) == State(map[t.id := t], Rotations(t, n, 0), {draw.id, draw.family})
            && Overtakes(ttl, run, draw.family) == 0
  {
    var t := First(user, draw, ttl);
    if n == 0 {
      run := OpenOne(ttl, user, draw);
    } else {
      run := FindMany(ttl, user, draw, n - 1);
      var find := Find(draw.plaintext, Some(t), t.createdAt);
      OneMore(ttl, run, find);
      run := run + [find];
      assert Rotations(t, n, 0) == Rotations(t, n - 1, 0) + [Rotation(t, t.createdAt, Found)];
    }
  }

  /** Then `m` of them mark it, and all but the first come too late. */
  lemma {:induction false} MarkMany(ttl: nat, user: Uuid, draw: FreshToken, n: nat, m: nat) returns (run: seq<Event>)
    requires ttl > 0 && 0 < m <= n
    ensures Legal(ttl, run)
    ensures var t := First(user, draw, ttl);
            After(ttl, run) == State(map[t.id := Consumed(t, draw.at)], Rotations(t, n, m), {draw.id, draw.family})
            && Overtakes(ttl, run, draw.family) == m - 1
  {
    var t := First(user, draw, ttl);
    if m == 1 {
      run := FindMany(ttl, user, draw, n);
    } else {
      run := MarkMany(ttl, user, draw, n, m - 1);
    }
    OneMore(ttl, run, Mark(m - 1, draw.at));
    run := run + [Mark(m - 1, draw.at)];
    assert Rotations(t, n, m)
           == Rotations(t, n, m - 1)[m - 1 := Rotation(t, t.createdAt, Marked)];
  }

  /** `k` of the `n` rotations that marked are over. */
  predicate Finishing(s: State, family: Uuid, n: nat, k: nat)
  {
    && |s.rotations| == n
    && forall i :: 0 <= i < n ==>
         s.rotations[i].token.familyId == family && s.rotations[i].phase == if i < k then Over else Marked
  }

  /** Then `k` of them store their successors. */
  lemma {:induction false} InsertMany(ttl: nat, user: Uuid, draw: FreshToken, n: nat, k: nat) returns (run: seq<Event>)
    requires ttl > 0 && 0 < n && k <= n
    ensures Legal(ttl, run) && Overtakes(ttl, run, draw.family) == n - 1
    ensures Finishing(After(ttl, run), draw.family, n, k) && Heads(After(ttl, run), draw.family) == n
  {
    if k == 0 {
      run := MarkMany(ttl, user, draw, n, n);
      AllPending(After(ttl, run).rotations, draw.family);
      assert LiveIn(After(ttl, run).tokens, draw.family) == {};
    } else {
      run := InsertMany(ttl, user, draw, n, k - 1);
      var s := After(ttl, run);
      var unused := UnusedId(s.known);
      var insert := Insert(k - 1, FreshToken(unused, unused, "", 0, true));
      Reachable(ttl, run);
      InsertHeads(ttl, s, insert, draw.family);
      OneMore(ttl, run, insert);
      run := run + [insert];
    }
  }

  lemma {:induction false} AllPending(rotations: seq<Rotation>, family: Uuid)
    requires forall i :: 0 <= i < |rotations| ==> rotations[i].IsPending(family)
    ensures |PendingIn(rotations, family)| == |rotations|
  {
    if rotations != [] {
      var n := |rotations| - 1;
      AllPending(rotations[..n], family);
      assert PendingIn(rotations, family) == PendingIn(rotations[..n], family) + {n};
    } else {
      assert PendingIn(rotations, family) == {};
    }
  }

  /** The bound is reached: `n` rotations of one token that all found it before one of them marked it
      leave `n` unconsumed tokens in its family. */
  lemma ManyHeads(ttl: nat, user: Uuid, draw: FreshToken, n: nat) returns (run: seq<Event>)
    requires ttl > 0 && n > 0
    ensures Legal(ttl, run) && Overtakes(ttl, run, draw.family) == n - 1
    ensures |LiveIn(After(ttl, run).tokens, draw.family)| == n
  {
    run := InsertMany(ttl, user, draw, n, n);
    assert PendingIn(After(ttl, run).rotations, draw.family) == {};
  }

  /** A replay is detected while the first rotation has yet to store its successor: the family is
      deleted, and then lives again. */
  lemma ReplayOutrun(ttl: nat, user: Uuid, draw: FreshToken) returns (run: seq<Event>, insert: Event)
    requires ttl > 0
    ensures Legal(ttl, run) && run != [] && run[|run| - 1].Reject? && Dead(After(ttl, run), draw.family)
    ensures Enabled(After(ttl, run), insert) && Legal(ttl, run + [insert])
    ensures |LiveIn(After(ttl, run + [insert]).tokens, draw.family)| == 1
  {
    var t := First(user, draw, ttl);
    run := MarkMany(ttl, user, draw, 1, 1);
    var find := Find(draw.plaintext, Some(Consumed(t, draw.at)), draw.at);
    OneMore(ttl, run, find);
    run := run + [find];
    OneMore(ttl, run, Reject(1));
    run := run + [Reject(1)];
    var s := After(ttl, run);
    assert s.tokens == map[];
    var unused := UnusedId(s.known);
    var next := FreshToken(unused, unused, "", 0, true);
    insert := Insert(0, next);
    OneMore(ttl, run, insert);
    LiveStored(s.tokens, NewToken(user, draw.family, next, ttl), draw.family);
    assert LiveIn(s.tokens, draw.family) == {};
  }
}
