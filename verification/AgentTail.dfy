/** The execution tail both orchestrators share: assess, sort, revoke, flag, report, deliver. */
module AgentTail {
  import opened Common
  import opened Findings
  import opened AgentModels

  /** What the revoker answers to its n-th call; an error is a raised exception. */
  type Revoker = (nat, ApprovalFinding) -> Result<ApprovalFinding, string>

  type ThreatIntel = seq<RawApproval> -> Result<seq<Assessment>, string>

  function OutcomeOf(revoker: Revoker, n: nat, finding: ApprovalFinding): ApprovalFinding
  {
    match revoker(n, finding)
    case Ok(outcome) => outcome
    case Err(_) => finding.(revocationStatus := Failed)
  }

  function RevokeReason(outcome: ApprovalFinding): string
  {
    match outcome.revocationStatus
    case Revoked => "auto-revoked: tx "
           + (if outcome.revocationTxHash.Some? then outcome.revocationTxHash.value else "None")
    case Simulated => "simulated only " + "(KEEPERHUB_SIMULATE_ONLY): approval is still live"
    case NotAttempted =>
      "not attempted: "
      + "this wallet is not delegated to KeeperHub, so the approval can only be revoked by its own owner"
    case _ => "revocation " + "attempt failed"
  }

  function NextSeq(steps: seq<AgentStep>): int
  {
    if steps == [] then 1 else steps[|steps| - 1].seqNo + 1
  }

  // ---------------------------------------------------------------- revoke_dangerous

  function Outcomes(revoker: Revoker, targets: seq<ApprovalFinding>): (outcomes: seq<ApprovalFinding>)
    ensures |outcomes| == |targets|
  {
    seq(|targets|, n requires 0 <= n < |targets| => OutcomeOf(revoker, n, targets[n]))
  }

  /** The last outcome filed under a key. */
  function Filed(outcomes: seq<ApprovalFinding>, key: string): Option<ApprovalFinding>
  {
    if outcomes == [] then None
    else if outcomes[|outcomes| - 1].Key() == key then Some(outcomes[|outcomes| - 1])
    else Filed(outcomes[..|outcomes| - 1], key)
  }

  function Folded(findings: seq<ApprovalFinding>, outcomes: seq<ApprovalFinding>): (folded: seq<ApprovalFinding>)
    ensures |folded| == |findings|
  {
    seq(|findings|, i requires 0 <= i < |findings| =>
      match Filed(outcomes, findings[i].Key())
      case Some(outcome) => outcome
      case None => findings[i])
  }

  function RevokeStep(steps: seq<AgentStep>, outcome: ApprovalFinding): AgentStep
  {
    AgentStep(NextSeq(steps), StepKind.Revoke, outcome.spenderAddress, RevokeReason(outcome), 0)
  }

  function Journaled(steps: seq<AgentStep>, outcomes: seq<ApprovalFinding>): seq<AgentStep>
  {
    if outcomes == [] then steps
    else
      var before := Journaled(steps, outcomes[..|outcomes| - 1]);
      before + [RevokeStep(before, outcomes[|outcomes| - 1])]
  }

  /** `journal` is `steps` after the steps appended in place; `calls` is what the revoker was asked. */
  method RevokeDangerous(findings: seq<ApprovalFinding>, revoker: Revoker, steps: seq<AgentStep>)
    returns (revoked: seq<ApprovalFinding>, journal: seq<AgentStep>, calls: seq<ApprovalFinding>)
    ensures calls == ToRevoke(findings)
    ensures revoked == Folded(findings, Outcomes(revoker, calls))
    ensures journal == Journaled(steps, Outcomes(revoker, calls))
  {
    var targets := ToRevoke(findings);
    journal, calls := steps, [];
    if targets == [] {
      assert Folded(findings, Outcomes(revoker, [])) == findings;
      return findings, steps, [];
    }
    var outcomeByKey: map<string, ApprovalFinding> := map[];
    for n := 0 to |targets|
      invariant calls == targets[..n]
      invariant journal == Journaled(steps, Outcomes(revoker, calls))
      invariant Files(outcomeByKey, Outcomes(revoker, calls))
    {
      var finding := targets[n];
      OutcomesSnoc(revoker, calls, finding);
      var outcome := match revoker(n, finding) case Ok(o) => o case Err(_) => finding.(revocationStatus := Failed);
      FilesNext(outcomeByKey, Outcomes(revoker, calls), outcome);
      calls := calls + [finding];
      outcomeByKey := outcomeByKey[outcome.Key() := outcome];
      var step := AgentStep(NextSeq(journal), StepKind.Revoke, outcome.spenderAddress, RevokeReason(outcome), 0);
      journal := journal + [step];
    }
    assert calls == targets;
    revoked := Updated(findings, outcomeByKey);
  }

  function Updated(findings: seq<ApprovalFinding>, outcomeByKey: map<string, ApprovalFinding>)
    : (updated: seq<ApprovalFinding>)
    ensures |updated| == |findings|
  {
    seq(|findings|, i requires 0 <= i < |findings| =>
      var key := findings[i].Key(); if key in outcomeByKey then outcomeByKey[key] else findings[i])
  }

  ghost function Lookup(m: map<string, ApprovalFinding>, key: string): Option<ApprovalFinding>
  {
    if key in m then Some(m[key]) else None
  }

  ghost predicate Files(m: map<string, ApprovalFinding>, outcomes: seq<ApprovalFinding>)
  {
    forall key :: Lookup(m, key) == Filed(outcomes, key)
  }

  lemma FilesNext(m: map<string, ApprovalFinding>, outcomes: seq<ApprovalFinding>, outcome: ApprovalFinding)
    requires Files(m, outcomes)
    ensures Files(m[outcome.Key() := outcome], outcomes + [outcome])
  {
    assert (outcomes + [outcome])[..|outcomes|] == outcomes;
    forall key ensures Lookup(m[outcome.Key() := outcome], key) == Filed(outcomes + [outcome], key) {
      assert Lookup(m, key) == Filed(outcomes, key);
    }
  }

  lemma OutcomesSnoc(revoker: Revoker, calls: seq<ApprovalFinding>, finding: ApprovalFinding)
    ensures var before, outcome := Outcomes(revoker, calls), OutcomeOf(revoker, |calls|, finding);
            && Outcomes(revoker, calls + [finding]) == before + [outcome]
            && (before + [outcome])[..|before|] == before
  {
    var before, outcome := Outcomes(revoker, calls), OutcomeOf(revoker, |calls|, finding);
    assert Outcomes(revoker, calls + [finding]) == before + [outcome];
  }

  // ---------------------------------------------------------------- the gate

  /** A revoker that answers about the approval it was asked about. */
  ghost predicate KeepsKeys(revoker: Revoker)
  {
    forall n, f :: revoker(n, f).Ok? ==> revoker(n, f).value.Key() == f.Key()
  }

  lemma {:induction false} FiledIff(outcomes: seq<ApprovalFinding>, key: string)
    ensures Filed(outcomes, key).Some? <==> exists n :: 0 <= n < |outcomes| && outcomes[n].Key() == key
    ensures Filed(outcomes, key).Some? ==>
              Filed(outcomes, key).value in outcomes && Filed(outcomes, key).value.Key() == key
  {
    if outcomes != [] {
      FiledIff(outcomes[..|outcomes| - 1], key);
      assert outcomes == outcomes[..|outcomes| - 1] + [outcomes[|outcomes| - 1]];
    }
  }

  lemma OutcomesKeepKeys(targets: seq<ApprovalFinding>, revoker: Revoker)
    requires KeepsKeys(revoker)
    ensures forall n :: 0 <= n < |targets| ==> Outcomes(revoker, targets)[n].Key() == targets[n].Key()
  {
  }

  lemma TargetWithKey(findings: seq<ApprovalFinding>, key: string)
    ensures (exists n :: 0 <= n < |ToRevoke(findings)| && ToRevoke(findings)[n].Key() == key)
            <==> exists f :: f in findings && IsDangerous(f) && f.Key() == key
  {
    FilterElements(IsDangerous, findings);
    if n :| 0 <= n < |ToRevoke(findings)| && ToRevoke(findings)[n].Key() == key {
      assert ToRevoke(findings)[n] in ToRevoke(findings);
    }
    if f :| f in findings && IsDangerous(f) && f.Key() == key {
      assert f in ToRevoke(findings);
    }
  }

  /** Exactly the findings that share their key with a dangerous one are replaced. */
  lemma ReplacedIff(findings: seq<ApprovalFinding>, revoker: Revoker, key: string)
    requires KeepsKeys(revoker)
    ensures Filed(Outcomes(revoker, ToRevoke(findings)), key).Some?
            <==> exists f :: f in findings && IsDangerous(f) && f.Key() == key
  {
    TargetWithKey(findings, key);
    OutcomesKeepKeys(ToRevoke(findings), revoker);
    FiledIff(Outcomes(revoker, ToRevoke(findings)), key);
  }

  lemma FoldKeepsKeys(findings: seq<ApprovalFinding>, outcomes: seq<ApprovalFinding>)
    ensures forall i :: 0 <= i < |findings| ==> Folded(findings, outcomes)[i].Key() == findings[i].Key()
  {
    forall i | 0 <= i < |findings| ensures Folded(findings, outcomes)[i].Key() == findings[i].Key() {
      FiledIff(outcomes, findings[i].Key());
    }
  }

  lemma {:induction false} FilterPosition<T>(p: T -> bool, s: seq<T>, i: nat)
    requires i < |s| && p(s[i])
    ensures |Filter(p, s[..i])| < |Filter(p, s)| && Filter(p, s)[|Filter(p, s[..i])|] == s[i]
  {
    var init := s[..|s| - 1];
    if i < |init| {
      FilterPosition(p, init, i);
      assert init[..i] == s[..i];
    }
  }

  lemma {:induction false} FiledAt(outcomes: seq<ApprovalFinding>, n: nat)
    requires n < |outcomes| && Distinct(KeysOf(outcomes))
    ensures Filed(outcomes, outcomes[n].Key()) == Some(outcomes[n])
  {
    var init := outcomes[..|outcomes| - 1];
    KeysOfPointwise(outcomes);
    KeysOfPointwise(init);
    if n < |init| {
      assert KeysOf(outcomes)[n] != KeysOf(outcomes)[|init|];
      FiledAt(init, n);
    }
  }

  lemma {:induction false} FilterDistinctKeys(findings: seq<ApprovalFinding>)
    requires Distinct(KeysOf(findings))
    ensures Distinct(KeysOf(ToRevoke(findings)))
  {
    if findings != [] {
      var init, last := findings[..|findings| - 1], findings[|findings| - 1];
      DistinctSnoc(KeysOf(init), last.Key());
      FilterDistinctKeys(init);
      var kept := ToRevoke(init);
      if IsDangerous(last) {
        KeptKeys(init, last.Key());
        assert ToRevoke(findings) == kept + [last];
        assert (kept + [last])[..|kept|] == kept;
        assert KeysOf(kept + [last]) == KeysOf(kept) + [last.Key()];
        DistinctSnoc(KeysOf(kept), last.Key());
      } else {
        assert ToRevoke(findings) == kept;
      }
    }
  }

  lemma KeptKeys(findings: seq<ApprovalFinding>, key: string)
    ensures key in KeysOf(ToRevoke(findings)) ==> key in KeysOf(findings)
  {
    var kept := ToRevoke(findings);
    FilterElements(IsDangerous, findings);
    KeysOfPointwise(findings);
    KeysOfPointwise(kept);
    if key in KeysOf(kept) {
      var i :| 0 <= i < |kept| && KeysOf(kept)[i] == key;
      assert kept[i] in findings;
      var j :| 0 <= j < |findings| && findings[j] == kept[i];
      assert KeysOf(findings)[j] == key;
    }
  }

  /** The gate, for distinct keys: the list keeps its length, order and keys; a finding that is not
      dangerous is left alone; the i-th finding, when dangerous, becomes what the revoker answered to
      the call made for it, which is the call numbered by the dangerous findings before it. */
  lemma GateIsExact(findings: seq<ApprovalFinding>, revoker: Revoker)
    requires KeepsKeys(revoker) && Distinct(KeysOf(findings))
    ensures var folded := Folded(findings, Outcomes(revoker, ToRevoke(findings)));
            && |folded| == |findings|
            && (forall i :: 0 <= i < |findings| ==> folded[i].Key() == findings[i].Key())
            && (forall i :: 0 <= i < |findings| && !IsDangerous(findings[i]) ==> folded[i] == findings[i])
            && (forall i :: 0 <= i < |findings| && IsDangerous(findings[i]) ==>
                  var n := |ToRevoke(findings[..i])|;
                  n < |ToRevoke(findings)| && ToRevoke(findings)[n] == findings[i]
                  && folded[i] == OutcomeOf(revoker, n, findings[i]))
  {
    var targets := ToRevoke(findings);
    var outcomes := Outcomes(revoker, targets);
    FilterDistinctKeys(findings);
    KeysOfPointwise(findings);
    KeysOfPointwise(targets);
    KeysOfPointwise(outcomes);
    assert KeysOf(outcomes) == KeysOf(targets);
    forall i | 0 <= i < |findings| && IsDangerous(findings[i])
      ensures var n := |ToRevoke(findings[..i])|;
              n < |targets| && targets[n] == findings[i] && Filed(outcomes, findings[i].Key()) == Some(outcomes[n])
    {
      FilterPosition(IsDangerous, findings, i);
      FiledAt(outcomes, |ToRevoke(findings[..i])|);
    }
    FoldKeepsKeys(findings, outcomes);
    forall i | 0 <= i < |findings| && !IsDangerous(findings[i])
      ensures Folded(findings, outcomes)[i] == findings[i]
    {
      ReplacedIff(findings, revoker, findings[i].Key());
      assert forall j :: 0 <= j < |findings| && j != i ==>
               KeysOf(findings)[j] == findings[j].Key() != findings[i].Key();
    }
  }

  /** A finding of a lower tier that shares its key with a dangerous one is overwritten by the verdict
      on the dangerous one. */
  lemma SharedKeyLeaks(bad: ApprovalFinding, harmless: ApprovalFinding, revoker: Revoker)
    requires KeepsKeys(revoker) && IsDangerous(bad) && !IsDangerous(harmless) && harmless.Key() == bad.Key()
    ensures Folded([bad, harmless], Outcomes(revoker, ToRevoke([bad, harmless])))
            == [OutcomeOf(revoker, 0, bad), OutcomeOf(revoker, 0, bad)]
  {
    var pair, outcome := [bad, harmless], OutcomeOf(revoker, 0, bad);
    OneTarget(bad, harmless);
    var outcomes := Outcomes(revoker, ToRevoke(pair));
    assert |outcomes| == 1 && outcomes[0] == outcome;
    assert outcome.Key() == bad.Key() == harmless.Key();
    assert Filed(outcomes, harmless.Key()) == Some(outcome);
    assert Filed(outcomes, bad.Key()) == Some(outcome);
  }

  lemma OneTarget(bad: ApprovalFinding, harmless: ApprovalFinding)
    requires IsDangerous(bad) && !IsDangerous(harmless)
    ensures ToRevoke([bad, harmless]) == [bad]
  {
    assert [bad, harmless] == [bad] + [harmless] && [] + [bad] == [bad];
    FilterSnoc(IsDangerous, [], bad);
    FilterSnoc(IsDangerous, [bad], harmless);
  }

  // ---------------------------------------------------------------- the rest of the tail

  /** Steps numbered 1, 2, 3, … */
  predicate Numbered(steps: seq<AgentStep>)
  {
    forall i :: 0 <= i < |steps| ==> steps[i].seqNo == i + 1
  }

  lemma {:induction false} JournaledNumbered(steps: seq<AgentStep>, outcomes: seq<ApprovalFinding>)
    requires Numbered(steps)
    ensures Numbered(Journaled(steps, outcomes)) && steps <= Journaled(steps, outcomes)
    ensures |Journaled(steps, outcomes)| == |steps| + |outcomes|
  {
    if outcomes != [] {
      JournaledNumbered(steps, outcomes[..|outcomes| - 1]);
    }
  }

  /** Behind the steps before it, the journal names the spender of every revocation, in order. */
  lemma {:induction false} JournaledRevocations(steps: seq<AgentStep>, outcomes: seq<ApprovalFinding>, n: nat)
    requires Numbered(steps) && n < |outcomes|
    ensures |Journaled(steps, outcomes)| == |steps| + |outcomes|
    ensures var step := Journaled(steps, outcomes)[|steps| + n];
            step
              == AgentStep(|steps| + n + 1, StepKind.Revoke, outcomes[n].spenderAddress, RevokeReason(outcomes[n]), 0)
  {
    var init := outcomes[..|outcomes| - 1];
    JournaledNumbered(steps, init);
    if n < |init| {
      JournaledRevocations(steps, init, n);
    }
  }

  predicate IsNew(f: ApprovalFinding) { f.isNew }

  function ReportStep(steps: seq<AgentStep>, findings: seq<ApprovalFinding>): AgentStep
  {
    var count := |Filter(IsNew, findings)|;
    AgentStep(NextSeq(steps), StepKind.Report, "",
              if count > 0 then Decimal(count) + " new finding(s) since the last scan"
                 else "Nothing new since the last scan",
              count)
  }

  datatype Outcome = Delivered(findings: seq<ApprovalFinding>) | Paused(question: string) | Raised(message: string)

  /** One run of an orchestrator: how it ended, the steps it journaled, and the revocations it asked for. */
  datatype Run = Run(outcome: Outcome, journal: seq<AgentStep>, calls: seq<ApprovalFinding>)

  function Tail(approvals: seq<RawApproval>, steps: seq<AgentStep>, intel: ThreatIntel, revoker: Option<Revoker>,
                seen: Option<set<string>>): Run
  {
    match Assessed(approvals, intel)
    case Err(e) => Run(Raised(e), steps, [])
    case Ok(findings) => Acted(SortByRisk(findings), steps, revoker, seen)
  }

  function Assessed(approvals: seq<RawApproval>, intel: ThreatIntel): Result<seq<ApprovalFinding>, string>
  {
    match intel(approvals)
    case Err(e) => Err(e)
    case Ok(assessments) => Resolve(approvals, assessments)
  }

  function Acted(sorted: seq<ApprovalFinding>, steps: seq<AgentStep>, revoker: Option<Revoker>,
                 seen: Option<set<string>>): Run
  {
    match revoker
    case None => Reported(sorted, steps, [], seen)
    case Some(r) =>
      var outcomes := Outcomes(r, ToRevoke(sorted));
      Reported(Folded(sorted, outcomes), Journaled(steps, outcomes), ToRevoke(sorted), seen)
  }

  function Reported(findings: seq<ApprovalFinding>, steps: seq<AgentStep>, calls: seq<ApprovalFinding>,
                    seen: Option<set<string>>): Run
  {
    match seen
    case None => Run(Delivered(findings), steps, calls)
    case Some(keys) =>
      var flagged := FlagNew(findings, keys);
      Run(Delivered(flagged), steps + [ReportStep(steps, flagged)], calls)
  }

  /** The statements after the loop, up to the delivery. */
  method Deliver(approvals: seq<RawApproval>, steps: seq<AgentStep>, intel: ThreatIntel, revoker: Option<Revoker>,
                 seen: Option<set<string>>)
    returns (run: Run)
    ensures run == Tail(approvals, steps, intel, revoker, seen)
  {
    var resolved := Assessed(approvals, intel);
    if resolved.Err? {
      return Run(Raised(resolved.error), steps, []);
    }
    var findings := SortByRisk(resolved.value);
    var journal, calls := steps, [];
    if revoker.Some? {
      findings, journal, calls := RevokeDangerous(findings, revoker.value, steps);
    }
    if seen.Some? {
      findings := FlagNew(findings, seen.value);
      var newCount := |Filter(IsNew, findings)|;
      var reason :=
            if newCount > 0 then Decimal(newCount) + " new finding(s) since the last scan"
               else "Nothing new since the last scan";
      var report := AgentStep(NextSeq(journal), StepKind.Report, "", reason, newCount);
      journal := journal + [report];
    }
    run := Run(Delivered(findings), journal, calls);
  }

  /** The tail keeps the numbering without a gap and adds one step per revocation, then the report. */
  lemma TailNumbered(approvals: seq<RawApproval>, steps: seq<AgentStep>, intel: ThreatIntel, revoker: Option<Revoker>,
                     seen: Option<set<string>>)
    requires Numbered(steps)
    ensures var run := Tail(approvals, steps, intel, revoker, seen);
            && Numbered(run.journal) && steps <= run.journal
            && (run.outcome.Delivered? ==> |run.journal| == |steps| + |run.calls| + if seen.Some? then 1 else 0)
  {
    var resolved := Assessed(approvals, intel);
    if resolved.Ok? && revoker.Some? {
      JournaledNumbered(steps, Outcomes(revoker.value, ToRevoke(SortByRisk(resolved.value))));
    }
  }
}
