/** Where the promises of an agent run end: the exact conditions, and the smallest runs that break them. */
module AgentLimits {
  import opened Common
  import opened StableSort
  import opened Findings
  import opened AgentModels
  import opened AgentTail
  import opened AgentLoop
  import opened AgentGraph
  import opened AgentAgreement
  import opened AgentSafety
  import KeeperHub

  // ---------------------------------------------------------------- findings that share a key

  /** A revoker whose answer is the finding it was asked about, with a verdict. */
  ghost predicate OnlyJudges(revoker: Revoker)
  {
    forall n, f :: revoker(n, f).Ok? ==> Judged(f, revoker(n, f).value)
  }

  predicate Judged(f: ApprovalFinding, outcome: ApprovalFinding)
  {
    outcome == f.(revocationStatus := outcome.revocationStatus, revocationTxHash := outcome.revocationTxHash)
  }

  /** The execution service is such a revoker. */
  lemma HubOnlyJudges(delegated: Option<string>, walletAddress: string, replies: nat -> KeeperHub.Replies)
    ensures OnlyJudges(HubRevoker(delegated, walletAddress, replies))
  {
    var revoker := HubRevoker(delegated, walletAddress, replies);
    forall n, f | revoker(n, f).Ok? ensures Judged(f, revoker(n, f).value) {
      KeeperHub.VerdictKeepsFinding(delegated, walletAddress, f, replies(n));
    }
  }

  lemma OutcomesStayDangerous(targets: seq<ApprovalFinding>, revoker: Revoker, outcome: ApprovalFinding)
    requires OnlyJudges(revoker) && outcome in Outcomes(revoker, targets)
    requires forall f :: f in targets ==> IsDangerous(f)
    ensures IsDangerous(outcome)
  {
    var n :| 0 <= n < |targets| && outcome == OutcomeOf(revoker, n, targets[n]);
    assert targets[n] in targets;
    if revoker(n, targets[n]).Ok? {
      assert Judged(targets[n], revoker(n, targets[n]).value);
    }
  }

  /** The folding alters a finding that is not dangerous exactly when a dangerous one has its key. */
  lemma FoldAltersIff(findings: seq<ApprovalFinding>, revoker: Revoker, i: nat)
    requires OnlyJudges(revoker) && i < |findings| && !IsDangerous(findings[i])
    ensures Folded(findings, Outcomes(revoker, ToRevoke(findings)))[i] != findings[i]
            <==> exists f :: f in findings && IsDangerous(f) && f.Key() == findings[i].Key()
    ensures var f := Folded(findings, Outcomes(revoker, ToRevoke(findings)))[i]; f == findings[i] || IsDangerous(f)
  {
    var outcomes := Outcomes(revoker, ToRevoke(findings));
    ReplacedIff(findings, revoker, findings[i].Key());
    FiledIff(outcomes, findings[i].Key());
    FilterElements(IsDangerous, findings);
    match Filed(outcomes, findings[i].Key())
    case Some(outcome) => OutcomesStayDangerous(ToRevoke(findings), revoker, outcome);
    case None =>
  }

  lemma SortedElements(findings: seq<ApprovalFinding>)
    ensures forall f :: f in SortByRisk(findings) <==> f in findings
  {
    SortByIsStable(Rank, findings);
    forall f ensures f in SortByRisk(findings) <==> f in findings {
      assert f in SortByRisk(findings) <==> f in multiset(SortByRisk(findings));
    }
  }

  lemma TierOfEach(approvals: seq<RawApproval>, assessments: seq<Assessment>, i: nat)
    requires RuleTiers(approvals, assessments) && i < |approvals|
    ensures var f := Resolve(approvals, assessments).value[i];
            f.Key() == approvals[i].Key() && (IsDangerous(f) <==> Malicious(approvals[i]))
  {
  }

  lemma DangerousIsMalicious(approvals: seq<RawApproval>, assessments: seq<Assessment>, key: string)
    requires RuleTiers(approvals, assessments)
    ensures (exists f :: f in Resolve(approvals, assessments).value && IsDangerous(f) && f.Key() == key)
            <==> SharesKeyWithMalicious(approvals, key)
  {
    var findings := Resolve(approvals, assessments).value;
    if f :| f in findings && IsDangerous(f) && f.Key() == key {
      var i :| 0 <= i < |findings| && findings[i] == f;
      TierOfEach(approvals, assessments, i);
      assert approvals[i] in approvals;
    }
    if a :| a in approvals && Malicious(a) && a.Key() == key {
      var i :| 0 <= i < |approvals| && approvals[i] == a;
      TierOfEach(approvals, assessments, i);
      assert findings[i] in findings;
    }
  }

  ghost predicate SharesKeyWithMalicious(approvals: seq<RawApproval>, key: string)
  {
    exists a :: a in approvals && Malicious(a) && a.Key() == key
  }

  lemma TailAltersIff(approvals: seq<RawApproval>, steps: seq<AgentStep>, intel: ThreatIntel, revoker: Revoker,
                      seen: Option<set<string>>, i: nat)
    requires UsesRiskRule(intel) && OnlyJudges(revoker) && Assessed(approvals, intel).Ok?
    requires var sorted := SortByRisk(Assessed(approvals, intel).value); i < |sorted| && !IsDangerous(sorted[i])
    ensures var sorted := SortByRisk(Assessed(approvals, intel).value);
            var run := Tail(approvals, steps, intel, Some(revoker), seen);
            && run.outcome.Delivered? && |run.outcome.findings| == |sorted|
            && (run.outcome.findings[i] != sorted[i].(isNew := run.outcome.findings[i].isNew)
                <==> SharesKeyWithMalicious(approvals, sorted[i].Key()))
  {
    var sorted := SortByRisk(Assessed(approvals, intel).value);
    var outcomes := Outcomes(revoker, ToRevoke(sorted));
    FoldAltersIff(sorted, revoker, i);
    assert RuleTiers(approvals, intel(approvals).value);
    DangerousIsMalicious(approvals, intel(approvals).value, sorted[i].Key());
    SortedElements(Assessed(approvals, intel).value);
    ReportedIsSame(Folded(sorted, outcomes), Journaled(steps, outcomes), ToRevoke(sorted), seen);
    var report := Tail(approvals, steps, intel, Some(revoker), seen).outcome.findings;
    assert report[i] == Folded(sorted, outcomes)[i].(isNew := report[i].isNew);
  }

  /** In a loop run within its budget, a finding that is not dangerous comes out altered if and only if
      a malicious, untrusted approval was collected under the same key. */
  lemma HarmlessAlteredIff(w: World, cfg: Config, intel: ThreatIntel, revoker: Revoker, seen: Option<set<string>>,
                           i: nat)
    requires UsesRiskRule(intel) && OnlyJudges(revoker)
    requires LoopRun(w, cfg, intel, Some(revoker), seen).outcome.Delivered? && !w.overBudget(|LoopEnd(w, cfg).steps|)
    requires var sorted := SortByRisk(Assessed(LoopEnd(w, cfg).approvals, intel).value);
             i < |sorted| && !IsDangerous(sorted[i])
    ensures var end := LoopEnd(w, cfg);
            var sorted, report :=
                  SortByRisk(Assessed(end.approvals, intel).value),
                  LoopRun(w, cfg, intel, Some(revoker), seen).outcome.findings;
            && |report| == |sorted|
            && (report[i] != sorted[i].(isNew := report[i].isNew)
                <==> SharesKeyWithMalicious(end.approvals, sorted[i].Key()))
  {
    TailAltersIff(LoopEnd(w, cfg).approvals, LoopEnd(w, cfg).steps, intel, revoker, seen, i);
  }

  // ---------------------------------------------------------------- one chain, one step

  const BAD_RAW: Raw := map["malicious_address" := Int(1)]
  const SAFE_RAW: Raw := map["is_open_source" := Int(1)]

  lemma RawTiers()
    ensures ClassifyRisk(BAD_RAW) == Dangerous && ClassifyRisk(SAFE_RAW) == Safe
  {
    DistinctFlagNames();
  }

  function Grant(raw: Raw): RawApproval { RawApproval("1", "t", "TOK", "s", "1", None, None, None, raw) }

  /** Scans chain 1 once and finishes on the step budget; money runs out at decision `spentAt`. */
  function OneChain(found: seq<RawApproval>, spentAt: nat): World
  {
    World((k: nat, goal: string, steps: seq<AgentStep>, approvals: seq<RawApproval>) => ScanAction("1", "scan"),
          (k: nat, chain: string) => Ok(found),
          (k: nat) => k >= spentAt)
  }

  const ONE_STEP := Config("scan", 1, false, None, "1.00")

  /** Tiers by the rule, no prose. */
  function RuleIntel(): ThreatIntel
  {
    (approvals: seq<RawApproval>) =>
      Ok(seq(|approvals|, i requires 0 <= i < |approvals| => Assessment(ClassifyRisk(approvals[i].raw), [], None)))
  }

  lemma RuleIntelFits()
    ensures UsesRiskRule(RuleIntel()) && AssessesCheckpoint(RuleIntel())
  {
    forall approvals ensures RuleIntel()(approvals) == RuleIntel()(StripAll(approvals)) {
      assert RuleIntel()(approvals).value == RuleIntel()(StripAll(approvals)).value;
    }
  }

  lemma OneChainEnd(found: seq<RawApproval>, spentAt: nat)
    requires spentAt > 0
    ensures var end := LoopEnd(OneChain(found, spentAt), ONE_STEP);
            && end.phase == Stopped && |end.steps| == 2 && end.approvals == found && end.degraded == []
            && end.steps[0].kind == StepKind.Scan
  {
    var w := OneChain(found, spentAt);
    assert LoopAfter(w, ONE_STEP, 0) == LOOP_START;
    assert LoopAfter(w, ONE_STEP, 1) == LoopTurn(w, ONE_STEP, LOOP_START, 1);
    AllUnseen(found);
    assert [] + found == found;
  }

  lemma {:induction false} AllUnseen(found: seq<RawApproval>)
    ensures Unseen(found, {}) == found
  {
    if found != [] {
      AllUnseen(found[..|found| - 1]);
      assert found == found[..|found| - 1] + [found[|found| - 1]];
    }
  }

  lemma PairResolved(bad: RawApproval, safe: RawApproval)
    requires bad == Grant(BAD_RAW) && safe == Grant(SAFE_RAW)
    ensures Assessed([bad, safe], RuleIntel())
            == Ok([FindingOf(bad, Assessment(Dangerous, [], None)), FindingOf(safe, Assessment(Safe, [], None))])
  {
    RawTiers();
    var findings := Assessed([bad, safe], RuleIntel()).value;
    assert findings[0] == FindingOf(bad, Assessment(Dangerous, [], None));
    assert findings[1] == FindingOf(safe, Assessment(Safe, [], None));
    assert findings == [findings[0], findings[1]];
  }

  lemma PairSorted(bad: ApprovalFinding, harmless: ApprovalFinding)
    requires bad.tier == Dangerous && harmless.tier == Safe
    ensures SortByRisk([bad, harmless]) == [bad, harmless]
  {
    assert Rank(bad) == 0 && Rank(harmless) == 2;
    SortedIsFixed(Rank, [bad, harmless]);
  }

  /** Both findings are delivered as the verdict on the first. */
  lemma PairDelivered(bad: RawApproval, safe: RawApproval, steps: seq<AgentStep>, revoker: Revoker)
    requires bad == Grant(BAD_RAW) && safe == Grant(SAFE_RAW) && OnlyJudges(revoker)
    ensures var run := Tail([bad, safe], steps, RuleIntel(), Some(revoker), None);
            && run.outcome.Delivered? && |run.outcome.findings| == 2 && |run.calls| == 1
            && IsDangerous(run.outcome.findings[1]) && run.outcome.findings[1].raw == BAD_RAW
  {
    PairResolved(bad, safe);
    var first := FindingOf(bad, Assessment(Dangerous, [], None));
    var second := FindingOf(safe, Assessment(Safe, [], None));
    PairSorted(first, second);
    SharedKeyLeaks(first, second, revoker);
    OneTarget(first, second);
    VerdictOnBad(revoker, first);
  }

  lemma VerdictOnBad(revoker: Revoker, f: ApprovalFinding)
    requires OnlyJudges(revoker)
    ensures OutcomeOf(revoker, 0, f).raw == f.raw && OutcomeOf(revoker, 0, f).tier == f.tier
  {
    if revoker(0, f).Ok? {
      assert Judged(f, revoker(0, f).value);
    }
  }

  lemma StoppedRun(w: World, cfg: Config, intel: ThreatIntel, revoker: Revoker)
    requires LoopEnd(w, cfg).phase == Stopped && LoopEnd(w, cfg).degraded == []
    requires !w.overBudget(|LoopEnd(w, cfg).steps|)
    ensures LoopRun(w, cfg, intel, Some(revoker), None)
              == Tail(LoopEnd(w, cfg).approvals, LoopEnd(w, cfg).steps, intel, Some(revoker), None)
  {
  }

  lemma PairRepeats(bad: RawApproval, safe: RawApproval, spentAt: nat)
    requires bad.Key() == safe.Key()
    ensures !DistinctFetches(OneChain([bad, safe], spentAt))
  {
    var w := OneChain([bad, safe], spentAt);
    var keys := RawKeys(w.fetch(0, "1").value);
    assert keys[0] == bad.Key() && keys[1] == safe.Key();
  }

  /** One fetch reports the same token and spender twice, once flagged as malicious and once as a
      verified contract. The loop collects both and delivers the verified one as dangerous, with the
      verdict on the other. */
  lemma SharedKeyRun(revoker: Revoker)
    requires OnlyJudges(revoker)
    ensures var w := OneChain([Grant(BAD_RAW), Grant(SAFE_RAW)], 9);
            var run := LoopRun(w, ONE_STEP, RuleIntel(), Some(revoker), None);
            && ClassifyRisk(Grant(SAFE_RAW).raw) == Safe && !DistinctFetches(w)
            && run.outcome.Delivered? && |run.outcome.findings| == 2 && |run.calls| == 1
            && IsDangerous(run.outcome.findings[1]) && run.outcome.findings[1].raw == BAD_RAW
  {
    var bad, safe := Grant(BAD_RAW), Grant(SAFE_RAW);
    var w := OneChain([bad, safe], 9);
    RawTiers();
    OneChainEnd([bad, safe], 9);
    PairRepeats(bad, safe, 9);
    PairDelivered(bad, safe, LoopEnd(w, ONE_STEP).steps, revoker);
    StoppedRun(w, ONE_STEP, RuleIntel(), revoker);
  }

  // ---------------------------------------------------------------- over budget

  lemma {:induction false} NoneFiltered<T>(p: T -> bool, s: seq<T>)
    ensures Filter(p, s) == [] <==> forall x :: x in s ==> !p(x)
  {
    if s != [] {
      var init, last := s[..|s| - 1], s[|s| - 1];
      NoneFiltered(p, init);
      assert s == init + [last];
    }
  }

  /** With a matching end over budget, the loop calls the revoker for nothing, and the graph for
      nothing if and only if no malicious, untrusted approval was collected. */
  lemma OverBudgetRevokesIff(w: World, cfg: Config, m: Machine, intel: ThreatIntel, revoker: Revoker,
                             seen: Option<set<string>>)
    requires Readable(m.state.steps) && Matches(LoopEnd(w, cfg), m) && AssessesCheckpoint(intel) && UsesRiskRule(intel)
    requires LoopEnd(w, cfg).phase == Stopped && !AllFailed(LoopEnd(w, cfg))
    requires w.overBudget(|LoopEnd(w, cfg).steps|) && Assessed(LoopEnd(w, cfg).approvals, intel).Ok?
    ensures m.status == Ended && LoopRun(w, cfg, intel, Some(revoker), seen).calls == []
    ensures KeysOf(GraphRun(m, intel, Some(revoker), seen).calls)
              == RawKeys(Filter(Malicious, LoopEnd(w, cfg).approvals))
    ensures GraphRun(m, intel, Some(revoker), seen).calls == []
            <==> forall a :: a in LoopEnd(w, cfg).approvals ==> !Malicious(a)
  {
    var approvals := LoopEnd(w, cfg).approvals;
    OverBudgetDiffers(w, cfg, m, intel, revoker, seen);
    assert RuleTiers(approvals, intel(approvals).value);
    TargetsAreMalicious(approvals, intel(approvals).value);
    SortKeepsTargets(Assessed(approvals, intel).value);
    NoneFiltered(Malicious, approvals);
    KeysOfPointwise(GraphRun(m, intel, Some(revoker), seen).calls);
  }

  /** The smallest such run: one malicious approval, and money runs out once the step budget is spent. */
  lemma OverBudgetRun(revoker: Revoker)
    ensures var w := OneChain([Grant(BAD_RAW)], 2);
            && LoopRun(w, ONE_STEP, RuleIntel(), Some(revoker), None).calls == []
            && GraphAfter(w, ONE_STEP, 2).status == Ended
            && |GraphRun(GraphAfter(w, ONE_STEP, 2), RuleIntel(), Some(revoker), None).calls| == 1
  {
    var bad := Grant(BAD_RAW);
    var w := OneChain([bad], 2);
    RawTiers();
    RuleIntelFits();
    OneChainEnd([bad], 2);
    var m := OneChainMatch(w, [bad], 2);
    OverBudgetRevokesIff(w, ONE_STEP, m, RuleIntel(), revoker, None);
    KeysOfPointwise(GraphRun(m, RuleIntel(), Some(revoker), None).calls);
  }

  lemma OneChainMatch(w: World, found: seq<RawApproval>, spentAt: nat) returns (m: Machine)
    requires w == OneChain(found, spentAt) && spentAt > 0
    ensures m == GraphAfter(w, ONE_STEP, 2) && Matches(LoopEnd(w, ONE_STEP), m)
  {
    assert LoopConfig(ONE_STEP) == ONE_STEP;
    OneChainEnd(found, spentAt);
    var n := AgreeWhenAllAnswers(w, ONE_STEP);
    GraphStays(w, ONE_STEP, n, 2);
    m := GraphAfter(w, ONE_STEP, 2);
  }
}
