/** Whole runs of the agent: what gets revoked, what `Revoked` proves, how the journal is numbered. */
module AgentSafety {
  import opened Common
  import opened StableSort
  import opened Findings
  import opened AgentModels
  import opened AgentTail
  import opened AgentLoop
  import opened AgentGraph
  import KeeperHub
  import Usage

  // ---------------------------------------------------------------- the journal

  /** The loop journals steps 1, 2, … n through scan, degraded, finish, revoke and report. */
  lemma LoopJournalNumbered(w: World, cfg: Config, intel: ThreatIntel, revoker: Option<Revoker>,
                            seen: Option<set<string>>)
    ensures Numbered(LoopRun(w, cfg, intel, revoker, seen).journal)
  {
    var s := LoopEnd(w, cfg);
    LoopEndInv(w, cfg);
    TailNumbered(s.approvals, s.steps, intel, if w.overBudget(|s.steps|) then None else revoker, seen);
  }

  /** So does the graph, over any number of answers. */
  lemma GraphJournalNumbered(w: World, cfg: Config, commands: seq<Command>, intel: ThreatIntel,
                             revoker: Option<Revoker>, seen: Option<set<string>>)
    requires Machines(w, cfg, commands).status != Running
    ensures Numbered(GraphRun(Machines(w, cfg, commands), intel, revoker, seen).journal)
  {
    MachineReachable(w, cfg, commands);
    var s := Machines(w, cfg, commands).state;
    DictsNumberedSteps(s.steps);
    TailNumbered(ApprovalsFromDicts(s.approvals), StepsFromDicts(s.steps), intel, revoker, seen);
  }

  lemma DictsNumberedSteps(dicts: seq<StepDict>)
    requires Readable(dicts) && DictsNumbered(dicts)
    ensures Numbered(StepsFromDicts(dicts))
  {
    forall i | 0 <= i < |dicts| ensures StepsFromDicts(dicts)[i].seqNo == i + 1 {
      assert StepFromDict(dicts[i]).Some?;
    }
  }

  // ---------------------------------------------------------------- who is revoked

  /** The tier comes from the risk rule, one assessment per approval. */
  ghost predicate UsesRiskRule(intel: ThreatIntel)
  {
    forall approvals :: intel(approvals).Ok? ==> RuleTiers(approvals, intel(approvals).value)
  }

  predicate RuleTiers(approvals: seq<RawApproval>, assessments: seq<Assessment>)
  {
    && |assessments| == |approvals|
    && forall i :: 0 <= i < |approvals| ==> assessments[i].tier == ClassifyRisk(approvals[i].raw)
  }

  predicate Malicious(a: RawApproval)
  {
    && FlagState(Get(a.raw, "malicious_address")) == Some(true)
    && FlagState(Get(a.raw, "trust_list")) != Some(true)
  }

  lemma {:induction false} TargetsAreTopTier(findings: seq<ApprovalFinding>)
    ensures ToRevoke(findings) == WithKey(Rank, TierRank(Dangerous), findings)
  {
    if findings != [] {
      TargetsAreTopTier(findings[..|findings| - 1]);
    }
  }

  /** Sorting does not change which findings are revoked, nor their order. */
  lemma SortKeepsTargets(findings: seq<ApprovalFinding>)
    ensures ToRevoke(SortByRisk(findings)) == ToRevoke(findings)
  {
    TargetsAreTopTier(findings);
    TargetsAreTopTier(SortByRisk(findings));
    SortByIsStable(Rank, findings);
  }

  lemma {:induction false} TargetsAreMalicious(approvals: seq<RawApproval>, assessments: seq<Assessment>)
    requires RuleTiers(approvals, assessments)
    ensures KeysOf(ToRevoke(Resolve(approvals, assessments).value)) == RawKeys(Filter(Malicious, approvals))
  {
    if approvals != [] {
      var n := |approvals| - 1;
      var init, first := approvals[..n], assessments[..n];
      TargetsAreMalicious(init, first);
      var before, last := Resolve(init, first).value, FindingOf(approvals[n], assessments[n]);
      assert Resolve(approvals, assessments).value == before + [last];
      NextTarget(before, last, init, approvals[n]);
      assert approvals == init + [approvals[n]];
    }
  }

  lemma NextTarget(findings: seq<ApprovalFinding>, f: ApprovalFinding, approvals: seq<RawApproval>, a: RawApproval)
    requires KeysOf(ToRevoke(findings)) == RawKeys(Filter(Malicious, approvals))
    requires f.Key() == a.Key() && (IsDangerous(f) <==> Malicious(a))
    ensures KeysOf(ToRevoke(findings + [f])) == RawKeys(Filter(Malicious, approvals + [a]))
  {
    FilterSnoc(IsDangerous, findings, f);
    FilterSnoc(Malicious, approvals, a);
    KeysOfSnoc(ToRevoke(findings), f);
    RawKeysSnoc(Filter(Malicious, approvals), a);
    assert ToRevoke(findings) + [] == ToRevoke(findings);
    assert Filter(Malicious, approvals) + [] == Filter(Malicious, approvals);
  }

  /** With tiers from the risk rule, the revoker is called once for each collected approval whose
      provider data is recognisably malicious and not trusted, in the order they were collected, and
      for nothing else. */
  lemma CallsAreTheMalicious(approvals: seq<RawApproval>, steps: seq<AgentStep>, intel: ThreatIntel,
                             revoker: Option<Revoker>, seen: Option<set<string>>)
    requires UsesRiskRule(intel)
    ensures var run := Tail(approvals, steps, intel, revoker, seen);
            KeysOf(run.calls) == if run.outcome.Delivered? && revoker.Some? then RawKeys(Filter(Malicious, approvals))
            else []
  {
    if intel(approvals).Ok? {
      var assessments := intel(approvals).value;
      assert RuleTiers(approvals, assessments);
      TargetsAreMalicious(approvals, assessments);
      SortKeepsTargets(Resolve(approvals, assessments).value);
    }
  }

  /** The same findings, up to the flag that tells new from known. */
  ghost predicate SameButFlag(a: seq<ApprovalFinding>, b: seq<ApprovalFinding>)
  {
    |a| == |b| && forall i :: 0 <= i < |a| ==> a[i] == b[i].(isNew := a[i].isNew)
  }

  lemma ReportedIsSame(findings: seq<ApprovalFinding>, steps: seq<AgentStep>, calls: seq<ApprovalFinding>,
                       seen: Option<set<string>>)
    ensures var run := Reported(findings, steps, calls, seen);
            run.outcome.Delivered? && SameButFlag(run.outcome.findings, findings)
            && KeysOf(run.outcome.findings) == KeysOf(findings)
  {
    KeysOfPointwise(findings);
    KeysOfPointwise(Reported(findings, steps, calls, seen).outcome.findings);
  }

  lemma FoldedKeys(findings: seq<ApprovalFinding>, outcomes: seq<ApprovalFinding>)
    ensures KeysOf(Folded(findings, outcomes)) == KeysOf(findings)
  {
    FoldKeepsKeys(findings, outcomes);
    KeysOfPointwise(findings);
    KeysOfPointwise(Folded(findings, outcomes));
  }

  lemma SortedDistinct(approvals: seq<RawApproval>, intel: ThreatIntel)
    requires Distinct(RawKeys(approvals)) && Assessed(approvals, intel).Ok?
    ensures var sorted := SortByRisk(Assessed(approvals, intel).value);
            Distinct(KeysOf(sorted)) && multiset(KeysOf(sorted)) == multiset(RawKeys(approvals))
  {
    ResolveKeepsKeys(approvals, intel(approvals).value);
    SortKeepsKeys(Assessed(approvals, intel).value);
    SameMultisetSameSet(KeysOf(SortByRisk(Assessed(approvals, intel).value)), RawKeys(approvals));
  }

  /** What the tail delivers: the sorted findings, each replaced by the answer to its own call if it is
      dangerous and a revoker is there, and otherwise untouched. */
  ghost predicate DeliversExactly(report: seq<ApprovalFinding>, sorted: seq<ApprovalFinding>, revoker: Option<Revoker>)
  {
    && |report| == |sorted|
    && forall i :: 0 <= i < |sorted| ==>
                     report[i] == (if revoker.Some? && IsDangerous(sorted[i])
                                   then OutcomeOf(revoker.value, |ToRevoke(sorted[..i])|, sorted[i])
                                   else sorted[i]).(isNew := report[i].isNew)
  }

  lemma TailDelivers(approvals: seq<RawApproval>, steps: seq<AgentStep>, intel: ThreatIntel, revoker: Option<Revoker>,
                     seen: Option<set<string>>)
    requires Distinct(RawKeys(approvals)) && (revoker.Some? ==> KeepsKeys(revoker.value))
    requires Tail(approvals, steps, intel, revoker, seen).outcome.Delivered?
    ensures var report := Tail(approvals, steps, intel, revoker, seen).outcome.findings;
            && multiset(KeysOf(report)) == multiset(RawKeys(approvals))
            && DeliversExactly(report, SortByRisk(Assessed(approvals, intel).value), revoker)
  {
    var sorted := SortByRisk(Assessed(approvals, intel).value);
    SortedDistinct(approvals, intel);
    if revoker.Some? {
      var outcomes := Outcomes(revoker.value, ToRevoke(sorted));
      GateIsExact(sorted, revoker.value);
      FoldedKeys(sorted, outcomes);
      ReportedIsSame(Folded(sorted, outcomes), Journaled(steps, outcomes), ToRevoke(sorted), seen);
    } else {
      ReportedIsSame(sorted, steps, [], seen);
    }
  }

  /** A loop run whose fetches repeat no key delivers every collected approval exactly once, revokes
      for the dangerous ones only, each by its own call, and leaves all others untouched. */
  lemma LoopDelivers(w: World, cfg: Config, intel: ThreatIntel, revoker: Revoker, seen: Option<set<string>>)
    requires DistinctFetches(w) && KeepsKeys(revoker)
    requires LoopRun(w, cfg, intel, Some(revoker), seen).outcome.Delivered?
    ensures var report, end := LoopRun(w, cfg, intel, Some(revoker), seen).outcome.findings, LoopEnd(w, cfg);
            && multiset(KeysOf(report)) == multiset(RawKeys(end.approvals))
            && DeliversExactly(report, SortByRisk(Assessed(end.approvals, intel).value),
                               if w.overBudget(|end.steps|) then None else Some(revoker))
  {
    CollectedDistinct(w, cfg, cfg.maxSteps);
    var end := LoopEnd(w, cfg);
    TailDelivers(end.approvals, end.steps, intel, if w.overBudget(|end.steps|) then None else Some(revoker), seen);
  }

  /** So does a graph run, over any number of answers and whatever it has spent. */
  lemma GraphDelivers(w: World, cfg: Config, commands: seq<Command>, intel: ThreatIntel, revoker: Revoker,
                      seen: Option<set<string>>)
    requires DistinctFetches(w) && KeepsKeys(revoker) && Machines(w, cfg, commands).status == Ended
    requires GraphRun(Machines(w, cfg, commands), intel, Some(revoker), seen).outcome.Delivered?
    ensures var s := Machines(w, cfg, commands).state;
            var report := GraphRun(Machines(w, cfg, commands), intel, Some(revoker), seen).outcome.findings;
            && multiset(KeysOf(report)) == multiset(s.collected)
            && DeliversExactly(report, SortByRisk(Assessed(ApprovalsFromDicts(s.approvals), intel).value),
                               Some(revoker))
  {
    GraphCollectsDistinct(w, cfg, commands);
    var s := Machines(w, cfg, commands).state;
    TailDelivers(ApprovalsFromDicts(s.approvals), StepsFromDicts(s.steps), intel, Some(revoker), seen);
  }

  // ---------------------------------------------------------------- what Revoked proves

  /** A revoker that answers as the execution service does. */
  function HubRevoker(delegated: Option<string>, walletAddress: string, replies: nat -> KeeperHub.Replies): Revoker
  {
    (n: nat, f: ApprovalFinding) => KeeperHub.Verdict(delegated, walletAddress, f, replies(n))
  }

  lemma HubKeepsKeys(delegated: Option<string>, walletAddress: string, replies: nat -> KeeperHub.Replies)
    ensures KeepsKeys(HubRevoker(delegated, walletAddress, replies))
  {
    var revoker := HubRevoker(delegated, walletAddress, replies);
    forall n, f | revoker(n, f).Ok? ensures revoker(n, f).value.Key() == f.Key() {
      KeeperHub.VerdictKeepsFinding(delegated, walletAddress, f, replies(n));
    }
  }

  /** Call `n` was for a malicious, untrusted approval of this key, executed as the scanned wallet,
      and its first terminal status carried this transaction. */
  ghost predicate ProvenBy(f: ApprovalFinding, call: ApprovalFinding, delegated: Option<string>, walletAddress: string,
                           replies: KeeperHub.Replies)
  {
    && call.Key() == f.Key() && call.raw == f.raw
    && ClassifyRisk(f.raw) == Dangerous
    && delegated == Some(Lower(walletAddress))
    && replies.post.Ok? && replies.post.value.status != "simulated"
    && f.revocationTxHash.Some? && f.revocationTxHash.value != ""
    && exists k: nat :: KeeperHub.EndsAt(replies.polls, k)
                        && replies.polls[k].value == KeeperHub.PollReply("completed", f.revocationTxHash)
  }

  /** What every assessed finding is before anything is revoked. */
  ghost predicate Unrevoked(findings: seq<ApprovalFinding>)
  {
    forall f :: f in findings ==> f.revocationStatus == NotAttempted && f.tier == ClassifyRisk(f.raw)
  }

  lemma AssessedUnrevoked(approvals: seq<RawApproval>, intel: ThreatIntel)
    requires UsesRiskRule(intel) && Assessed(approvals, intel).Ok?
    ensures Unrevoked(SortByRisk(Assessed(approvals, intel).value))
  {
    var findings := Assessed(approvals, intel).value;
    assert RuleTiers(approvals, intel(approvals).value);
    SortByIsStable(Rank, findings);
    forall f | f in SortByRisk(findings) ensures f.revocationStatus == NotAttempted && f.tier == ClassifyRisk(f.raw) {
      assert f in multiset(SortByRisk(findings));
      assert f in findings;
    }
  }

  lemma OutcomeProof(calls: seq<ApprovalFinding>, n: nat, delegated: Option<string>, walletAddress: string,
                     replies: nat -> KeeperHub.Replies)
    requires n < |calls| && IsDangerous(calls[n]) && calls[n].tier == ClassifyRisk(calls[n].raw)
    requires OutcomeOf(HubRevoker(delegated, walletAddress, replies), n, calls[n]).revocationStatus == Revoked
    ensures ProvenBy(OutcomeOf(HubRevoker(delegated, walletAddress, replies), n, calls[n]), calls[n], delegated,
                     walletAddress, replies(n))
  {
    var outcome := OutcomeOf(HubRevoker(delegated, walletAddress, replies), n, calls[n]);
    KeeperHub.VerdictKeepsFinding(delegated, walletAddress, calls[n], replies(n));
    KeeperHub.RevokedIff(delegated, walletAddress, calls[n], replies(n), outcome.revocationTxHash.value);
  }

  lemma FoldedProof(findings: seq<ApprovalFinding>, i: nat, delegated: Option<string>, walletAddress: string,
                    replies: nat -> KeeperHub.Replies)
    requires Unrevoked(findings) && i < |findings|
    requires Folded(findings,
                    Outcomes(HubRevoker(delegated, walletAddress, replies), ToRevoke(findings)))[i].revocationStatus
                      == Revoked
    ensures exists n: nat :: n < |ToRevoke(findings)|
                             && ProvenBy(Folded(findings,
                                                Outcomes(HubRevoker(delegated, walletAddress, replies),
                                                         ToRevoke(findings)))[i],
                                         ToRevoke(findings)[n], delegated, walletAddress, replies(n))
  {
    var revoker, calls := HubRevoker(delegated, walletAddress, replies), ToRevoke(findings);
    var outcomes := Outcomes(revoker, calls);
    var folded := Folded(findings, outcomes)[i];
    FiledIff(outcomes, findings[i].Key());
    FilterElements(IsDangerous, findings);
    assert findings[i] in findings;
    assert folded in outcomes;
    var n :| 0 <= n < |outcomes| && outcomes[n] == folded;
    assert calls[n] in calls;
    OutcomeProof(calls, n, delegated, walletAddress, replies);
  }

  /** A delivered finding reads revoked only with a proof: a call was made for it, for a spender the
      provider flags and does not trust, as the delegated wallet, and the service completed that very
      call with the transaction the finding shows. */
  lemma RevokedIsProven(approvals: seq<RawApproval>, steps: seq<AgentStep>, intel: ThreatIntel,
                        seen: Option<set<string>>,
                        delegated: Option<string>, walletAddress: string, replies: nat -> KeeperHub.Replies, i: nat)
    requires UsesRiskRule(intel)
    requires var run := Tail(approvals, steps, intel, Some(HubRevoker(delegated, walletAddress, replies)), seen);
             run.outcome.Delivered? && i < |run.outcome.findings| && run.outcome.findings[i].revocationStatus == Revoked
    ensures var run := Tail(approvals, steps, intel, Some(HubRevoker(delegated, walletAddress, replies)), seen);
            exists n: nat ::
              n < |run.calls| && ProvenBy(run.outcome.findings[i], run.calls[n], delegated, walletAddress, replies(n))
  {
    AssessedUnrevoked(approvals, intel);
    var sorted := SortByRisk(Assessed(approvals, intel).value);
    FoldedProof(sorted, i, delegated, walletAddress, replies);
    var folded := Folded(sorted, Outcomes(HubRevoker(delegated, walletAddress, replies), ToRevoke(sorted)))[i];
    var n: nat :| n < |ToRevoke(sorted)| && ProvenBy(folded, ToRevoke(sorted)[n], delegated, walletAddress, replies(n));
    var run := Tail(approvals, steps, intel, Some(HubRevoker(delegated, walletAddress, replies)), seen);
    assert run.outcome.findings[i] == folded.(isNew := run.outcome.findings[i].isNew);
    NewFlagIrrelevant(folded, run.outcome.findings[i].isNew, run.calls[n], delegated, walletAddress, replies(n));
  }

  lemma NewFlagIrrelevant(f: ApprovalFinding, isNew: bool, call: ApprovalFinding, delegated: Option<string>,
                          walletAddress: string, replies: KeeperHub.Replies)
    requires ProvenBy(f, call, delegated, walletAddress, replies)
    ensures ProvenBy(f.(isNew := isNew), call, delegated, walletAddress, replies)
  {
  }

  // ---------------------------------------------------------------- money

  /** The budget of a run is the guard over what was metered when each decision was due. */
  ghost predicate Metered(w: World, guard: Usage.SpendGuard, meter: seq<Usage.Call>, used: nat -> nat)
  {
    && (forall k :: used(k) <= |meter|)
    && (forall j, k :: 0 <= j <= k ==> used(j) <= used(k))
    && (forall k :: w.overBudget(k) == guard.Exceeded(Usage.After(meter[..used(k)])))
  }

  /** Once over budget, always over budget. */
  ghost predicate BudgetMonotone(w: World)
  {
    forall j, k :: 0 <= j <= k && w.overBudget(j) ==> w.overBudget(k)
  }

  /** The spend guard never lets a run back under its budget. */
  lemma MeteredIsMonotone(w: World, guard: Usage.SpendGuard, meter: seq<Usage.Call>, used: nat -> nat)
    requires Metered(w, guard, meter, used) && guard.pricing.NonNegative()
    ensures BudgetMonotone(w)
  {
    forall j, k | 0 <= j <= k && w.overBudget(j) ensures w.overBudget(k) {
      assert used(j) <= used(k) <= |meter|;
      var calls := meter[..used(k)];
      assert calls[..used(j)] == meter[..used(j)];
      Usage.ExceededStays(guard, calls, used(j));
    }
  }

  lemma CostTurn(w: World, cfg: Config, s: LoopState, seqNo: nat)
    requires seqNo > 0 && s.phase == Going && w.overBudget(seqNo - 1)
    ensures LoopTurn(w, cfg, s, seqNo)
              == s.(steps := s.steps + [FinishStep(seqNo, CostReason(cfg.capText))], phase := Stopped)
  {
  }

  lemma NoRevokerNoCalls(approvals: seq<RawApproval>, steps: seq<AgentStep>, intel: ThreatIntel,
                         seen: Option<set<string>>)
    ensures Tail(approvals, steps, intel, None, seen).calls == []
  {
  }

  lemma CostEnd(w: World, cfg: Config, k: nat)
    requires k < cfg.maxSteps && LoopAfter(w, cfg, k).phase == Going && w.overBudget(k)
    ensures LoopEnd(w, cfg).steps == LoopAfter(w, cfg, k).steps + [FinishStep(k + 1, CostReason(cfg.capText))]
    ensures |LoopEnd(w, cfg).steps| == k + 1 && LoopEnd(w, cfg).phase == Stopped
  {
    LoopReachable(w, cfg, k);
    CostTurn(w, cfg, LoopAfter(w, cfg, k), k + 1);
    StaysPut(w, cfg, k + 1, cfg.maxSteps);
  }

  lemma OverBudgetNoCalls(w: World, cfg: Config, intel: ThreatIntel, revoker: Option<Revoker>,
                          seen: Option<set<string>>)
    requires w.overBudget(|LoopEnd(w, cfg).steps|)
    ensures LoopRun(w, cfg, intel, revoker, seen).calls == []
  {
    NoRevokerNoCalls(LoopEnd(w, cfg).approvals, LoopEnd(w, cfg).steps, intel, seen);
  }

  /** A loop run that money stopped never calls the revoker. */
  lemma CostStopNeverRevokes(w: World, cfg: Config, intel: ThreatIntel, revoker: Option<Revoker>,
                             seen: Option<set<string>>, k: nat)
    requires BudgetMonotone(w)
    requires k < cfg.maxSteps && LoopAfter(w, cfg, k).phase == Going && w.overBudget(k)
    ensures LoopEnd(w, cfg).steps == LoopAfter(w, cfg, k).steps + [FinishStep(k + 1, CostReason(cfg.capText))]
    ensures LoopRun(w, cfg, intel, revoker, seen).calls == []
  {
    CostEnd(w, cfg, k);
    assert w.overBudget(k + 1);
    OverBudgetNoCalls(w, cfg, intel, revoker, seen);
  }
}
