/** What a wallet owner relies on, told without the agent's own helper functions: which tier a finding
    gets, what a revocation may answer, in which order a report stands, and what the policy is asked. */
module AgentRules {
  import opened Common
  import opened StableSort
  import opened Findings
  import opened AgentModels
  import opened AgentTail
  import opened AgentLoop
  import opened AgentGraph
  import opened AgentSafety
  import opened AgentLimits
  import opened Workflow
  import KeeperHub

  // ---------------------------------------------------------------- the risk rule

  /** A provider value that is recognisably true, or recognisably false. */
  predicate Reads(value: Json, b: bool)
  {
    match value
    case Bool(x) => x == b
    case Int(i) => (i != 0) == b
    case Str(s) =>
      var word := Lower(Trim(s, IsPySpace));
      if b then word == "1" || word == "true" || word == "yes"
      else word == "0" || word == "false" || word == "no" || word == ""
    case _ => false
  }

  predicate Says(raw: Raw, flag: string, b: bool)
  {
    flag in raw && Reads(raw[flag], b)
  }

  lemma FlagIff(raw: Raw, flag: string, b: bool)
    ensures FlagState(Get(raw, flag)) == Some(b) <==> Says(raw, flag, b)
  {
    assert |"1"| == |"0"| == 1 && |"true"| == 4 && |"yes"| == 3 && |"false"| == 5 && |"no"| == 2 && |""| == 0;
    assert "1"[0] != "0"[0];
  }

  /** Dangerous takes a recognised malicious flag without recognised trust; safe takes recognised source
      code and no recognised malicious flag; everything else is to be watched. */
  predicate Fits(tier: RiskTier, raw: Raw)
  {
    var bad := Says(raw, "malicious_address", true);
    var trusted, audited := Says(raw, "trust_list", true), Says(raw, "is_open_source", true);
    match tier
    case Dangerous => bad && !trusted
    case Safe => !bad && audited
    case Watch => (bad && trusted) || (!bad && !audited)
  }

  /** The risk rule is that table, for every provider reply. */
  lemma RuleIsTheTable(raw: Raw, tier: RiskTier)
    ensures ClassifyRisk(raw) == tier <==> Fits(tier, raw)
  {
    FlagIff(raw, "malicious_address", true);
    FlagIff(raw, "trust_list", true);
    FlagIff(raw, "is_open_source", true);
  }

  // ---------------------------------------------------------------- the tiers and order of a report

  ghost predicate TiersFit(findings: seq<ApprovalFinding>)
  {
    forall f :: f in findings ==> Fits(f.tier, f.raw)
  }

  lemma AssessedFit(approvals: seq<RawApproval>, intel: ThreatIntel)
    requires UsesRiskRule(intel) && Assessed(approvals, intel).Ok?
    ensures TiersFit(SortByRisk(Assessed(approvals, intel).value))
  {
    AssessedUnrevoked(approvals, intel);
    forall f | f in SortByRisk(Assessed(approvals, intel).value) ensures Fits(f.tier, f.raw) {
      RuleIsTheTable(f.raw, f.tier);
    }
  }

  lemma OutcomeFits(revoker: Revoker, n: nat, f: ApprovalFinding)
    requires OnlyJudges(revoker) && Fits(f.tier, f.raw)
    ensures Fits(OutcomeOf(revoker, n, f).tier, OutcomeOf(revoker, n, f).raw)
  {
  }

  lemma FoldedFit(sorted: seq<ApprovalFinding>, revoker: Revoker)
    requires OnlyJudges(revoker) && TiersFit(sorted)
    ensures TiersFit(Folded(sorted, Outcomes(revoker, ToRevoke(sorted))))
  {
    var targets := ToRevoke(sorted);
    var outcomes := Outcomes(revoker, targets);
    FilterElements(IsDangerous, sorted);
    forall outcome | outcome in outcomes ensures Fits(outcome.tier, outcome.raw) {
      var n :| 0 <= n < |outcomes| && outcomes[n] == outcome;
      assert targets[n] in targets;
      OutcomeFits(revoker, n, targets[n]);
    }
    forall f | f in Folded(sorted, outcomes) ensures Fits(f.tier, f.raw) {
      var i :| 0 <= i < |sorted| && Folded(sorted, outcomes)[i] == f;
      FiledIff(outcomes, sorted[i].Key());
      assert sorted[i] in sorted;
    }
  }

  lemma ReportedFit(findings: seq<ApprovalFinding>, steps: seq<AgentStep>, calls: seq<ApprovalFinding>,
                    seen: Option<set<string>>)
    requires TiersFit(findings)
    ensures TiersFit(Reported(findings, steps, calls, seen).outcome.findings)
  {
    var report := Reported(findings, steps, calls, seen).outcome.findings;
    forall f | f in report ensures Fits(f.tier, f.raw) {
      var i :| 0 <= i < |report| && report[i] == f;
      assert findings[i] in findings;
    }
  }

  /** Whatever is delivered, by the loop or by the graph, bears the tier its provider reply earns. */
  lemma DeliveredTiersFit(approvals: seq<RawApproval>, steps: seq<AgentStep>, intel: ThreatIntel,
                          revoker: Option<Revoker>, seen: Option<set<string>>)
    requires UsesRiskRule(intel) && (revoker.Some? ==> OnlyJudges(revoker.value))
    ensures var run := Tail(approvals, steps, intel, revoker, seen);
            run.outcome.Delivered? ==> TiersFit(run.outcome.findings)
  {
    if Assessed(approvals, intel).Ok? {
      var sorted := SortByRisk(Assessed(approvals, intel).value);
      AssessedFit(approvals, intel);
      if revoker.Some? {
        var outcomes := Outcomes(revoker.value, ToRevoke(sorted));
        FoldedFit(sorted, revoker.value);
        ReportedFit(Folded(sorted, outcomes), Journaled(steps, outcomes), ToRevoke(sorted), seen);
      } else {
        ReportedFit(sorted, steps, [], seen);
      }
    }
  }

  /** So does whatever the pipeline delivers. */
  lemma WorkflowTiersFit(chains: seq<string>, fetch: Source, intel: ThreatIntel, seen: Option<set<string>>)
    requires UsesRiskRule(intel) && WorkflowRun(chains, fetch, intel, seen).outcome.Delivered?
    ensures TiersFit(WorkflowRun(chains, fetch, intel, seen).outcome.findings)
  {
    var approvals := Deduped(Gathered(chains, fetch, |chains|));
    AssessedFit(approvals, intel);
    ReportedFit(SortByRisk(Assessed(approvals, intel).value), [], [], seen);
  }

  /** Dangerous findings come first and safe ones last. */
  ghost predicate WorstFirst(findings: seq<ApprovalFinding>)
  {
    forall i, j :: 0 <= i < j < |findings| ==>
      && (findings[j].tier == Dangerous ==> findings[i].tier == Dangerous)
      && (findings[i].tier == Safe ==> findings[j].tier == Safe)
  }

  lemma SortedIsWorstFirst(findings: seq<ApprovalFinding>)
    ensures WorstFirst(SortByRisk(findings))
  {
    SortByIsStable(Rank, findings);
    var sorted := SortByRisk(findings);
    forall i, j | 0 <= i < j < |sorted|
      ensures sorted[j].tier == Dangerous ==> sorted[i].tier == Dangerous
      ensures sorted[i].tier == Safe ==> sorted[j].tier == Safe {
      assert Rank(sorted[i]) <= Rank(sorted[j]);
    }
  }

  /** A report of the agent whose fetches repeat no key stands in that order, revocations included. */
  lemma DeliveredWorstFirst(approvals: seq<RawApproval>, steps: seq<AgentStep>, intel: ThreatIntel,
                            revoker: Option<Revoker>, seen: Option<set<string>>)
    requires Distinct(RawKeys(approvals)) && (revoker.Some? ==> OnlyJudges(revoker.value))
    requires Tail(approvals, steps, intel, revoker, seen).outcome.Delivered?
    ensures WorstFirst(Tail(approvals, steps, intel, revoker, seen).outcome.findings)
  {
    var report := Tail(approvals, steps, intel, revoker, seen).outcome.findings;
    var sorted := SortByRisk(Assessed(approvals, intel).value);
    SortedIsWorstFirst(Assessed(approvals, intel).value);
    if revoker.Some? {
      forall n, f | revoker.value(n, f).Ok? ensures revoker.value(n, f).value.Key() == f.Key() {
        assert Judged(f, revoker.value(n, f).value);
      }
    }
    TailDelivers(approvals, steps, intel, revoker, seen);
    forall i | 0 <= i < |sorted| ensures report[i].tier == sorted[i].tier {
      if revoker.Some? && IsDangerous(sorted[i]) {
        OutcomeJudged(revoker.value, |ToRevoke(sorted[..i])|, sorted[i]);
      }
    }
  }

  lemma OutcomeJudged(revoker: Revoker, n: nat, f: ApprovalFinding)
    requires OnlyJudges(revoker)
    ensures Judged(f, OutcomeOf(revoker, n, f))
  {
    if revoker(n, f).Ok? {
      assert Judged(f, revoker(n, f).value);
    }
  }

  /** So does a report of the pipeline. */
  lemma WorkflowWorstFirst(chains: seq<string>, fetch: Source, intel: ThreatIntel, seen: Option<set<string>>)
    requires WorkflowRun(chains, fetch, intel, seen).outcome.Delivered?
    ensures WorstFirst(WorkflowRun(chains, fetch, intel, seen).outcome.findings)
  {
    SortedIsWorstFirst(Assessed(Deduped(Gathered(chains, fetch, |chains|)), intel).value);
    FlaggedKeeps(SortByRisk(Assessed(Deduped(Gathered(chains, fetch, |chains|)), intel).value), seen);
  }

  // ---------------------------------------------------------------- what is new

  /** New is exactly what earlier runs did not deliver, and the last step counts it. */
  ghost predicate IsHonest(run: Run, keys: set<string>)
    requires run.outcome.Delivered?
  {
    && (forall f :: f in run.outcome.findings ==> (f.isNew <==> f.Key() !in keys))
    && run.journal != [] && run.journal[|run.journal| - 1].kind == StepKind.Report
    && run.journal[|run.journal| - 1].newHits
       == |Positions((f: ApprovalFinding) => f.Key() !in keys, run.outcome.findings)|
    && TellsCount(run.journal[|run.journal| - 1])
  }

  predicate TellsCount(step: AgentStep)
  {
    && (step.newHits == 0 ==> step.reason == "Nothing new since the last scan")
    && (step.newHits > 0 ==> Decimal(step.newHits) <= step.reason)
  }

  lemma FlaggedHonestly(findings: seq<ApprovalFinding>, keys: set<string>)
    ensures var flagged := FlagNew(findings, keys);
            && (forall f :: f in flagged ==> (f.isNew <==> f.Key() !in keys))
            && |Filter(IsNew, flagged)| == |Positions((f: ApprovalFinding) => f.Key() !in keys, flagged)|
  {
    var flagged := FlagNew(findings, keys);
    FilterCounts(IsNew, flagged);
    assert Positions(IsNew, flagged) == Positions((f: ApprovalFinding) => f.Key() !in keys, flagged);
  }

  lemma ReportedHonestly(findings: seq<ApprovalFinding>, steps: seq<AgentStep>, calls: seq<ApprovalFinding>,
                         keys: set<string>)
    ensures Reported(findings, steps, calls, Some(keys)).outcome.Delivered?
    ensures IsHonest(Reported(findings, steps, calls, Some(keys)), keys)
  {
    FlaggedHonestly(findings, keys);
  }

  /** With the keys of earlier runs at hand, every delivered run is honest about what is new. */
  lemma ReportIsHonest(approvals: seq<RawApproval>, steps: seq<AgentStep>, intel: ThreatIntel,
                       revoker: Option<Revoker>, keys: set<string>)
    requires Tail(approvals, steps, intel, revoker, Some(keys)).outcome.Delivered?
    ensures IsHonest(Tail(approvals, steps, intel, revoker, Some(keys)), keys)
  {
    var sorted := SortByRisk(Assessed(approvals, intel).value);
    if revoker.Some? {
      var outcomes := Outcomes(revoker.value, ToRevoke(sorted));
      ReportedHonestly(Folded(sorted, outcomes), Journaled(steps, outcomes), ToRevoke(sorted), keys);
    } else {
      ReportedHonestly(sorted, steps, [], keys);
    }
  }

  ghost predicate AllNew(findings: seq<ApprovalFinding>)
  {
    forall f :: f in findings ==> f.isNew
  }

  lemma AssessedAllNew(approvals: seq<RawApproval>, intel: ThreatIntel)
    requires Assessed(approvals, intel).Ok?
    ensures AllNew(SortByRisk(Assessed(approvals, intel).value))
  {
    var findings := Assessed(approvals, intel).value;
    SortByIsStable(Rank, findings);
    forall f | f in SortByRisk(findings) ensures f.isNew {
      assert f in multiset(SortByRisk(findings));
      assert f in findings;
    }
  }

  /** Without any earlier keys everything delivered is new, by the agent as by the pipeline. */
  lemma NoMemoryAllNew(approvals: seq<RawApproval>, steps: seq<AgentStep>, intel: ThreatIntel,
                       revoker: Option<Revoker>)
    requires revoker.Some? ==> OnlyJudges(revoker.value)
    requires Tail(approvals, steps, intel, revoker, None).outcome.Delivered?
    ensures AllNew(Tail(approvals, steps, intel, revoker, None).outcome.findings)
  {
    var sorted := SortByRisk(Assessed(approvals, intel).value);
    AssessedAllNew(approvals, intel);
    if revoker.Some? {
      var targets := ToRevoke(sorted);
      var outcomes := Outcomes(revoker.value, targets);
      FilterElements(IsDangerous, sorted);
      forall i | 0 <= i < |sorted| ensures Folded(sorted, outcomes)[i].isNew {
        FiledIff(outcomes, sorted[i].Key());
        assert sorted[i] in sorted;
        if n :| 0 <= n < |outcomes| && outcomes[n] == Folded(sorted, outcomes)[i] {
          OutcomeJudged(revoker.value, n, targets[n]);
          assert targets[n] in targets;
        }
      }
    }
  }

  lemma WorkflowNoMemoryAllNew(chains: seq<string>, fetch: Source, intel: ThreatIntel)
    requires WorkflowRun(chains, fetch, intel, None).outcome.Delivered?
    ensures AllNew(WorkflowRun(chains, fetch, intel, None).outcome.findings)
  {
    AssessedAllNew(Deduped(Gathered(chains, fetch, |chains|)), intel);
  }

  // ---------------------------------------------------------------- what a revocation answers

  /** The request was not a dry run, got an execution, and its first terminal status was completed with
      this transaction. */
  ghost predicate Completes(replies: KeeperHub.Replies, tx: string)
  {
    && replies.post.Ok? && replies.post.value.status != "simulated" && replies.post.value.executionId != ""
    && exists k: nat ::
         KeeperHub.EndsAt(replies.polls, k) && replies.polls[k].value == KeeperHub.PollReply("completed", Some(tx))
  }

  /** The answer to a call, an exception included: not attempted for a foreign wallet, simulated after a
      passed dry run, revoked with the transaction of the completed execution, and failed otherwise. */
  lemma AnswerIsExact(delegated: Option<string>, walletAddress: string, replies: nat -> KeeperHub.Replies, n: nat,
                      f: ApprovalFinding)
    requires f.revocationStatus == NotAttempted
    ensures var o := OutcomeOf(HubRevoker(delegated, walletAddress, replies), n, f);
            var mine := delegated == Some(Lower(walletAddress));
            && (o.revocationStatus == NotAttempted <==> !mine)
            && (o.revocationStatus == Simulated
                <==> mine && replies(n).post.Ok? && KeeperHub.DryRunPassed(replies(n).post.value))
            && (o.revocationStatus == Revoked
                <==> mine && exists tx :: tx != "" && o.revocationTxHash == Some(tx) && Completes(replies(n), tx))
            && o.revocationStatus != RevocationStatus.Pending
  {
    KeeperHub.SimulatedIff(delegated, walletAddress, f, replies(n));
    var v := KeeperHub.Verdict(delegated, walletAddress, f, replies(n));
    if v.Ok? {
      KeeperHub.VerdictKeepsFinding(delegated, walletAddress, f, replies(n));
    }
    forall tx | tx != ""
      ensures v.Ok? && v.value.revocationStatus == Revoked && v.value.revocationTxHash == Some(tx)
              <==> delegated == Some(Lower(walletAddress)) && Completes(replies(n), tx) {
      KeeperHub.RevokedIff(delegated, walletAddress, f, replies(n), tx);
    }
  }

  function LetterOf(status: RevocationStatus): char
  {
    match status
    case Revoked => 'a'
    case Simulated => 's'
    case NotAttempted => 'n'
    case _ => 'r'
  }

  lemma StartsLike(head: string, rest: string)
    requires head != []
    ensures head + rest != [] && (head + rest)[0] == head[0]
  {
  }

  lemma FirstLetter(f: ApprovalFinding)
    ensures RevokeReason(f) != [] && RevokeReason(f)[0] == LetterOf(f.revocationStatus)
  {
    match f.revocationStatus
    case Revoked =>
      StartsLike("auto-revoked: tx ", if f.revocationTxHash.Some? then f.revocationTxHash.value else "None");
    case NotAttempted =>
      StartsLike("not attempted: ",
                 "this wallet is not delegated to KeeperHub, so the approval can only be revoked by its own owner");
    case Simulated => StartsLike("simulated only ", "(KEEPERHUB_SIMULATE_ONLY): approval is still live");
    case _ => StartsLike("revocation ", "attempt failed");
  }

  /** No dry run, refusal or failure reads in the journal like a revocation, nor like one another. */
  lemma ReasonsTellApart(a: ApprovalFinding, b: ApprovalFinding)
    requires a.revocationStatus != RevocationStatus.Pending && b.revocationStatus != RevocationStatus.Pending
    requires a.revocationStatus != b.revocationStatus
    ensures RevokeReason(a) != RevokeReason(b)
  {
    FirstLetter(a);
    FirstLetter(b);
  }

  /** The journal shows the transaction of a revocation. */
  lemma ReasonShowsTransaction(f: ApprovalFinding)
    requires f.revocationStatus == Revoked && f.revocationTxHash.Some?
    ensures Contains(RevokeReason(f), f.revocationTxHash.value)
  {
    var before := "auto-revoked: tx ";
    assert RevokeReason(f) == before + f.revocationTxHash.value + "";
  }

  // ---------------------------------------------------------------- what the policy is asked

  /** A goal that carries the answer, if there is one with words in it. */
  ghost predicate Carries(goal: string, original: string, told: Option<string>)
  {
    if told.Some? && told.value != "" then original <= goal && Contains(goal, told.value) else goal == original
  }

  lemma GoalCarries(original: string, told: Option<string>)
    ensures Carries(GoalWith(original, told), original, told)
  {
    if told.Some? && told.value != "" {
      var before, after := original + " (user clarification: \"", "\")";
      assert GoalWith(original, told) == before + told.value + after;
    }
  }

  /** Different answers give different goals. */
  lemma AnswersTellApart(original: string, a: string, b: string)
    requires a != b
    ensures GoalWith(original, Some(a)) != GoalWith(original, Some(b))
  {
    var before, after := original + " (user clarification: \"", "\")";
    var g, h := GoalWith(original, Some(a)), GoalWith(original, Some(b));
    assert a != "" ==> g == before + a + after && g[|before|..|before| + |a|] == a;
    assert b != "" ==> h == before + b + after && h[|before|..|before| + |b|] == b;
  }

  /** What the user answered last, or was known at the start. */
  function Told(w: World, cfg: Config, commands: seq<Command>): Option<string>
  {
    if commands == [] then cfg.clarification
    else
      var init, last := commands[..|commands| - 1], commands[|commands| - 1];
      if last.Resume? && Machines(w, cfg, init).status == Interrupted then Some(last.answer) else Told(w, cfg, init)
  }

  lemma ObeyedKeepsGoal(w: World, cfg: Config, m: Machine, c: Command)
    requires Readable(m.state.steps)
    ensures Obeyed(w, cfg, m, c).state.goal == m.state.goal
    ensures Obeyed(w, cfg, m, c).state.clarification
            == if c.Resume? && m.status == Interrupted then Some(c.answer) else m.state.clarification
  {
  }

  lemma {:induction false} AnswerStays(w: World, cfg: Config, commands: seq<Command>)
    ensures Machines(w, cfg, commands).state.goal == cfg.goal
    ensures Machines(w, cfg, commands).state.clarification == Told(w, cfg, commands)
  {
    if commands != [] {
      var init := commands[..|commands| - 1];
      AnswerStays(w, cfg, init);
      ObeyedKeepsGoal(w, cfg, Machines(w, cfg, init), commands[|commands| - 1]);
    }
  }

  /** The goal the policy is asked with next. */
  function AskedGoal(w: World, cfg: Config, commands: seq<Command>): string
  {
    var s := Machines(w, cfg, commands).state;
    GoalWith(s.goal, s.clarification)
  }

  /** Within its budgets the graph asks the policy, with all steps and approvals so far and a goal that
      starts with the original one and carries what the user answered. It does what the policy says,
      unless that is a question nobody may ask any more. */
  lemma PolicyHearsAnswer(w: World, cfg: Config, commands: seq<Command>)
    requires var m := Machines(w, cfg, commands);
             ScansDone(m.state.steps) < cfg.maxSteps && !w.overBudget(m.visits)
    ensures var m := Machines(w, cfg, commands);
            var steps, approvals := StepsFromDicts(m.state.steps), ApprovalsFromDicts(m.state.approvals);
            var action := w.policy(m.visits, AskedGoal(w, cfg, commands), steps, approvals);
            var next := Decide(w, cfg, m.state, m.visits);
            && Carries(AskedGoal(w, cfg, commands), cfg.goal, Told(w, cfg, commands))
            && match action
               case ScanAction(chain, reason) => next == NextScan(chain, reason)
               case FinishAction(reason) => next == NextFinish(reason)
               case RaisedAction(message) => next == NextRaise(message)
               case AskAction(question, reason) =>
                 if cfg.hasClarifier && !m.state.asked && Told(w, cfg, commands).None? then
                   next == NextAsk(question, reason)
                 else next.NextFinish?
  {
    AnswerStays(w, cfg, commands);
    GoalCarries(cfg.goal, Told(w, cfg, commands));
  }

  /** Two runs that heard different answers ask their policies with different goals. */
  lemma HeardApart(w: World, w': World, cfg: Config, commands: seq<Command>, commands': seq<Command>)
    requires Told(w, cfg, commands).Some? && Told(w', cfg, commands').Some?
    requires Told(w, cfg, commands) != Told(w', cfg, commands')
    ensures AskedGoal(w, cfg, commands) != AskedGoal(w', cfg, commands')
  {
    AnswerStays(w, cfg, commands);
    AnswerStays(w', cfg, commands');
    AnswersTellApart(cfg.goal, Told(w, cfg, commands).value, Told(w', cfg, commands').value);
  }

  /** Once a question was answered, the answer stays for the rest of the run. */
  lemma {:induction false} HeardForGood(w: World, cfg: Config, commands: seq<Command>, more: seq<Command>,
                                        answer: string)
    requires commands != [] && commands[|commands| - 1] == Resume(answer)
    requires Machines(w, cfg, commands[..|commands| - 1]).status == Interrupted
    ensures Told(w, cfg, commands + more) == Some(answer)
  {
    if more == [] {
      assert commands + more == commands;
    } else {
      var init, last := more[..|more| - 1], more[|more| - 1];
      assert (commands + more)[..|commands + more| - 1] == commands + init;
      HeardForGood(w, cfg, commands, init, answer);
      AskedOnce(w, cfg, commands + init, answer);
    }
  }

  /** A run that heard an answer pauses only if the answer was there from the start, and then never. */
  lemma AskedOnce(w: World, cfg: Config, commands: seq<Command>, answer: string)
    requires Told(w, cfg, commands) == Some(answer)
    ensures Machines(w, cfg, commands).status != Interrupted
  {
    AnswerStays(w, cfg, commands);
    MachineReachable(w, cfg, commands);
    PausedIsUntold(w, cfg, commands);
  }

  lemma {:induction false} PausedIsUntold(w: World, cfg: Config, commands: seq<Command>)
    ensures Machines(w, cfg, commands).status == Interrupted ==>
              Machines(w, cfg, commands).state.clarification.None?
  {
    if commands != [] {
      var init := commands[..|commands| - 1];
      var m := Machines(w, cfg, init);
      PausedIsUntold(w, cfg, init);
      DecideNeeds(w, cfg, m.state, m.visits);
    }
  }
}
