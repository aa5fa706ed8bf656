/** The loop and the graph compared: where they take the same decisions and where they do not. */
module AgentAgreement {
  import opened Common
  import opened Findings
  import opened AgentModels
  import opened AgentTail
  import opened AgentLoop
  import opened AgentGraph

  /** The policy looks only at what a checkpoint keeps. */
  ghost predicate ReadsCheckpoint(w: World)
  {
    forall k, goal, steps, approvals ::
      w.policy(k, goal, steps, approvals) == w.policy(k, goal, steps, StripAll(approvals))
  }

  /** The loop is handed the goal with the clarification already in it. */
  function LoopConfig(cfg: Config): Config { cfg.(goal := GoalWith(cfg.goal, cfg.clarification)) }

  ghost predicate SamePhase(phase: Phase, m: Machine)
  {
    match phase
    case Going => m.status == Running
    case Stopped => m.status == Ended
    case Broken(message) => m.status == Status.Failed(message)
    case Asked(question) => m.status == Interrupted && m.state.next.NextAsk? && m.state.next.question == question
  }

  /** Same steps, same collected approvals up to what a checkpoint drops, same phase. */
  ghost predicate Matches(s: LoopState, m: Machine)
  {
    && m.state.steps == StepsToDicts(s.steps)
    && m.state.approvals == ApprovalsToDicts(s.approvals)
    && SamePhase(s.phase, m)
  }

  ghost predicate InStep(cfg: Config, s: LoopState, m: Machine)
  {
    && Matches(s, m)
    && (set key | key in m.state.collected) == s.collected
    && m.state.goal == cfg.goal && m.state.clarification == cfg.clarification
    && m.state.asked == cfg.clarification.Some?
    && (s.phase == Going ==> m.visits == |s.steps|)
  }

  lemma StepsRoundTrip(steps: seq<AgentStep>)
    ensures Readable(StepsToDicts(steps)) && StepsFromDicts(StepsToDicts(steps)) == steps
  {
    forall i | 0 <= i < |steps| ensures StepFromDict(StepsToDicts(steps)[i]) == Some(steps[i]) {
      CheckpointRoundTrip(steps[i], ApprovalFromDict(NO_APPROVAL), NO_APPROVAL);
    }
  }

  const NO_APPROVAL := ApprovalDict("", "", "", "", "", None, map[])

  lemma ApprovalsRoundTrip(approvals: seq<RawApproval>)
    ensures ApprovalsFromDicts(ApprovalsToDicts(approvals)) == StripAll(approvals)
  {
  }

  lemma DictsSnoc(steps: seq<AgentStep>, step: AgentStep)
    ensures StepsToDicts(steps + [step]) == StepsToDicts(steps) + [StepToDict(step)]
  {
  }

  lemma DictsAppend(a: seq<RawApproval>, b: seq<RawApproval>)
    ensures ApprovalsToDicts(a + b) == ApprovalsToDicts(a) + ApprovalsToDicts(b)
  {
  }

  lemma {:induction false} ScansAtMostSteps(steps: seq<AgentStep>)
    ensures ScansDone(StepsToDicts(steps)) <= |steps|
    ensures ScansDone(StepsToDicts(steps)) == |steps|
            <==> forall i :: 0 <= i < |steps| ==> steps[i].kind == StepKind.Scan
  {
    if steps != [] {
      var init, last := steps[..|steps| - 1], steps[|steps| - 1];
      ScansAtMostSteps(init);
      DictsSnoc(init, last);
      assert steps == init + [last];
      assert (StepsToDicts(init) + [StepToDict(last)])[..|init|] == StepsToDicts(init);
      assert forall i :: 0 <= i < |init| ==> steps[i] == init[i];
    }
  }

  // ---------------------------------------------------------------- turn by turn

  /** Below the step budget both take the same decision. */
  lemma SameDecision(w: World, cfg: Config, s: LoopState, m: Machine)
    requires ReadsCheckpoint(w) && InStep(cfg, s, m) && s.phase == Going && |s.steps| < cfg.maxSteps
    requires Readable(m.state.steps)
    ensures var k := |s.steps|;
            Decide(w, cfg, m.state, m.visits)
            == if w.overBudget(k) then NextFinish(CostReason(cfg.capText))
               else ActionToDict(AskGuard(w.policy(k, LoopConfig(cfg).goal, s.steps, s.approvals), cfg.hasClarifier,
                                          cfg.clarification))
  {
    ScansAtMostSteps(s.steps);
    StepsRoundTrip(s.steps);
    ApprovalsRoundTrip(s.approvals);
    var k := |s.steps|;
    assert w.policy(k, LoopConfig(cfg).goal, s.steps, s.approvals)
             == w.policy(k, LoopConfig(cfg).goal, s.steps, StripAll(s.approvals));
  }

  lemma SameScan(cfg: Config, s: LoopState, m: Machine, chain: string, reason: string, fetched: Result<seq<RawApproval>,
                 string>)
    requires InStep(cfg, s, m) && s.phase == Going
    ensures InStep(cfg, LoopScan(s, |s.steps| + 1, chain, reason, fetched),
                   Machine(DoScan(m.state.(next := NextScan(chain, reason)), fetched), Running, m.visits + 1, m.asks))
  {
    match fetched
    case Err(error) =>
      DictsSnoc(s.steps, DegradedStep(|s.steps| + 1, chain, error));
    case Ok(found) =>
      var unseen := Unseen(found, s.collected);
      DictsSnoc(s.steps, AgentStep(|s.steps| + 1, StepKind.Scan, chain, reason, |unseen|));
      DictsAppend(s.approvals, unseen);
      KeysAreKeySet(unseen);
  }

  lemma SameFinish(cfg: Config, s: LoopState, m: Machine, reason: string)
    requires InStep(cfg, s, m) && s.phase == Going
    ensures InStep(cfg, s.(steps := s.steps + [FinishStep(|s.steps| + 1, reason)], phase := Stopped),
                   Machine(Finalize(m.state.(next := NextFinish(reason))), Ended, m.visits + 1, m.asks))
  {
    DictsSnoc(s.steps, FinishStep(|s.steps| + 1, reason));
  }

  lemma SameTurn(w: World, cfg: Config, s: LoopState, m: Machine)
    requires ReadsCheckpoint(w) && InStep(cfg, s, m) && s.phase == Going && |s.steps| < cfg.maxSteps
    requires Readable(m.state.steps)
    ensures InStep(cfg, LoopTurn(w, LoopConfig(cfg), s, |s.steps| + 1), GraphTurn(w, cfg, m))
  {
    SameDecision(w, cfg, s, m);
    var k := |s.steps|;
    var next := Decide(w, cfg, m.state, m.visits);
    match next
    case NextScan(chain, reason) => SameScan(cfg, s, m, chain, reason, w.fetch(k, chain));
    case NextFinish(reason) => SameFinish(cfg, s, m, reason);
    case _ =>
  }

  lemma SameOrSettled(w: World, cfg: Config, s: LoopState, m: Machine, n: nat)
    requires ReadsCheckpoint(w) && InStep(cfg, s, m) && Readable(m.state.steps)
    requires 0 < n <= cfg.maxSteps && (s.phase == Going ==> |s.steps| == n - 1)
    ensures InStep(cfg, LoopTurn(w, LoopConfig(cfg), s, n), GraphTurn(w, cfg, m))
  {
    if s.phase == Going {
      SameTurn(w, cfg, s, m);
    }
  }

  lemma StepsReadable(w: World, cfg: Config, n: nat, s: LoopState, m: Machine)
    requires s == LoopAfter(w, LoopConfig(cfg), n) && InStep(cfg, s, m)
    ensures Readable(m.state.steps) && (s.phase == Going ==> |s.steps| == n)
  {
    LoopReachable(w, LoopConfig(cfg), n);
    StepsRoundTrip(s.steps);
  }

  lemma NextTurns(w: World, cfg: Config, n: nat, s: LoopState, m: Machine)
    requires s == LoopAfter(w, LoopConfig(cfg), n) && m == GraphAfter(w, cfg, n) && Readable(m.state.steps)
    ensures LoopAfter(w, LoopConfig(cfg), n + 1) == LoopTurn(w, LoopConfig(cfg), s, n + 1)
    ensures GraphAfter(w, cfg, n + 1) == GraphTurn(w, cfg, m)
  {
  }

  /** For the first `maxSteps` turns the two never differ, whatever is scanned, fails, is asked or finishes. */
  lemma {:induction false} InStepThroughout(w: World, cfg: Config, n: nat)
    requires ReadsCheckpoint(w) && n <= cfg.maxSteps
    ensures InStep(cfg, LoopAfter(w, LoopConfig(cfg), n), GraphAfter(w, cfg, n))
  {
    if n > 0 {
      var s, m := LoopAfter(w, LoopConfig(cfg), n - 1), GraphAfter(w, cfg, n - 1);
      InStepThroughout(w, cfg, n - 1);
      StepsReadable(w, cfg, n - 1, s, m);
      SameOrSettled(w, cfg, s, m, n);
      NextTurns(w, cfg, n - 1, s, m);
    }
  }

  // ---------------------------------------------------------------- the end of the run

  /** The loop used up its step budget although a fetch had failed. */
  ghost predicate SpentOnFailures(w: World, cfg: Config)
  {
    var s := LoopAfter(w, LoopConfig(cfg), cfg.maxSteps);
    s.phase == Going && HasKind(s.steps, StepKind.Degraded)
  }

  /** What the graph decides where the loop has run out of steps. */
  ghost function NextInGraph(w: World, cfg: Config): Next
  {
    var m := GraphAfter(w, cfg, cfg.maxSteps);
    Decide(w, cfg, m.state, m.visits)
  }

  lemma NextTurn(w: World, cfg: Config, n: nat, m: Machine)
    requires m == GraphAfter(w, cfg, n) && Readable(m.state.steps)
    ensures GraphAfter(w, cfg, n + 1) == GraphTurn(w, cfg, m)
  {
  }

  lemma BudgetTurn(w: World, cfg: Config, s: LoopState, m: Machine)
    requires InStep(cfg, s, m) && s.phase == Going && Readable(m.state.steps)
    requires Decide(w, cfg, m.state, m.visits) == NextFinish(BudgetReason(cfg.maxSteps))
    ensures var step := FinishStep(|s.steps| + 1, BudgetReason(cfg.maxSteps));
            InStep(cfg, s.(steps := s.steps + [step], phase := Stopped), GraphTurn(w, cfg, m))
  {
    SameFinish(cfg, s, m, BudgetReason(cfg.maxSteps));
  }

  lemma BudgetDecision(w: World, cfg: Config, s: LoopState, m: Machine)
    requires InStep(cfg, s, m) && s.phase == Going && |s.steps| == cfg.maxSteps && Readable(m.state.steps)
    requires !HasKind(s.steps, StepKind.Degraded)
    requires forall i :: 0 <= i < |s.steps| ==> s.steps[i].kind in {StepKind.Scan, StepKind.Degraded}
    ensures Decide(w, cfg, m.state, m.visits) == NextFinish(BudgetReason(cfg.maxSteps))
  {
    ScansAtMostSteps(s.steps);
  }

  /** Unless steps were lost to failures, the two runs end alike. */
  lemma EndsAlike(w: World, cfg: Config) returns (n: nat)
    requires ReadsCheckpoint(w)
    requires !SpentOnFailures(w, cfg) || NextInGraph(w, cfg) == NextFinish(BudgetReason(cfg.maxSteps))
    ensures InStep(cfg, LoopEnd(w, LoopConfig(cfg)), GraphAfter(w, cfg, n))
    ensures n <= cfg.maxSteps + 1
  {
    InStepThroughout(w, cfg, cfg.maxSteps);
    LoopReachable(w, LoopConfig(cfg), cfg.maxSteps);
    n := cfg.maxSteps;
    if LoopAfter(w, LoopConfig(cfg), cfg.maxSteps).phase == Going {
      n := cfg.maxSteps + 1;
      EndsOnBudget(w, cfg, LoopAfter(w, LoopConfig(cfg), cfg.maxSteps), GraphAfter(w, cfg, cfg.maxSteps));
      NextTurn(w, cfg, cfg.maxSteps, GraphAfter(w, cfg, cfg.maxSteps));
    }
  }

  lemma EndsOnBudget(w: World, cfg: Config, s: LoopState, m: Machine)
    requires InStep(cfg, s, m) && s.phase == Going && |s.steps| == cfg.maxSteps && Readable(m.state.steps) && LoopInv(s)
    requires !HasKind(s.steps, StepKind.Degraded)
             || Decide(w, cfg, m.state, m.visits) == NextFinish(BudgetReason(cfg.maxSteps))
    ensures var step := FinishStep(cfg.maxSteps + 1, BudgetReason(cfg.maxSteps));
            InStep(cfg, s.(steps := s.steps + [step], phase := Stopped), GraphTurn(w, cfg, m))
  {
    if !HasKind(s.steps, StepKind.Degraded) {
      BudgetDecision(w, cfg, s, m);
    }
    BudgetTurn(w, cfg, s, m);
  }

  lemma GraphStepsGrow(w: World, cfg: Config, m: Machine)
    requires Readable(m.state.steps)
    ensures m.state.steps <= GraphTurn(w, cfg, m).state.steps
  {
  }

  lemma NextStepsGrow(w: World, cfg: Config, n: nat, before: Machine, after: Machine)
    requires before == GraphAfter(w, cfg, n) && after == GraphAfter(w, cfg, n + 1) && Readable(before.state.steps)
    ensures before.state.steps <= after.state.steps
  {
    NextTurn(w, cfg, n, before);
    GraphStepsGrow(w, cfg, before);
  }

  lemma {:induction false} GraphStepsKept(w: World, cfg: Config, n: nat, m: nat)
    requires n <= m
    ensures GraphAfter(w, cfg, n).state.steps <= GraphAfter(w, cfg, m).state.steps
  {
    if n < m {
      GraphStepsKept(w, cfg, n, m - 1);
      NextStepsGrow(w, cfg, m - 1, GraphAfter(w, cfg, m - 1), GraphAfter(w, cfg, m));
    }
  }

  lemma {:induction false} GraphStays(w: World, cfg: Config, n: nat, m: nat)
    requires n <= m && GraphAfter(w, cfg, n).status != Running
    ensures GraphAfter(w, cfg, m) == GraphAfter(w, cfg, n)
  {
    if n < m {
      GraphStays(w, cfg, n, m - 1);
    }
  }

  /** A graph that is one step past `s` with another step, or asks there, is not at the end of `s`. */
  lemma OtherEnd(s: LoopState, reason: string, m: Machine, k: nat)
    requires k == |s.steps|
    requires Halted(m) || |m.state.steps| <= k || m.state.steps[k] != StepToDict(FinishStep(k + 1, reason))
    ensures !Matches(s.(steps := s.steps + [FinishStep(k + 1, reason)], phase := Stopped), m)
  {
    DictsSnoc(s.steps, FinishStep(k + 1, reason));
  }

  ghost predicate Halted(m: Machine)
  {
    m.status == Interrupted || m.status.Failed?
  }

  /** Interrupted or failed, or past `k` steps with something else than that finish. */
  ghost predicate Elsewhere(m: Machine, k: nat, reason: string)
  {
    Halted(m) || (|m.state.steps| > k && m.state.steps[k] != StepToDict(FinishStep(k + 1, reason)))
  }

  lemma TurnsElsewhere(w: World, cfg: Config, m: Machine)
    requires Readable(m.state.steps) && m.status == Running
    requires Decide(w, cfg, m.state, m.visits) != NextFinish(BudgetReason(cfg.maxSteps))
    ensures Readable(GraphTurn(w, cfg, m).state.steps)
    ensures Elsewhere(GraphTurn(w, cfg, m), |m.state.steps|, BudgetReason(cfg.maxSteps))
  {
    TurnReadable(w, cfg, m);
    DecideNeeds(w, cfg, m.state, m.visits);
    if Decide(w, cfg, m.state, m.visits).NextScan? || Decide(w, cfg, m.state, m.visits).NextFinish? {
      NextStepDiffers(w, cfg, m);
    }
  }

  lemma {:induction false} StaysElsewhere(w: World, cfg: Config, n: nat, m: nat, k: nat, reason: string)
    requires n <= m && Elsewhere(GraphAfter(w, cfg, n), k, reason)
    ensures Elsewhere(GraphAfter(w, cfg, m), k, reason)
  {
    if Halted(GraphAfter(w, cfg, n)) {
      GraphStays(w, cfg, n, m);
    } else {
      GraphStepsKept(w, cfg, n, m);
    }
  }

  lemma FirstElsewhere(w: World, cfg: Config, n: nat, m: Machine)
    requires m == GraphAfter(w, cfg, n) && m.status == Running && Readable(m.state.steps)
    requires Decide(w, cfg, m.state, m.visits) != NextFinish(BudgetReason(cfg.maxSteps))
    ensures Elsewhere(GraphAfter(w, cfg, n + 1), |m.state.steps|, BudgetReason(cfg.maxSteps))
  {
    TurnsElsewhere(w, cfg, m);
    NextTurn(w, cfg, n, m);
  }

  /** If the graph does anything but finish on the step budget there, it never reaches the loop's end. */
  lemma NeverCatchesUp(w: World, cfg: Config, n: nat)
    requires ReadsCheckpoint(w) && LoopAfter(w, LoopConfig(cfg), cfg.maxSteps).phase == Going
    requires NextInGraph(w, cfg) != NextFinish(BudgetReason(cfg.maxSteps))
    ensures !Matches(LoopEnd(w, LoopConfig(cfg)), GraphAfter(w, cfg, n))
  {
    var m := AtTheBudget(w, cfg);
    if n <= cfg.maxSteps {
      GraphStepsKept(w, cfg, n, cfg.maxSteps);
      NotTheLoopEnd(w, LoopConfig(cfg), GraphAfter(w, cfg, n));
    } else {
      FirstElsewhere(w, cfg, cfg.maxSteps, m);
      LaterElsewhere(w, cfg, n);
    }
  }

  lemma LaterElsewhere(w: World, cfg: Config, n: nat)
    requires n > cfg.maxSteps
    requires Elsewhere(GraphAfter(w, cfg, cfg.maxSteps + 1), cfg.maxSteps, BudgetReason(cfg.maxSteps))
    requires var s := LoopAfter(w, LoopConfig(cfg), cfg.maxSteps); s.phase == Going && |s.steps| == cfg.maxSteps
    ensures !Matches(LoopEnd(w, LoopConfig(cfg)), GraphAfter(w, cfg, n))
  {
    StaysElsewhere(w, cfg, cfg.maxSteps + 1, n, cfg.maxSteps, BudgetReason(cfg.maxSteps));
    NotTheLoopEnd(w, LoopConfig(cfg), GraphAfter(w, cfg, n));
  }

  /** A machine with no more steps than the budget, or elsewhere, is not at the end of a loop that ran
      out of steps. */
  lemma NotTheLoopEnd(w: World, cfg: Config, m: Machine)
    requires LoopAfter(w, cfg, cfg.maxSteps).phase == Going && |LoopAfter(w, cfg, cfg.maxSteps).steps| == cfg.maxSteps
    requires |m.state.steps| <= cfg.maxSteps || Elsewhere(m, cfg.maxSteps, BudgetReason(cfg.maxSteps))
    ensures !Matches(LoopEnd(w, cfg), m)
  {
    OtherEnd(LoopAfter(w, cfg, cfg.maxSteps), BudgetReason(cfg.maxSteps), m, cfg.maxSteps);
  }

  lemma AtTheBudget(w: World, cfg: Config) returns (m: Machine)
    requires ReadsCheckpoint(w) && LoopAfter(w, LoopConfig(cfg), cfg.maxSteps).phase == Going
    ensures m == GraphAfter(w, cfg, cfg.maxSteps) && m.status == Running && |m.state.steps| == cfg.maxSteps
    ensures Readable(m.state.steps) && |LoopAfter(w, LoopConfig(cfg), cfg.maxSteps).steps| == cfg.maxSteps
  {
    m := GraphAfter(w, cfg, cfg.maxSteps);
    InStepThroughout(w, cfg, cfg.maxSteps);
    LoopReachable(w, LoopConfig(cfg), cfg.maxSteps);
  }

  lemma NextStepDiffers(w: World, cfg: Config, m: Machine)
    requires Readable(m.state.steps) && m.status == Running
    requires var next := Decide(w, cfg, m.state, m.visits);
             next != NextFinish(BudgetReason(cfg.maxSteps)) && (next.NextScan? || next.NextFinish?)
    ensures var k, steps := |m.state.steps|, GraphTurn(w, cfg, m).state.steps;
            |steps| == k + 1 && steps[k] != StepToDict(FinishStep(k + 1, BudgetReason(cfg.maxSteps)))
  {
    assert KindName(StepKind.Scan)[0] != KindName(StepKind.Finish)[0];
    assert KindName(StepKind.Degraded)[0] != KindName(StepKind.Finish)[0];
  }

  ghost predicate ReachesLoopEnd(w: World, cfg: Config, n: nat)
  {
    Matches(LoopEnd(w, LoopConfig(cfg)), GraphAfter(w, cfg, n))
  }

  /** Loop and graph reach the same end, with the same numbered steps and the same approvals up to the
      fields a checkpoint drops, or pause on the same question, if and only if the loop did not run
      out of steps after a failed fetch; the one other case is a graph that happens to finish right
      there with the loop's own words. */
  lemma AgreementIff(w: World, cfg: Config)
    requires ReadsCheckpoint(w)
    ensures (exists n: nat :: ReachesLoopEnd(w, cfg, n))
            <==> !SpentOnFailures(w, cfg) || NextInGraph(w, cfg) == NextFinish(BudgetReason(cfg.maxSteps))
  {
    if !SpentOnFailures(w, cfg) || NextInGraph(w, cfg) == NextFinish(BudgetReason(cfg.maxSteps)) {
      var n := EndsAlike(w, cfg);
      assert ReachesLoopEnd(w, cfg, n);
    } else {
      forall n: nat ensures !ReachesLoopEnd(w, cfg, n) {
        NeverCatchesUp(w, cfg, n);
      }
    }
  }

  /** A source that always answers. */
  ghost predicate EverythingAnswers(w: World)
  {
    forall k, chain :: w.fetch(k, chain).Ok?
  }

  lemma {:induction false} NeverDegraded(w: World, cfg: Config, n: nat)
    requires EverythingAnswers(w)
    ensures !HasKind(LoopAfter(w, cfg, n).steps, StepKind.Degraded)
  {
    if n > 0 {
      NeverDegraded(w, cfg, n - 1);
    }
  }

  /** What a caller can know beforehand: over a source that always answers, loop and graph agree for
      every policy that reads only the checkpoint, whatever it scans, asks or raises. */
  lemma AgreeWhenAllAnswers(w: World, cfg: Config) returns (n: nat)
    requires ReadsCheckpoint(w) && EverythingAnswers(w)
    ensures n <= cfg.maxSteps + 1 && ReachesLoopEnd(w, cfg, n)
  {
    NeverDegraded(w, LoopConfig(cfg), cfg.maxSteps);
    n := EndsAlike(w, cfg);
  }

  // ---------------------------------------------------------------- what is delivered

  /** The threat intelligence looks only at what a checkpoint keeps. */
  ghost predicate AssessesCheckpoint(intel: ThreatIntel)
  {
    forall approvals :: intel(approvals) == intel(StripAll(approvals))
  }

  lemma SameAssessment(approvals: seq<RawApproval>, intel: ThreatIntel)
    requires AssessesCheckpoint(intel)
    ensures Assessed(StripAll(approvals), intel) == Assessed(approvals, intel)
  {
    assert intel(approvals) == intel(StripAll(approvals));
    if intel(approvals).Ok? && |approvals| == |intel(approvals).value| {
      var assessments := intel(approvals).value;
      assert Resolve(StripAll(approvals), assessments).value == Resolve(approvals, assessments).value;
    }
  }

  ghost predicate AllFailed(s: LoopState)
  {
    s.degraded != [] && s.scanned == {}
  }

  /** A graph that matches the end of the loop delivers the same findings with the same journal after
      the same revocations, unless every chain failed or money ran out. */
  lemma SameRun(w: World, cfg: Config, m: Machine, intel: ThreatIntel, revoker: Option<Revoker>,
                seen: Option<set<string>>)
    requires Readable(m.state.steps) && Matches(LoopEnd(w, cfg), m) && AssessesCheckpoint(intel)
    requires !AllFailed(LoopEnd(w, cfg))
    requires !w.overBudget(|LoopEnd(w, cfg).steps|) || revoker.None?
    ensures m.status != Running && GraphRun(m, intel, revoker, seen) == LoopRun(w, cfg, intel, revoker, seen)
  {
    var s := LoopEnd(w, cfg);
    LoopEndInv(w, cfg);
    StepsRoundTrip(s.steps);
    ApprovalsRoundTrip(s.approvals);
    SameAssessment(s.approvals, intel);
  }

  /** End to end: unless failed fetches used up the loop's steps, every chain failed or money ran out,
      the graph stops within one turn of the step budget and its whole run is the run of the loop. */
  lemma SameDelivery(w: World, cfg: Config, intel: ThreatIntel, revoker: Option<Revoker>, seen: Option<set<string>>)
    returns (n: nat)
    requires ReadsCheckpoint(w) && AssessesCheckpoint(intel) && !SpentOnFailures(w, cfg)
    requires !AllFailed(LoopEnd(w, LoopConfig(cfg)))
    requires !w.overBudget(|LoopEnd(w, LoopConfig(cfg)).steps|) || revoker.None?
    ensures n <= cfg.maxSteps + 1 && GraphAfter(w, cfg, n).status != Running
    ensures GraphRun(GraphAfter(w, cfg, n), intel, revoker, seen) == LoopRun(w, LoopConfig(cfg), intel, revoker, seen)
  {
    n := EndsAlike(w, cfg);
    SameRun(w, LoopConfig(cfg), GraphAfter(w, cfg, n), intel, revoker, seen);
  }

  /** Then, as long as the budget is never exceeded, their whole runs are equal. */
  lemma SameRunWhenAllAnswers(w: World, cfg: Config, intel: ThreatIntel, revoker: Option<Revoker>,
                              seen: Option<set<string>>)
    returns (n: nat)
    requires ReadsCheckpoint(w) && EverythingAnswers(w) && AssessesCheckpoint(intel) && forall k :: !w.overBudget(k)
    ensures n <= cfg.maxSteps + 1 && GraphAfter(w, cfg, n).status != Running
    ensures GraphRun(GraphAfter(w, cfg, n), intel, revoker, seen) == LoopRun(w, LoopConfig(cfg), intel, revoker, seen)
  {
    NeverDegraded(w, LoopConfig(cfg), cfg.maxSteps);
    LoopReachable(w, LoopConfig(cfg), cfg.maxSteps);
    n := SameDelivery(w, cfg, intel, revoker, seen);
  }

  /** When every chain failed both refuse to deliver. */
  lemma BothRefuse(w: World, cfg: Config, m: Machine, intel: ThreatIntel, revoker: Option<Revoker>,
                   seen: Option<set<string>>)
    requires Readable(m.state.steps) && Matches(LoopEnd(w, cfg), m)
    requires AllFailed(LoopEnd(w, cfg)) && LoopEnd(w, cfg).phase == Stopped
    ensures m.status == Ended
    ensures var g, l := GraphRun(m, intel, revoker, seen), LoopRun(w, cfg, intel, revoker, seen);
            && g.outcome.Raised? && l.outcome.Raised? && g.calls == l.calls == []
            && g.journal == l.journal
  {
    LoopEndInv(w, cfg);
    StepsRoundTrip(LoopEnd(w, cfg).steps);
  }

  lemma LoopNeverCalls(w: World, cfg: Config, intel: ThreatIntel, revoker: Option<Revoker>, seen: Option<set<string>>)
    requires w.overBudget(|LoopEnd(w, cfg).steps|)
    ensures LoopRun(w, cfg, intel, revoker, seen).calls == []
  {
  }

  lemma GraphCallsAll(s: LoopState, m: Machine, intel: ThreatIntel, revoker: Revoker, seen: Option<set<string>>)
    requires Readable(m.state.steps) && Matches(s, m) && AssessesCheckpoint(intel) && LoopInv(s)
    requires s.phase == Stopped && !AllFailed(s) && Assessed(s.approvals, intel).Ok?
    ensures GraphRun(m, intel, Some(revoker), seen).calls
            == ToRevoke(SortByRisk(Assessed(s.approvals, intel).value))
  {
    StepsRoundTrip(s.steps);
    ApprovalsRoundTrip(s.approvals);
    SameAssessment(s.approvals, intel);
  }

  /** Over budget the loop never calls the revoker; the graph, which does not look, asks it to revoke
      every dangerous finding. */
  lemma OverBudgetDiffers(w: World, cfg: Config, m: Machine, intel: ThreatIntel, revoker: Revoker,
                          seen: Option<set<string>>)
    requires Readable(m.state.steps) && Matches(LoopEnd(w, cfg), m) && AssessesCheckpoint(intel)
    requires LoopEnd(w, cfg).phase == Stopped && !AllFailed(LoopEnd(w, cfg))
    requires w.overBudget(|LoopEnd(w, cfg).steps|) && Assessed(LoopEnd(w, cfg).approvals, intel).Ok?
    ensures m.status == Ended
    ensures LoopRun(w, cfg, intel, Some(revoker), seen).calls == []
    ensures GraphRun(m, intel, Some(revoker), seen).calls
              == ToRevoke(SortByRisk(Assessed(LoopEnd(w, cfg).approvals, intel).value))
  {
    LoopEndInv(w, cfg);
    LoopNeverCalls(w, cfg, intel, Some(revoker), seen);
    GraphCallsAll(LoopEnd(w, cfg), m, intel, revoker, seen);
  }
}
