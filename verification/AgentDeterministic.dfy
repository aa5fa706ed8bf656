/** The adapters without a model (`deterministic.py`): the risk rule, and a walk over the chains in order. */
module AgentDeterministic {
  import opened Common
  import opened Findings
  import opened AgentModels
  import opened AgentTail
  import opened AgentLoop
  import opened AgentGraph
  import opened AgentAgreement
  import opened AgentSafety

  /** The chains already scanned; a failed chain is not among them. */
  function ScannedChains(steps: seq<AgentStep>): seq<string>
  {
    if steps == [] then []
    else ScannedChains(steps[..|steps| - 1])
         + if steps[|steps| - 1].kind == StepKind.Scan then [steps[|steps| - 1].detail] else []
  }

  function FirstMissing(chains: seq<string>, scanned: seq<string>): Option<string>
  {
    if chains == [] then None
    else if chains[0] !in scanned then Some(chains[0])
    else FirstMissing(chains[1..], scanned)
  }

  function DecideInOrder(chains: seq<string>, steps: seq<AgentStep>): Action
  {
    match FirstMissing(chains, ScannedChains(steps))
    case Some(chain) =>
      ScanAction(chain, "Scanning chain " + chain + " (no LLM configured: covering every configured chain in order)")
    case None => FinishAction("All " + Decimal(|chains|) + " configured chain(s) scanned")
  }

  /** The tier from the rule, the prose from a template over what a checkpoint keeps. */
  function AssessByRule(approvals: seq<RawApproval>, describe: (ApprovalDict, RiskTier) -> (seq<string>, string))
    : Result<seq<Assessment>, string>
  {
    Ok(seq(|approvals|, i requires 0 <= i < |approvals| =>
      var tier := ClassifyRisk(approvals[i].raw);
      var prose := describe(ApprovalToDict(approvals[i]), tier);
      Assessment(tier, prose.0, Some(prose.1))))
  }

  /** The threat intelligence without a model meets what the theorems on revocation and agreement ask. */
  lemma RuleIntelQualifies(intel: ThreatIntel, describe: (ApprovalDict, RiskTier) -> (seq<string>, string))
    requires forall approvals :: intel(approvals) == AssessByRule(approvals, describe)
    ensures UsesRiskRule(intel) && AssessesCheckpoint(intel)
  {
    forall approvals ensures intel(approvals) == intel(StripAll(approvals)) {
      var full, stripped := AssessByRule(approvals, describe).value, AssessByRule(StripAll(approvals), describe).value;
      assert forall i :: 0 <= i < |approvals| ==>
               ApprovalToDict(StripAll(approvals)[i]) == ApprovalToDict(approvals[i]);
      assert full == stripped;
      assert intel(StripAll(approvals)) == AssessByRule(StripAll(approvals), describe);
    }
  }

  /** Every assessment by rule explains itself, from nothing but what a checkpoint keeps and the tier. */
  lemma RuleExplains(a: RawApproval, b: RawApproval, describe: (ApprovalDict, RiskTier) -> (seq<string>, string))
    requires b == a.(approvedAt := b.approvedAt, approvalTxHash := b.approvalTxHash)
    ensures var first, second := AssessByRule([a], describe), AssessByRule([b], describe);
            first == second && first.Ok? && |first.value| == 1 && first.value[0].explanation.Some?
  {
    assert ApprovalToDict(a) == ApprovalToDict(b);
    var first, second := AssessByRule([a], describe).value, AssessByRule([b], describe).value;
    assert first[0] == second[0];
    assert first == second;
  }

  // ---------------------------------------------------------------- walking the chains

  /** The policy walks distinct chains, without a budget, and a chain answers exactly when it is up. */
  ghost predicate Walks(w: World, chains: seq<string>, up: string -> bool)
  {
    && Distinct(chains)
    && (forall k, goal, steps, approvals :: w.policy(k, goal, steps, approvals) == DecideInOrder(chains, steps))
    && (forall k :: !w.overBudget(k))
    && (forall k, chain :: w.fetch(k, chain).Ok? <==> up(chain))
  }

  /** Chain `p` is the first that is down; `p` is the number of chains if none is. */
  ghost predicate FirstFailure(chains: seq<string>, up: string -> bool, p: nat)
  {
    && p <= |chains|
    && (forall i :: 0 <= i < p ==> up(chains[i]))
    && (p < |chains| ==> !up(chains[p]))
  }

  lemma {:induction false} FirstMissingIs(chains: seq<string>, scanned: seq<string>, p: nat)
    requires p <= |chains| && (forall i :: 0 <= i < p ==> chains[i] in scanned)
    requires p < |chains| ==> chains[p] !in scanned
    ensures FirstMissing(chains, scanned) == if p < |chains| then Some(chains[p]) else None
  {
    if p > 0 {
      FirstMissingIs(chains[1..], scanned, p - 1);
    }
  }

  lemma NextInOrder(chains: seq<string>, steps: seq<AgentStep>, n: nat)
    requires Distinct(chains) && n <= |chains| && ScannedChains(steps) == chains[..n]
    ensures n < |chains| ==>
              DecideInOrder(chains, steps).ScanAction? && DecideInOrder(chains, steps).chainId == chains[n]
    ensures n == |chains| ==> DecideInOrder(chains, steps).FinishAction?
  {
    assert forall i :: 0 <= i < n ==> chains[..n][i] == chains[i];
    FirstMissingIs(chains, chains[..n], n);
  }

  /** What the walking policy answers once the first `n` chains are scanned. */
  lemma Picks(w: World, chains: seq<string>, up: string -> bool, k: nat, goal: string, steps: seq<AgentStep>,
              approvals: seq<RawApproval>, n: nat)
    requires Walks(w, chains, up) && n <= |chains| && ScannedChains(steps) == chains[..n]
    ensures var action := w.policy(k, goal, steps, approvals);
            if n < |chains| then action.ScanAction? && action.chainId == chains[n] else action.FinishAction?
  {
    NextInOrder(chains, steps, n);
  }

  lemma Answers(w: World, chains: seq<string>, up: string -> bool, k: nat, chain: string)
    requires Walks(w, chains, up)
    ensures !w.overBudget(k) && (w.fetch(k, chain).Ok? <==> up(chain))
  {
  }

  /** The loop is on its way: it has scanned the first `n` chains, once each, in order, and nothing else. */
  ghost predicate OnItsWay(s: LoopState, chains: seq<string>, n: nat)
  {
    n <= |chains| && s.phase == Going && |s.steps| == n && ScannedChains(s.steps) == chains[..n]
  }

  lemma ScanTurn(w: World, cfg: Config, chains: seq<string>, s: LoopState, n: nat)
    requires OnItsWay(s, chains, n) && n < |chains| && !w.overBudget(n) && w.fetch(n, chains[n]).Ok?
    requires var action := w.policy(n, cfg.goal, s.steps, s.approvals);
                   action.ScanAction? && action.chainId == chains[n]
    ensures OnItsWay(LoopTurn(w, cfg, s, n + 1), chains, n + 1)
  {
    assert chains[..n + 1] == chains[..n] + [chains[n]];
  }

  ghost predicate LoopMoves(w: World, cfg: Config, chains: seq<string>, up: string -> bool)
  {
    forall s, n: nat :: OnItsWay(s, chains, n) && n < |chains| && up(chains[n]) ==>
      OnItsWay(LoopTurn(w, cfg, s, n + 1), chains, n + 1)
  }

  lemma WalkMovesLoop(w: World, cfg: Config, chains: seq<string>, up: string -> bool)
    requires Walks(w, chains, up)
    ensures LoopMoves(w, cfg, chains, up)
  {
    forall s, n: nat | OnItsWay(s, chains, n) && n < |chains| && up(chains[n])
      ensures OnItsWay(LoopTurn(w, cfg, s, n + 1), chains, n + 1)
    {
      Picks(w, chains, up, n, cfg.goal, s.steps, s.approvals, n);
      Answers(w, chains, up, n, chains[n]);
      ScanTurn(w, cfg, chains, s, n);
    }
  }

  lemma {:induction false} LoopWalks(w: World, cfg: Config, chains: seq<string>, up: string -> bool, p: nat, n: nat)
    requires LoopMoves(w, cfg, chains, up) && FirstFailure(chains, up, p) && n <= p
    ensures OnItsWay(LoopAfter(w, cfg, n), chains, n)
  {
    if n > 0 {
      LoopWalks(w, cfg, chains, up, p, n - 1);
      assert OnItsWay(LoopTurn(w, cfg, LoopAfter(w, cfg, n - 1), n - 1 + 1), chains, n - 1 + 1);
    }
  }

  /** The walk has scanned the first `n` chains, once each, in order, and finished. */
  ghost predicate WalkOver(s: LoopState, chains: seq<string>, n: nat)
  {
    && n <= |chains| && s.phase == Stopped && |s.steps| == n + 1
    && ScannedChains(s.steps) == chains[..n] && s.steps[n].kind == StepKind.Finish
  }

  lemma WalkStops(s: LoopState, chains: seq<string>, n: nat, reason: string)
    requires OnItsWay(s, chains, n)
    ensures WalkOver(s.(steps := s.steps + [FinishStep(n + 1, reason)], phase := Stopped), chains, n)
  {
  }

  lemma FinishTurn(w: World, cfg: Config, chains: seq<string>, s: LoopState, n: nat)
    requires OnItsWay(s, chains, n) && !w.overBudget(n) && w.policy(n, cfg.goal, s.steps, s.approvals).FinishAction?
    ensures WalkOver(LoopTurn(w, cfg, s, n + 1), chains, n)
  {
    WalkStops(s, chains, n, w.policy(n, cfg.goal, s.steps, s.approvals).reason);
  }

  /** With no failing chain the loop scans each of the first `maxSteps` chains exactly once, in order,
      and then finishes. */
  lemma LoopCoversChains(w: World, cfg: Config, chains: seq<string>, up: string -> bool)
    requires Walks(w, chains, up) && FirstFailure(chains, up, |chains|)
    ensures var covered := Min(|chains|, cfg.maxSteps); var end := LoopEnd(w, cfg);
            && end.phase == Stopped && |end.steps| == covered + 1
            && ScannedChains(end.steps) == chains[..covered]
            && end.steps[covered].kind == StepKind.Finish
  {
    var covered := Min(|chains|, cfg.maxSteps);
    WalkMovesLoop(w, cfg, chains, up);
    LoopWalks(w, cfg, chains, up, |chains|, covered);
    var s := LoopAfter(w, cfg, covered);
    if |chains| < cfg.maxSteps {
      Picks(w, chains, up, covered, cfg.goal, s.steps, s.approvals, covered);
      Answers(w, chains, up, covered, "");
      FinishTurn(w, cfg, chains, s, covered);
      StaysPut(w, cfg, covered + 1, cfg.maxSteps);
    } else {
      WalkStops(s, chains, covered, BudgetReason(cfg.maxSteps));
    }
  }

  // ---------------------------------------------------------------- the graph over a failing chain

  lemma FromDictsSnoc(dicts: seq<StepDict>, step: AgentStep)
    requires Readable(dicts)
    ensures Readable(dicts + [StepToDict(step)])
    ensures StepsFromDicts(dicts + [StepToDict(step)]) == StepsFromDicts(dicts) + [step]
  {
    ReadableSnoc(dicts, step);
    StepsRoundTrip([step]);
    assert StepsToDicts([step])[0] == StepToDict(step);
    assert StepsFromDicts(StepsToDicts([step]))[0] == step;
  }

  lemma {:induction false} ScansAreChains(dicts: seq<StepDict>)
    requires Readable(dicts)
    ensures ScansDone(dicts) == |ScannedChains(StepsFromDicts(dicts))|
  {
    if dicts != [] {
      var n := |dicts| - 1;
      ScansAreChains(dicts[..n]);
      assert StepsFromDicts(dicts)[..n] == StepsFromDicts(dicts[..n]);
      assert StepFromDict(dicts[n]).Some?;
    }
  }

  /** The graph runs on, having scanned exactly the first `n` chains. */
  ghost predicate GraphAt(m: Machine, chains: seq<string>, n: nat)
  {
    n <= |chains| && m.status == Running && Readable(m.state.steps)
    && ScannedChains(StepsFromDicts(m.state.steps)) == chains[..n]
  }

  /** The graph goes on to chain `n` while there is one and the scans are not spent. */
  ghost predicate GoesOn(next: Next, chains: seq<string>, n: nat, maxSteps: nat)
    requires n <= |chains|
  {
    if n < |chains| && n < maxSteps then next.NextScan? && next.chainId == chains[n] else next.NextFinish?
  }

  lemma DecidesInOrder(w: World, cfg: Config, chains: seq<string>, up: string -> bool, m: Machine, n: nat)
    requires Walks(w, chains, up) && GraphAt(m, chains, n) && n <= cfg.maxSteps
    ensures GoesOn(Decide(w, cfg, m.state, m.visits), chains, n, cfg.maxSteps)
  {
    var steps := StepsFromDicts(m.state.steps);
    ScansAreChains(m.state.steps);
    Answers(w, chains, up, m.visits, "");
    Picks(w, chains, up, m.visits, GoalWith(m.state.goal, m.state.clarification), steps,
          ApprovalsFromDicts(m.state.approvals), n);
  }

  lemma ScanAppends(s: GraphState, fetched: Result<seq<RawApproval>, string>) returns (step: AgentStep)
    requires s.next.NextScan?
    ensures DoScan(s, fetched).steps == s.steps + [StepToDict(step)]
    ensures step.detail == s.next.chainId && (step.kind == StepKind.Scan <==> fetched.Ok?)
  {
    match fetched
    case Err(error) => step := DegradedStep(|s.steps| + 1, s.next.chainId, error);
    case Ok(found) =>
      step :=
        AgentStep(|s.steps| + 1, StepKind.Scan, s.next.chainId, s.next.reason,
                  |Unseen(found, set key | key in s.collected)|);
  }

  lemma ScanVisit(w: World, cfg: Config, chains: seq<string>, m: Machine, n: nat)
    requires GraphAt(m, chains, n) && n < |chains| && n < cfg.maxSteps
    requires GoesOn(Decide(w, cfg, m.state, m.visits), chains, n, cfg.maxSteps)
    ensures GraphAt(GraphTurn(w, cfg, m), chains, if w.fetch(m.visits, chains[n]).Ok? then n + 1 else n)
  {
    var s := m.state.(next := Decide(w, cfg, m.state, m.visits));
    var step := ScanAppends(s, w.fetch(m.visits, chains[n]));
    FromDictsSnoc(m.state.steps, step);
    assert chains[..n + 1] == chains[..n] + [chains[n]];
  }

  ghost predicate GraphMoves(w: World, cfg: Config, chains: seq<string>, up: string -> bool)
  {
    forall m, n: nat :: GraphAt(m, chains, n) && n < |chains| && n < cfg.maxSteps ==>
                          GraphAt(GraphTurn(w, cfg, m), chains, if up(chains[n]) then n + 1 else n)
  }

  lemma WalkMovesGraph(w: World, cfg: Config, chains: seq<string>, up: string -> bool)
    requires Walks(w, chains, up)
    ensures GraphMoves(w, cfg, chains, up)
  {
    forall m, n: nat | GraphAt(m, chains, n) && n < |chains| && n < cfg.maxSteps
      ensures GraphAt(GraphTurn(w, cfg, m), chains, if up(chains[n]) then n + 1 else n)
    {
      DecidesInOrder(w, cfg, chains, up, m, n);
      Answers(w, chains, up, m.visits, chains[n]);
      ScanVisit(w, cfg, chains, m, n);
    }
  }

  lemma {:induction false} GraphWalks(w: World, cfg: Config, chains: seq<string>, up: string -> bool, p: nat, n: nat)
    requires GraphMoves(w, cfg, chains, up) && FirstFailure(chains, up, p) && n <= p && n <= cfg.maxSteps
    ensures GraphAt(GraphAfter(w, cfg, n), chains, n)
  {
    if n > 0 {
      GraphWalks(w, cfg, chains, up, p, n - 1);
      var m := GraphAfter(w, cfg, n - 1);
      assert GraphAt(GraphTurn(w, cfg, m), chains, n - 1 + 1);
    }
  }

  lemma {:induction false} GraphIsStuck(w: World, cfg: Config, chains: seq<string>, up: string -> bool, p: nat, n: nat)
    requires GraphMoves(w, cfg, chains, up) && FirstFailure(chains, up, p) && p < |chains| && p < cfg.maxSteps && n >= p
    ensures GraphAt(GraphAfter(w, cfg, n), chains, p)
  {
    if n == p {
      GraphWalks(w, cfg, chains, up, p, n);
    } else {
      GraphIsStuck(w, cfg, chains, up, p, n - 1);
      var m := GraphAfter(w, cfg, n - 1);
      assert GraphAt(GraphTurn(w, cfg, m), chains, p);
    }
  }

  lemma LastVisit(w: World, cfg: Config, m: Machine)
    requires m.status == Running && Readable(m.state.steps) && Decide(w, cfg, m.state, m.visits).NextFinish?
    ensures var after := GraphTurn(w, cfg, m);
            && after.status == Ended && after.visits == m.visits + 1 && Readable(after.state.steps)
            && ScannedChains(StepsFromDicts(after.state.steps)) == ScannedChains(StepsFromDicts(m.state.steps))
  {
    var step := FinishStep(|m.state.steps| + 1, Decide(w, cfg, m.state, m.visits).reason);
    FromDictsSnoc(m.state.steps, step);
  }

  /** With no failing chain in reach the graph scans each of the first `maxSteps` chains exactly once,
      in order, and ends on the next visit. */
  lemma GraphCoversChains(w: World, cfg: Config, chains: seq<string>, up: string -> bool, p: nat)
    requires Walks(w, chains, up) && FirstFailure(chains, up, p) && (p == |chains| || p >= cfg.maxSteps)
    ensures var covered := Min(|chains|, cfg.maxSteps); var m := GraphAfter(w, cfg, covered + 1);
            && m.status == Ended && m.visits == covered + 1
            && ScannedChains(StepsFromDicts(m.state.steps)) == chains[..covered]
  {
    var covered := Min(|chains|, cfg.maxSteps);
    WalkMovesGraph(w, cfg, chains, up);
    GraphWalks(w, cfg, chains, up, p, covered);
    AfterReachable(w, cfg, covered);
    DecidesInOrder(w, cfg, chains, up, GraphAfter(w, cfg, covered), covered);
    LastVisit(w, cfg, GraphAfter(w, cfg, covered));
  }

  /** Driven by the walk, the graph never ends exactly when some chain fails before the step budget is
      spent on scans: a failed chain is not a scanned one, so the walk picks it again for ever. */
  lemma GraphRunsForeverIff(w: World, cfg: Config, chains: seq<string>, up: string -> bool, p: nat)
    requires Walks(w, chains, up) && FirstFailure(chains, up, p)
    ensures (forall n: nat :: GraphAfter(w, cfg, n).status == Running) <==> p < |chains| && p < cfg.maxSteps
  {
    if p < |chains| && p < cfg.maxSteps {
      WalkMovesGraph(w, cfg, chains, up);
      forall n: nat ensures GraphAfter(w, cfg, n).status == Running {
        if n <= p {
          GraphWalks(w, cfg, chains, up, p, n);
        } else {
          GraphIsStuck(w, cfg, chains, up, p, n);
        }
      }
    } else {
      GraphCoversChains(w, cfg, chains, up, p);
      assert GraphAfter(w, cfg, Min(|chains|, cfg.maxSteps) + 1).status == Ended;
    }
  }

  /** There the two orchestrators part: the loop ends on its step budget, the graph never does. */
  lemma FailingWalkDisagrees(w: World, cfg: Config, chains: seq<string>, up: string -> bool, p: nat, n: nat)
    requires Walks(w, chains, up) && FirstFailure(chains, up, p) && p < |chains| && p < cfg.maxSteps
    ensures !ReachesLoopEnd(w, cfg, n)
  {
    LoopEndInv(w, LoopConfig(cfg));
    GraphRunsForeverIff(w, cfg, chains, up, p);
    assert LoopEnd(w, LoopConfig(cfg)).phase != Going;
    assert GraphAfter(w, cfg, n).status == Running;
  }

  /** The smallest case: one chain, one step, and the chain is down. */
  lemma OneDeadChain() returns (w: World, cfg: Config)
    ensures forall n: nat :: !ReachesLoopEnd(w, cfg, n)
  {
    var chains, up := ["1"], (chain: string) => false;
    w := World((k: nat, goal: string, steps: seq<AgentStep>, approvals: seq<RawApproval>) =>
                 DecideInOrder(chains, steps),
               (k: nat, chain: string) => Err("down"), (k: nat) => false);
    cfg := Config("scan", 1, false, None, "0.00");
    assert Walks(w, chains, up) && FirstFailure(chains, up, 0);
    forall n: nat ensures !ReachesLoopEnd(w, cfg, n) {
      FailingWalkDisagrees(w, cfg, chains, up, 0, n);
    }
  }
}
