/** The hand-written decision loop of `run_agent_scan.py`. */
module AgentLoop {
  import opened Common
  import opened Findings
  import opened AgentModels
  import opened AgentTail

  /** Everything a run asks from outside. The number is the decision it belongs to, so a policy, a
      source or a meter may answer differently every time. Without a budget `overBudget` is never true. */
  datatype World = World(
    policy: (nat, string, seq<AgentStep>, seq<RawApproval>) -> Action,
    fetch: (nat, string) -> Result<seq<RawApproval>, string>,
    overBudget: nat -> bool)

  datatype Config = Config(goal: string, maxSteps: nat, hasClarifier: bool, clarification: Option<string>,
                           capText: string)

  datatype Phase = Going | Stopped | Asked(question: string) | Broken(message: string)

  datatype LoopState = LoopState(
    approvals: seq<RawApproval>, collected: set<string>, steps: seq<AgentStep>,
    scanned: set<string>, degraded: seq<string>, phase: Phase)

  const LOOP_START := LoopState([], {}, [], {}, [], Going)

  const REPEATED_ASK := "the policy asked for clarification again; finishing with what was found"

  function CostReason(capText: string): string { "cost budget of $" + capText + " exhausted" }

  function BudgetReason(maxSteps: nat): string { "step budget of " + Decimal(maxSteps) + " exhausted" }

  /** Without a clarifier, or once an answer is known, an ask becomes a finish. */
  function AskGuard(action: Action, hasClarifier: bool, clarification: Option<string>): Action
  {
    if action.AskAction? && (!hasClarifier || clarification.Some?) then FinishAction(REPEATED_ASK) else action
  }

  function FinishStep(seqNo: int, reason: string): AgentStep { AgentStep(seqNo, StepKind.Finish, "", reason, 0) }

  function DegradedStep(seqNo: int, chain: string, error: string): AgentStep
  {
    AgentStep(seqNo, StepKind.Degraded, chain, "chain not scanned: " + error, 0)
  }

  /** One iteration, numbered from 1. */
  function LoopTurn(w: World, cfg: Config, s: LoopState, seqNo: nat): LoopState
    requires seqNo > 0
  {
    var k := seqNo - 1;
    if s.phase != Going then s
    else if w.overBudget(k) then s.(steps := s.steps + [FinishStep(seqNo, CostReason(cfg.capText))], phase := Stopped)
    else match AskGuard(w.policy(k, cfg.goal, s.steps, s.approvals), cfg.hasClarifier, cfg.clarification)
      case AskAction(question, _) => s.(phase := Asked(question))
      case RaisedAction(message) => s.(phase := Broken(message))
      case FinishAction(reason) => s.(steps := s.steps + [FinishStep(seqNo, reason)], phase := Stopped)
      case ScanAction(chain, reason) => LoopScan(s, seqNo, chain, reason, w.fetch(k, chain))
  }

  function LoopScan(s: LoopState, seqNo: nat, chain: string, reason: string, fetched: Result<seq<RawApproval>, string>)
    : LoopState
  {
    match fetched
    case Err(error) =>
      s.(degraded := s.degraded + [chain + ": " + error], steps := s.steps + [DegradedStep(seqNo, chain, error)])
    case Ok(found) =>
      var unseen := Unseen(found, s.collected);
      s.(approvals := s.approvals + unseen, collected := s.collected + KeySet(unseen),
         scanned := s.scanned + {chain},
         steps := s.steps + [AgentStep(seqNo, StepKind.Scan, chain, reason, |unseen|)])
  }

  /** The state after `n` iterations. */
  function LoopAfter(w: World, cfg: Config, n: nat): LoopState
  {
    if n == 0 then LOOP_START else LoopTurn(w, cfg, LoopAfter(w, cfg, n - 1), n)
  }

  /** After the `else` of the loop: a run nobody stopped is stopped by the step budget. */
  function LoopEnd(w: World, cfg: Config): LoopState
  {
    var s := LoopAfter(w, cfg, cfg.maxSteps);
    if s.phase == Going then
      s.(steps := s.steps + [FinishStep(cfg.maxSteps + 1, BudgetReason(cfg.maxSteps))], phase := Stopped)
    else s
  }

  function Joined(parts: seq<string>): string
  {
    if parts == [] then "" else if |parts| == 1 then parts[0]
    else Joined(parts[..|parts| - 1]) + "; " + parts[|parts| - 1]
  }

  function NothingScanned(causes: seq<string>): string
  {
    "no chain could be scanned (" + Joined(causes) + ") \U{2014} refusing to report a wallet as clean"
  }

  function LoopRun(w: World, cfg: Config, intel: ThreatIntel, revoker: Option<Revoker>, seen: Option<set<string>>): Run
  {
    var s := LoopEnd(w, cfg);
    if s.phase.Asked? then Run(Outcome.Paused(s.phase.question), s.steps, [])
    else if s.phase.Broken? then Run(Raised(s.phase.message), s.steps, [])
    else if s.degraded != [] && s.scanned == {} then Run(Raised(NothingScanned(s.degraded)), s.steps, [])
    else Tail(s.approvals, s.steps, intel, if w.overBudget(|s.steps|) then None else revoker, seen)
  }

  /** The decision loop and its `else`; `decisions` counts the policy calls. */
  method Explore(w: World, cfg: Config) returns (end: LoopState, decisions: nat)
    ensures end == LoopEnd(w, cfg) && decisions <= cfg.maxSteps
  {
    var approvals: seq<RawApproval>, collected: set<string>, steps: seq<AgentStep> := [], {}, [];
    var scanned: set<string>, degraded: seq<string> := {}, [];
    decisions := 0;
    var stopped := false;
    for seqNo := 1 to cfg.maxSteps + 1
      invariant decisions <= seqNo - 1 && !stopped
      invariant LoopAfter(w, cfg, seqNo - 1) == LoopState(approvals, collected, steps, scanned, degraded, Going)
    {
      if w.overBudget(seqNo - 1) {
        steps := steps + [FinishStep(seqNo, CostReason(cfg.capText))];
        StaysPut(w, cfg, seqNo, cfg.maxSteps);
        stopped := true;
        break;
      }
      decisions := decisions + 1;
      var action := AskGuard(w.policy(seqNo - 1, cfg.goal, steps, approvals), cfg.hasClarifier, cfg.clarification);
      if action.AskAction? {
        StaysPut(w, cfg, seqNo, cfg.maxSteps);
        return LoopState(approvals, collected, steps, scanned, degraded, Asked(action.question)), decisions;
      }
      if action.RaisedAction? {
        StaysPut(w, cfg, seqNo, cfg.maxSteps);
        return LoopState(approvals, collected, steps, scanned, degraded, Broken(action.message)), decisions;
      }
      if action.ScanAction? {
        var fetched := w.fetch(seqNo - 1, action.chainId);
        if fetched.Err? {
          degraded := degraded + [action.chainId + ": " + fetched.error];
          steps := steps + [DegradedStep(seqNo, action.chainId, fetched.error)];
          continue;
        }
        var unseen := Unseen(fetched.value, collected);
        collected := collected + KeySet(unseen);
        approvals := approvals + unseen;
        scanned := scanned + {action.chainId};
        steps := steps + [AgentStep(seqNo, StepKind.Scan, action.chainId, action.reason, |unseen|)];
      } else {
        steps := steps + [FinishStep(seqNo, action.reason)];
        StaysPut(w, cfg, seqNo, cfg.maxSteps);
        stopped := true;
        break;
      }
    }
    if !stopped {
      steps := steps + [FinishStep(cfg.maxSteps + 1, BudgetReason(cfg.maxSteps))];
    }
    end := LoopState(approvals, collected, steps, scanned, degraded, Stopped);
  }

  /** The whole run: at most `maxSteps` policy calls, whatever the policy does. */
  method RunAgentScan(w: World, cfg: Config, intel: ThreatIntel, revoker: Option<Revoker>, seen: Option<set<string>>)
    returns (run: Run, decisions: nat)
    ensures run == LoopRun(w, cfg, intel, revoker, seen)
    ensures decisions <= cfg.maxSteps
  {
    var end;
    end, decisions := Explore(w, cfg);
    if end.phase.Asked? {
      return Run(Outcome.Paused(end.phase.question), end.steps, []), decisions;
    }
    if end.phase.Broken? {
      return Run(Raised(end.phase.message), end.steps, []), decisions;
    }
    if end.degraded != [] && end.scanned == {} {
      return Run(Raised(NothingScanned(end.degraded)), end.steps, []), decisions;
    }
    var acting := if w.overBudget(|end.steps|) then None else revoker;
    run := Deliver(end.approvals, end.steps, intel, acting, seen);
  }

  lemma {:induction false} StaysPut(w: World, cfg: Config, n: nat, m: nat)
    requires n <= m && LoopAfter(w, cfg, n).phase != Going
    ensures LoopAfter(w, cfg, m) == LoopAfter(w, cfg, n)
  {
    if n < m {
      StaysPut(w, cfg, n, m - 1);
    }
  }

  // ---------------------------------------------------------------- what the loop keeps

  predicate HasKind(steps: seq<AgentStep>, kind: StepKind)
  {
    exists i :: 0 <= i < |steps| && steps[i].kind == kind
  }

  ghost predicate LoopInv(s: LoopState)
  {
    && Numbered(s.steps)
    && s.collected == KeySet(s.approvals)
    && (s.degraded != [] <==> HasKind(s.steps, StepKind.Degraded))
    && (s.scanned != {} <==> HasKind(s.steps, StepKind.Scan))
    && (forall i :: 0 <= i < |s.steps| ==> s.steps[i].kind in {StepKind.Scan, StepKind.Degraded, StepKind.Finish})
    && (forall i :: 0 <= i < |s.steps| && s.steps[i].kind == StepKind.Finish ==>
          s.phase == Stopped && i == |s.steps| - 1)
  }

  lemma KindSnoc(steps: seq<AgentStep>, step: AgentStep, kind: StepKind)
    ensures HasKind(steps + [step], kind) <==> HasKind(steps, kind) || step.kind == kind
  {
    var all := steps + [step];
    assert all[|steps|] == step;
    assert forall i :: 0 <= i < |steps| ==> all[i] == steps[i];
  }

  lemma ScanKeepsInv(s: LoopState, seqNo: nat, chain: string, reason: string, fetched: Result<seq<RawApproval>, string>)
    requires LoopInv(s) && s.phase == Going && seqNo == |s.steps| + 1
    ensures LoopInv(LoopScan(s, seqNo, chain, reason, fetched))
  {
    var after := LoopScan(s, seqNo, chain, reason, fetched);
    var step := after.steps[|s.steps|];
    KindSnoc(s.steps, step, StepKind.Degraded);
    KindSnoc(s.steps, step, StepKind.Scan);
    if fetched.Ok? {
      assert chain in after.scanned;
    }
  }

  lemma FinishKeepsInv(s: LoopState, reason: string)
    requires LoopInv(s) && s.phase == Going
    ensures LoopInv(s.(steps := s.steps + [FinishStep(|s.steps| + 1, reason)], phase := Stopped))
  {
    KindSnoc(s.steps, FinishStep(|s.steps| + 1, reason), StepKind.Degraded);
    KindSnoc(s.steps, FinishStep(|s.steps| + 1, reason), StepKind.Scan);
  }

  lemma TurnKeepsLoopInv(w: World, cfg: Config, s: LoopState, seqNo: nat)
    requires LoopInv(s) && s.phase == Going && seqNo == |s.steps| + 1
    ensures var after := LoopTurn(w, cfg, s, seqNo);
            LoopInv(after) && |after.steps| <= seqNo && (after.phase == Going ==> |after.steps| == seqNo)
  {
    var action := AskGuard(w.policy(seqNo - 1, cfg.goal, s.steps, s.approvals), cfg.hasClarifier, cfg.clarification);
    if w.overBudget(seqNo - 1) {
      FinishKeepsInv(s, CostReason(cfg.capText));
    } else if action.ScanAction? {
      ScanKeepsInv(s, seqNo, action.chainId, action.reason, w.fetch(seqNo - 1, action.chainId));
    } else if action.FinishAction? {
      FinishKeepsInv(s, action.reason);
    }
  }

  /** While it runs the loop has journaled one step per iteration. */
  lemma {:induction false} LoopReachable(w: World, cfg: Config, n: nat)
    ensures var s := LoopAfter(w, cfg, n); LoopInv(s) && |s.steps| <= n && (s.phase == Going ==> |s.steps| == n)
  {
    if n > 0 {
      LoopReachable(w, cfg, n - 1);
      if LoopAfter(w, cfg, n - 1).phase == Going {
        TurnKeepsLoopInv(w, cfg, LoopAfter(w, cfg, n - 1), n);
      }
    }
  }

  lemma LoopEndInv(w: World, cfg: Config)
    ensures LoopInv(LoopEnd(w, cfg)) && LoopEnd(w, cfg).phase != Going && |LoopEnd(w, cfg).steps| <= cfg.maxSteps + 1
  {
    LoopReachable(w, cfg, cfg.maxSteps);
    var s := LoopAfter(w, cfg, cfg.maxSteps);
    if s.phase == Going {
      FinishKeepsInv(s, BudgetReason(cfg.maxSteps));
    }
  }

  /** No single fetch reports an approval twice. */
  ghost predicate DistinctFetches(w: World)
  {
    forall k, chain :: w.fetch(k, chain).Ok? ==> Distinct(RawKeys(w.fetch(k, chain).value))
  }

  lemma NewKeysDistinct(approvals: seq<RawApproval>, found: seq<RawApproval>)
    requires Distinct(RawKeys(approvals)) && Distinct(RawKeys(found))
    ensures Distinct(RawKeys(approvals + Unseen(found, KeySet(approvals))))
  {
    var more := Unseen(found, KeySet(approvals));
    UnseenDistinct(found, KeySet(approvals));
    UnseenIsNew(found, KeySet(approvals));
    assert RawKeys(approvals + more) == RawKeys(approvals) + RawKeys(more);
    forall key | key in RawKeys(approvals) ensures key !in RawKeys(more) {
      var i :| 0 <= i < |approvals| && approvals[i].Key() == key;
      assert approvals[i] in approvals;
      assert forall j :: 0 <= j < |more| ==> more[j] in more && more[j].Key() !in KeySet(approvals);
    }
    DistinctAppend(RawKeys(approvals), RawKeys(more));
  }

  lemma TurnKeepsDistinct(w: World, cfg: Config, s: LoopState, seqNo: nat)
    requires DistinctFetches(w) && seqNo > 0 && Distinct(RawKeys(s.approvals)) && s.collected == KeySet(s.approvals)
    ensures Distinct(RawKeys(LoopTurn(w, cfg, s, seqNo).approvals))
  {
    var k := seqNo - 1;
    var action := AskGuard(w.policy(k, cfg.goal, s.steps, s.approvals), cfg.hasClarifier, cfg.clarification);
    if s.phase == Going && !w.overBudget(k) && action.ScanAction? && w.fetch(k, action.chainId).Ok? {
      NewKeysDistinct(s.approvals, w.fetch(k, action.chainId).value);
    }
  }

  /** If no single fetch repeats a key, the run collects distinct keys. */
  lemma {:induction false} CollectedDistinct(w: World, cfg: Config, n: nat)
    requires DistinctFetches(w)
    ensures Distinct(RawKeys(LoopAfter(w, cfg, n).approvals))
  {
    if n > 0 {
      CollectedDistinct(w, cfg, n - 1);
      LoopReachable(w, cfg, n - 1);
      TurnKeepsDistinct(w, cfg, LoopAfter(w, cfg, n - 1), n);
    }
  }

  lemma CoveredByNew(approvals: seq<RawApproval>, found: seq<RawApproval>)
    ensures KeySet(found) <= KeySet(approvals + Unseen(found, KeySet(approvals)))
  {
    UnseenIsNew(found, KeySet(approvals));
  }

  /** The keys of every successful scan so far are collected. */
  ghost predicate Covered(w: World, s: LoopState)
  {
    forall i :: 0 <= i < |s.steps| && s.steps[i].kind == StepKind.Scan ==> ScanCovered(w, s, i)
  }

  ghost predicate ScanCovered(w: World, s: LoopState, i: nat)
    requires i < |s.steps|
  {
    var fetched := w.fetch(i, s.steps[i].detail);
    fetched.Ok? && KeySet(fetched.value) <= KeySet(s.approvals)
  }

  lemma TurnKeepsCovered(w: World, cfg: Config, s: LoopState, seqNo: nat)
    requires Covered(w, s) && s.phase == Going && |s.steps| == seqNo - 1 && s.collected == KeySet(s.approvals)
    ensures Covered(w, LoopTurn(w, cfg, s, seqNo))
  {
    var after := LoopTurn(w, cfg, s, seqNo);
    forall i | 0 <= i < |after.steps| && after.steps[i].kind == StepKind.Scan ensures ScanCovered(w, after, i) {
      if i < |s.steps| {
        assert ScanCovered(w, s, i) && after.steps[i] == s.steps[i];
      } else {
        CoveredByNew(s.approvals, w.fetch(i, after.steps[i].detail).value);
      }
    }
  }

  /** Nothing a successful scan returned is lost: its keys are all collected, by this scan or before. */
  lemma {:induction false} NothingLost(w: World, cfg: Config, n: nat)
    ensures Covered(w, LoopAfter(w, cfg, n))
  {
    if n > 0 {
      NothingLost(w, cfg, n - 1);
      LoopReachable(w, cfg, n - 1);
      if LoopAfter(w, cfg, n - 1).phase == Going {
        TurnKeepsCovered(w, cfg, LoopAfter(w, cfg, n - 1), n);
      }
    }
  }
}
