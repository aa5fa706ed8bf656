/** What a run says that could inspect nothing: its error names every chain with its own cause. */
module Refusals {
  import opened Common
  import opened Findings
  import opened AgentModels
  import opened AgentTail
  import opened AgentLoop
  import opened AgentGraph
  import opened Workflow

  lemma ContainsWithin(text: string, middle: string, part: string)
    requires Contains(text, middle) && Contains(middle, part)
    ensures Contains(text, part)
  {
    var b, a :| text == b + middle + a;
    var b', a' :| middle == b' + part + a';
    assert text == (b + b') + part + (a' + a);
  }

  lemma {:induction false} JoinedContains(parts: seq<string>, i: nat)
    requires i < |parts|
    ensures Contains(Joined(parts), parts[i])
  {
    if |parts| == 1 {
      assert Joined(parts) == "" + parts[i] + "";
    } else if i == |parts| - 1 {
      assert Joined(parts) == (Joined(parts[..i]) + "; ") + parts[i] + "";
    } else {
      var init := parts[..|parts| - 1];
      JoinedContains(init, i);
      assert Joined(parts) == "" + Joined(init) + ("; " + parts[|parts| - 1]);
      ContainsWithin(Joined(parts), Joined(init), parts[i]);
    }
  }

  lemma RefusalContains(causes: seq<string>, i: nat)
    requires i < |causes|
    ensures Contains(NothingScanned(causes), causes[i])
  {
    JoinedContains(causes, i);
    var before, after := "no chain could be scanned (", ") \U{2014} refusing to report a wallet as clean";
    assert NothingScanned(causes) == before + Joined(causes) + after;
    ContainsWithin(NothingScanned(causes), Joined(causes), causes[i]);
  }

  /** A run that a budget stopped says which budget. */
  lemma StopsTellTheBudget(maxSteps: nat, capText: string)
    ensures Contains(BudgetReason(maxSteps), Decimal(maxSteps)) && Contains(CostReason(capText), capText)
  {
    assert BudgetReason(maxSteps) == "step budget of " + Decimal(maxSteps) + " exhausted";
    assert CostReason(capText) == "cost budget of $" + capText + " exhausted";
  }

  // ---------------------------------------------------------------- the loop

  /** The cause gives the chain of the step and the error its fetch raised. */
  ghost predicate Names(cause: string, step: AgentStep)
  {
    exists error :: cause == step.detail + ": " + error && step.reason == "chain not scanned: " + error
  }

  ghost predicate IsNamed(causes: seq<string>, step: AgentStep)
  {
    exists n :: 0 <= n < |causes| && Names(causes[n], step)
  }

  ghost predicate AllNamed(s: LoopState)
  {
    forall i :: 0 <= i < |s.steps| && s.steps[i].kind == StepKind.Degraded ==> IsNamed(s.degraded, s.steps[i])
  }

  lemma StillNamed(causes: seq<string>, cause: string, step: AgentStep)
    requires IsNamed(causes, step)
    ensures IsNamed(causes + [cause], step)
  {
    var n :| 0 <= n < |causes| && Names(causes[n], step);
    assert (causes + [cause])[n] == causes[n];
  }

  lemma ScanKeepsNamed(s: LoopState, seqNo: nat, chain: string, reason: string,
                       fetched: Result<seq<RawApproval>, string>)
    requires AllNamed(s)
    ensures AllNamed(LoopScan(s, seqNo, chain, reason, fetched))
  {
    if fetched.Err? {
      var cause := chain + ": " + fetched.error;
      var step := DegradedStep(seqNo, chain, fetched.error);
      assert (s.degraded + [cause])[|s.degraded|] == cause;
      assert Names(cause, step);
      assert IsNamed(s.degraded + [cause], step);
      forall i | 0 <= i < |s.steps| && s.steps[i].kind == StepKind.Degraded
        ensures IsNamed(s.degraded + [cause], s.steps[i]) {
        StillNamed(s.degraded, cause, s.steps[i]);
      }
    }
  }

  lemma TurnKeepsNamed(w: World, cfg: Config, s: LoopState, seqNo: nat)
    requires AllNamed(s) && seqNo > 0
    ensures AllNamed(LoopTurn(w, cfg, s, seqNo))
  {
    var action := AskGuard(w.policy(seqNo - 1, cfg.goal, s.steps, s.approvals), cfg.hasClarifier, cfg.clarification);
    if action.ScanAction? {
      ScanKeepsNamed(s, seqNo, action.chainId, action.reason, w.fetch(seqNo - 1, action.chainId));
    }
  }

  lemma {:induction false} LoopNames(w: World, cfg: Config, n: nat)
    ensures AllNamed(LoopAfter(w, cfg, n))
  {
    if n > 0 {
      LoopNames(w, cfg, n - 1);
      TurnKeepsNamed(w, cfg, LoopAfter(w, cfg, n - 1), n);
    }
  }

  /** A loop run all of whose chains failed raises, and its error names every failed chain with the cause
      its journal shows. */
  lemma LoopNamesCauses(w: World, cfg: Config, intel: ThreatIntel, revoker: Option<Revoker>, seen: Option<set<string>>,
                        i: nat)
    requires var s := LoopEnd(w, cfg);
             && s.phase == Stopped && s.degraded != [] && s.scanned == {}
             && i < |s.steps| && s.steps[i].kind == StepKind.Degraded
    ensures var run := LoopRun(w, cfg, intel, revoker, seen);
            && run.outcome.Raised?
            && exists cause :: Names(cause, LoopEnd(w, cfg).steps[i]) && Contains(run.outcome.message, cause)
  {
    LoopNames(w, cfg, cfg.maxSteps);
    var s := LoopEnd(w, cfg);
    assert AllNamed(s);
    var n :| 0 <= n < |s.degraded| && Names(s.degraded[n], s.steps[i]);
    RefusalContains(s.degraded, n);
  }

  // ---------------------------------------------------------------- the graph

  lemma {:induction false} CauseIsListed(dicts: seq<StepDict>, i: nat) returns (n: nat)
    requires i < |dicts| && dicts[i].kind == "degraded"
    ensures n < |DegradedCauses(dicts)| && DegradedCauses(dicts)[n] == dicts[i].detail + ": " + dicts[i].reason
  {
    var init := dicts[..|dicts| - 1];
    if i < |init| {
      n := CauseIsListed(init, i);
    } else {
      n := |DegradedCauses(init)|;
    }
  }

  /** So does a graph run, with the reason each failed chain has in the journal. */
  lemma GraphNamesCauses(s: GraphState, intel: ThreatIntel, revoker: Option<Revoker>, seen: Option<set<string>>, i: nat)
    requires Readable(s.steps) && i < |s.steps| && s.steps[i].kind == "degraded"
    requires forall j :: 0 <= j < |s.steps| ==> s.steps[j].kind != "scan"
    ensures var run := GraphDelivered(s, intel, revoker, seen);
            && run.outcome.Raised?
            && Contains(run.outcome.message, s.steps[i].detail + ": " + s.steps[i].reason)
  {
    var steps := StepsFromDicts(s.steps);
    assert StepFromDict(s.steps[i]).Some? && steps[i].kind == StepKind.Degraded;
    forall j | 0 <= j < |steps| ensures steps[j].kind != StepKind.Scan {
      assert StepFromDict(s.steps[j]).Some?;
    }
    var n := CauseIsListed(s.steps, i);
    RefusalContains(DegradedCauses(s.steps), n);
  }

  // ---------------------------------------------------------------- the pipeline

  lemma {:induction false} FailureIsListed(chains: seq<string>, fetch: Source, n: nat, i: nat) returns (k: nat)
    requires i < n <= |chains| && fetch(i, chains[i]).Err?
    ensures k < |Failures(chains, fetch, n)|
    ensures Failures(chains, fetch, n)[k] == chains[i] + ": " + fetch(i, chains[i]).error
  {
    if i < n - 1 {
      k := FailureIsListed(chains, fetch, n - 1, i);
    } else {
      k := |Failures(chains, fetch, n - 1)|;
    }
  }

  /** So does the pipeline; if there was only one chain, its error is passed on as it is. */
  lemma WorkflowNamesCauses(chains: seq<string>, fetch: Source, intel: ThreatIntel, seen: Option<set<string>>, i: nat)
    requires i < |chains| && forall j :: 0 <= j < |chains| ==> fetch(j, chains[j]).Err?
    ensures var run := WorkflowRun(chains, fetch, intel, seen);
            && run.outcome.Raised?
            && (|chains| > 1 ==> Contains(run.outcome.message, chains[i] + ": " + fetch(i, chains[i]).error))
            && (|chains| == 1 ==> run.outcome.message == fetch(0, chains[0]).error)
  {
    FailuresCount(chains, fetch, |chains|);
    var k := FailureIsListed(chains, fetch, |chains|, i);
    RefusalContains(Failures(chains, fetch, |chains|), k);
  }
}
