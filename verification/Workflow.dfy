/** The fixed pipeline of `run_scan.py`: every chain once, dedup, assess, sort, flag, deliver. */
module Workflow {
  import opened Common
  import opened StableSort
  import opened Findings
  import opened AgentModels
  import opened AgentTail
  import opened AgentLoop

  /** What the source answers for the chain at a position of the list. */
  type Source = (nat, string) -> Result<seq<RawApproval>, string>

  /** Everything the reachable chains among the first `n` returned, in order. */
  function Gathered(chains: seq<string>, fetch: Source, n: nat): seq<RawApproval>
    requires n <= |chains|
  {
    if n == 0 then []
    else
      var fetched := fetch(n - 1, chains[n - 1]);
      Gathered(chains, fetch, n - 1) + if fetched.Ok? then fetched.value else []
  }

  function Failures(chains: seq<string>, fetch: Source, n: nat): seq<string>
    requires n <= |chains|
  {
    if n == 0 then []
    else
      var fetched := fetch(n - 1, chains[n - 1]);
      Failures(chains, fetch, n - 1) + if fetched.Err? then [chains[n - 1] + ": " + fetched.error] else []
  }

  function LastError(chains: seq<string>, fetch: Source, n: nat): string
    requires n <= |chains|
  {
    if n == 0 then "None"
    else if fetch(n - 1, chains[n - 1]).Err? then fetch(n - 1, chains[n - 1]).error
    else LastError(chains, fetch, n - 1)
  }

  function ChainStep(seqNo: nat, chain: string, fetched: Result<seq<RawApproval>, string>): AgentStep
  {
    match fetched
    case Err(error) => DegradedStep(seqNo, chain, error)
    case Ok(found) => AgentStep(seqNo, StepKind.Scan, chain, "chain scanned", |found|)
  }

  function ChainSteps(chains: seq<string>, fetch: Source): (steps: seq<AgentStep>)
    ensures |steps| == |chains|
  {
    seq(|chains|, i requires 0 <= i < |chains| => ChainStep(i + 1, chains[i], fetch(i, chains[i])))
  }

  function WorkflowRun(chains: seq<string>, fetch: Source, intel: ThreatIntel, seen: Option<set<string>>): Run
  {
    var failures := Failures(chains, fetch, |chains|);
    var journal := ChainSteps(chains, fetch);
    if failures != [] && |failures| == |chains| then
      Run(Raised(if |failures| > 1 then NothingScanned(failures) else LastError(chains, fetch, |chains|)), journal, [])
    else match Assessed(Deduped(Gathered(chains, fetch, |chains|)), intel)
      case Err(e) => Run(Raised(e), journal, [])
      case Ok(findings) => Run(Delivered(Flagged(SortByRisk(findings), seen)), journal, [])
  }

  function Flagged(findings: seq<ApprovalFinding>, seen: Option<set<string>>): seq<ApprovalFinding>
  {
    match seen
    case None => findings
    case Some(keys) => FlagNew(findings, keys)
  }

  method RunScan(chains: seq<string>, fetch: Source, intel: ThreatIntel, seen: Option<set<string>>) returns (run: Run)
    ensures run == WorkflowRun(chains, fetch, intel, seen)
  {
    var approvals: seq<RawApproval>, failures: seq<string>, lastError: string := [], [], "None";
    var journal: seq<AgentStep> := [];
    var seqNo := 0;
    for i := 0 to |chains|
      invariant seqNo == i
      invariant approvals == Gathered(chains, fetch, i)
      invariant failures == Failures(chains, fetch, i)
      invariant lastError == LastError(chains, fetch, i)
      invariant journal == ChainSteps(chains, fetch)[..i]
    {
      seqNo := seqNo + 1;
      assert ChainSteps(chains, fetch)[..i + 1]
               == ChainSteps(chains, fetch)[..i] + [ChainStep(i + 1, chains[i], fetch(i, chains[i]))];
      var fetched := fetch(i, chains[i]);
      if fetched.Err? {
        failures := failures + [chains[i] + ": " + fetched.error];
        lastError := fetched.error;
        journal := journal + [DegradedStep(seqNo, chains[i], fetched.error)];
        continue;
      }
      approvals := approvals + fetched.value;
      journal := journal + [AgentStep(seqNo, StepKind.Scan, chains[i], "chain scanned", |fetched.value|)];
    }
    assert journal == ChainSteps(chains, fetch);
    if failures != [] && |failures| == |chains| {
      return Run(Raised(if |failures| > 1 then NothingScanned(failures) else lastError), journal, []);
    }
    var kept := DedupeApprovals(approvals);
    var resolved := Assessed(kept, intel);
    if resolved.Err? {
      return Run(Raised(resolved.error), journal, []);
    }
    var results := SortByRisk(resolved.value);
    if seen.Some? {
      results := FlagNew(results, seen.value);
    }
    run := Run(Delivered(results), journal, []);
  }

  // ---------------------------------------------------------------- when nothing is delivered

  lemma {:induction false} FailuresCount(chains: seq<string>, fetch: Source, n: nat)
    requires n <= |chains|
    ensures |Failures(chains, fetch, n)| <= n
    ensures |Failures(chains, fetch, n)| == n <==> forall i :: 0 <= i < n ==> fetch(i, chains[i]).Err?
  {
    if n > 0 {
      FailuresCount(chains, fetch, n - 1);
    }
  }

  /** A run delivers unless every chain of a non-empty list failed, or the assessment did; with no
      chain at all it delivers an empty report. */
  lemma DeliversIff(chains: seq<string>, fetch: Source, intel: ThreatIntel, seen: Option<set<string>>)
    ensures WorkflowRun(chains, fetch, intel, seen).outcome.Delivered?
            <==> && (chains == [] || exists i :: 0 <= i < |chains| && fetch(i, chains[i]).Ok?)
                 && Assessed(Deduped(Gathered(chains, fetch, |chains|)), intel).Ok?
    ensures chains == [] && intel([]) == Ok([]) ==> WorkflowRun(chains, fetch, intel, seen).outcome == Delivered([])
  {
    AllFailedIff(chains, fetch);
    if chains == [] {
      assert Deduped(Gathered(chains, fetch, 0)) == [];
    }
  }

  lemma AllFailedIff(chains: seq<string>, fetch: Source)
    ensures var failures := Failures(chains, fetch, |chains|);
            failures != [] && |failures| == |chains|
            <==> chains != [] && forall i :: 0 <= i < |chains| ==> fetch(i, chains[i]).Err?
  {
    FailuresCount(chains, fetch, |chains|);
  }

  /** One numbered step per chain, saying whether it was covered, how much was found or why nothing was. */
  ghost predicate CoversChains(journal: seq<AgentStep>, chains: seq<string>, fetch: Source)
  {
    && Numbered(journal) && |journal| == |chains|
    && forall i :: 0 <= i < |chains| ==> CoversChain(journal[i], chains[i], fetch(i, chains[i]))
  }

  ghost predicate CoversChain(step: AgentStep, chain: string, fetched: Result<seq<RawApproval>, string>)
  {
    && step.detail == chain
    && (step.kind == StepKind.Scan <==> fetched.Ok?) && (step.kind == StepKind.Degraded <==> fetched.Err?)
    && match fetched
       case Ok(found) => step.newHits == |found|
       case Err(error) => step.newHits == 0 && step.reason == "chain not scanned: " + error
  }

  lemma ChainStepsCover(chains: seq<string>, fetch: Source)
    ensures CoversChains(ChainSteps(chains, fetch), chains, fetch)
  {
    var steps := ChainSteps(chains, fetch);
    forall i | 0 <= i < |chains|
      ensures steps[i].seqNo == i + 1 && CoversChain(steps[i], chains[i], fetch(i, chains[i])) {
      ChainStepCovers(i + 1, chains[i], fetch(i, chains[i]));
    }
  }

  lemma ChainStepCovers(seqNo: nat, chain: string, fetched: Result<seq<RawApproval>, string>)
    ensures ChainStep(seqNo, chain, fetched).seqNo == seqNo
    ensures CoversChain(ChainStep(seqNo, chain, fetched), chain, fetched)
  {
  }

  /** Whatever the outcome, the journal covers the chain list. */
  lemma JournalCoversChains(chains: seq<string>, fetch: Source, intel: ThreatIntel, seen: Option<set<string>>)
    ensures CoversChains(WorkflowRun(chains, fetch, intel, seen).journal, chains, fetch)
  {
    ChainStepsCover(chains, fetch);
  }

  // ---------------------------------------------------------------- conservation

  /** Some reachable chain returned this key. */
  ghost predicate Returned(chains: seq<string>, fetch: Source, n: nat, key: string)
    requires n <= |chains|
  {
    exists i :: 0 <= i < n && fetch(i, chains[i]).Ok? && key in RawKeys(fetch(i, chains[i]).value)
  }

  lemma {:induction false} GatheredKeys(chains: seq<string>, fetch: Source, n: nat, key: string)
    requires n <= |chains|
    ensures key in RawKeys(Gathered(chains, fetch, n)) <==> Returned(chains, fetch, n, key)
  {
    if n > 0 {
      GatheredKeys(chains, fetch, n - 1, key);
      var before, fetched := Gathered(chains, fetch, n - 1), fetch(n - 1, chains[n - 1]);
      if fetched.Ok? {
        assert RawKeys(before + fetched.value) == RawKeys(before) + RawKeys(fetched.value);
      } else {
        assert before + [] == before;
      }
    }
  }

  /** What flagging leaves alone. */
  lemma FlaggedKeeps(findings: seq<ApprovalFinding>, seen: Option<set<string>>)
    ensures var flagged := Flagged(findings, seen);
            && |flagged| == |findings|
            && KeysOf(flagged) == KeysOf(findings)
            && forall i :: 0 <= i < |findings| ==> flagged[i] == findings[i].(isNew := flagged[i].isNew)
  {
    KeysOfPointwise(findings);
    KeysOfPointwise(Flagged(findings, seen));
  }

  lemma {:induction false} FlaggedKeepsTiers(findings: seq<ApprovalFinding>, seen: Option<set<string>>, k: int)
    ensures WithKey(Rank, k, Flagged(findings, seen)) == Flagged(WithKey(Rank, k, findings), seen)
  {
    if findings != [] {
      var init, last := findings[..|findings| - 1], findings[|findings| - 1];
      FlaggedKeepsTiers(init, seen, k);
      assert Flagged(findings, seen)[..|init|] == Flagged(init, seen);
      assert Flagged(WithKey(Rank, k, init) + [last], seen)
               == Flagged(WithKey(Rank, k, init), seen) + Flagged([last], seen);
    }
  }

  /** A delivered report holds every key a reachable chain returned, exactly once; its tiers are in
      order; and within a tier the approvals stand in the order in which their keys were first seen. */
  lemma WorkflowConservation(chains: seq<string>, fetch: Source, intel: ThreatIntel, seen: Option<set<string>>)
    requires WorkflowRun(chains, fetch, intel, seen).outcome.Delivered?
    ensures var report := WorkflowRun(chains, fetch, intel, seen).outcome.findings;
            var resolved := Assessed(Deduped(Gathered(chains, fetch, |chains|)), intel).value;
            && Distinct(KeysOf(report))
            && (forall key :: key in KeysOf(report) <==> Returned(chains, fetch, |chains|, key))
            && SortedBy(Rank, report)
            && KeysOf(resolved) == FirstOccurrences(RawKeys(Gathered(chains, fetch, |chains|)))
            && (forall k :: WithKey(Rank, k, report) == Flagged(WithKey(Rank, k, resolved), seen))
  {
    var gathered := Gathered(chains, fetch, |chains|);
    var resolved := Assessed(Deduped(gathered), intel).value;
    var sorted := SortByRisk(resolved);
    var report := Flagged(sorted, seen);
    ReportKeys(gathered, intel);
    SortByIsStable(Rank, resolved);
    FlaggedKeeps(sorted, seen);
    forall key ensures key in KeysOf(report) <==> Returned(chains, fetch, |chains|, key) {
      GatheredKeys(chains, fetch, |chains|, key);
    }
    forall k ensures WithKey(Rank, k, report) == Flagged(WithKey(Rank, k, resolved), seen) {
      FlaggedKeepsTiers(sorted, seen, k);
    }
  }

  lemma ReportKeys(gathered: seq<RawApproval>, intel: ThreatIntel)
    requires Assessed(Deduped(gathered), intel).Ok?
    ensures var resolved := Assessed(Deduped(gathered), intel).value;
            && KeysOf(resolved) == FirstOccurrences(RawKeys(gathered))
            && Distinct(KeysOf(SortByRisk(resolved)))
            && forall key :: key in KeysOf(SortByRisk(resolved)) <==> key in RawKeys(gathered)
  {
    var resolved := Assessed(Deduped(gathered), intel).value;
    DedupKeepsFirst(gathered);
    ResolveKeepsKeys(Deduped(gathered), intel(Deduped(gathered)).value);
    SortKeepsKeys(resolved);
    FirstOccurrencesElements(RawKeys(gathered));
    SameMultisetSameSet(KeysOf(SortByRisk(resolved)), KeysOf(resolved));
  }

  lemma SortedPosition(findings: seq<ApprovalFinding>, j: nat) returns (m: nat)
    requires j < |SortByRisk(findings)|
    ensures m < |findings| && findings[m] == SortByRisk(findings)[j]
  {
    SortByIsStable(Rank, findings);
    assert SortByRisk(findings)[j] in multiset(SortByRisk(findings));
    m :| 0 <= m < |findings| && findings[m] == SortByRisk(findings)[j];
  }

  lemma DedupedPosition(approvals: seq<RawApproval>, m: nat) returns (i: nat)
    requires m < |Deduped(approvals)|
    ensures FirstOfItsKey(approvals, i) && approvals[i] == Deduped(approvals)[m]
  {
    DedupKeepsFirst(approvals);
    assert Deduped(approvals)[m] in Deduped(approvals);
    i :| FirstOfItsKey(approvals, i) && approvals[i] == Deduped(approvals)[m];
  }

  /** Every finding of the report describes the first approval reported with its key, with the assessment
      made of it. */
  lemma FirstReportKept(chains: seq<string>, fetch: Source, intel: ThreatIntel, seen: Option<set<string>>, j: nat)
    returns (i: nat, s: Assessment)
    requires WorkflowRun(chains, fetch, intel, seen).outcome.Delivered?
    requires j < |WorkflowRun(chains, fetch, intel, seen).outcome.findings|
    ensures var f := WorkflowRun(chains, fetch, intel, seen).outcome.findings[j];
            var gathered := Gathered(chains, fetch, |chains|);
            && FirstOfItsKey(gathered, i) && Describes(f, gathered[i]) && Assesses(f, s)
            && exists m :: 0 <= m < |Deduped(gathered)| && Deduped(gathered)[m] == gathered[i]
                           && intel(Deduped(gathered)).value[m] == s
  {
    var gathered := Gathered(chains, fetch, |chains|);
    var resolved := Assessed(Deduped(gathered), intel).value;
    FlaggedKeeps(SortByRisk(resolved), seen);
    var m := SortedPosition(resolved, j);
    s := intel(Deduped(gathered)).value[m];
    i := DedupedPosition(gathered, m);
  }

  /** Sorting the delivered report again, as the backend does before it serves it, changes nothing. */
  lemma BackendSortIsIdentity(chains: seq<string>, fetch: Source, intel: ThreatIntel, seen: Option<set<string>>)
    requires WorkflowRun(chains, fetch, intel, seen).outcome.Delivered?
    ensures var report := WorkflowRun(chains, fetch, intel, seen).outcome.findings; SortByRisk(report) == report
  {
    WorkflowConservation(chains, fetch, intel, seen);
    SortedIsFixed(Rank, WorkflowRun(chains, fetch, intel, seen).outcome.findings);
  }
}
