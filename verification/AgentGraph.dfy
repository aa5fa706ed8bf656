/** The same decision loop as a graph of nodes over a checkpointed state (`langgraph_agent.py`). */
module AgentGraph {
  import opened Common
  import opened Findings
  import opened AgentModels
  import opened AgentTail
  import opened AgentLoop

  // ---------------------------------------------------------------- the checkpointed state

  datatype ApprovalDict = ApprovalDict(
    chainId: string, tokenAddress: string, tokenSymbol: string, spenderAddress: string, approvedAmount: string,
    spenderName: Option<string>, raw: Raw)

  datatype StepDict = StepDict(seqNo: int, kind: string, detail: string, reason: string, newHits: int)

  datatype Next =
    | Undecided
    | NextScan(chainId: string, reason: string)
    | NextAsk(question: string, reason: string)
    | NextFinish(reason: string)
    | NextRaise(message: string)

  datatype GraphState = GraphState(
    goal: string, clarification: Option<string>, asked: bool,
    approvals: seq<ApprovalDict>, collected: seq<string>, steps: seq<StepDict>, next: Next)

  function ApprovalToDict(a: RawApproval): ApprovalDict
  {
    ApprovalDict(a.chainId, a.tokenAddress, a.tokenSymbol, a.spenderAddress, a.approvedAmount, a.spenderName, a.raw)
  }

  function ApprovalFromDict(d: ApprovalDict): RawApproval
  {
    RawApproval(d.chainId, d.tokenAddress, d.tokenSymbol, d.spenderAddress, d.approvedAmount, None, None,
                d.spenderName, d.raw)
  }

  function KindName(kind: StepKind): string
  {
    match kind
    case Scan => "scan"
    case Finish => "finish"
    case Revoke => "revoke"
    case Report => "report"
    case Degraded => "degraded"
  }

  function KindOf(name: string): Option<StepKind>
  {
    if name == "scan" then Some(StepKind.Scan)
    else if name == "finish" then Some(StepKind.Finish)
    else if name == "revoke" then Some(StepKind.Revoke)
    else if name == "report" then Some(StepKind.Report)
    else if name == "degraded" then Some(StepKind.Degraded)
    else None
  }

  function StepToDict(s: AgentStep): StepDict { StepDict(s.seqNo, KindName(s.kind), s.detail, s.reason, s.newHits) }

  /** An unknown kind raises. */
  function StepFromDict(d: StepDict): Option<AgentStep>
  {
    match KindOf(d.kind)
    case Some(kind) => Some(AgentStep(d.seqNo, kind, d.detail, d.reason, d.newHits))
    case None => None
  }

  /** What a checkpoint keeps of an approval. */
  function Strip(a: RawApproval): RawApproval { a.(approvedAt := None, approvalTxHash := None) }

  function StripAll(approvals: seq<RawApproval>): (stripped: seq<RawApproval>)
    ensures |stripped| == |approvals|
  {
    seq(|approvals|, i requires 0 <= i < |approvals| => Strip(approvals[i]))
  }

  /** A step survives the checkpoint whole; an approval loses exactly its date and its transaction. */
  lemma CheckpointRoundTrip(s: AgentStep, a: RawApproval, d: ApprovalDict)
    ensures StepFromDict(StepToDict(s)) == Some(s)
    ensures ApprovalFromDict(ApprovalToDict(a)) == Strip(a)
    ensures ApprovalFromDict(ApprovalToDict(a)) == a <==> a.approvedAt == None && a.approvalTxHash == None
    ensures ApprovalToDict(ApprovalFromDict(d)) == d
    ensures ApprovalFromDict(ApprovalToDict(a)).Key() == a.Key()
  {
  }

  function ApprovalsToDicts(approvals: seq<RawApproval>): (dicts: seq<ApprovalDict>)
    ensures |dicts| == |approvals|
  {
    seq(|approvals|, i requires 0 <= i < |approvals| => ApprovalToDict(approvals[i]))
  }

  function ApprovalsFromDicts(dicts: seq<ApprovalDict>): (approvals: seq<RawApproval>)
    ensures |approvals| == |dicts|
  {
    seq(|dicts|, i requires 0 <= i < |dicts| => ApprovalFromDict(dicts[i]))
  }

  function StepsToDicts(steps: seq<AgentStep>): (dicts: seq<StepDict>)
    ensures |dicts| == |steps|
  {
    seq(|steps|, i requires 0 <= i < |steps| => StepToDict(steps[i]))
  }

  predicate Readable(dicts: seq<StepDict>)
  {
    forall i :: 0 <= i < |dicts| ==> StepFromDict(dicts[i]).Some?
  }

  function StepsFromDicts(dicts: seq<StepDict>): (steps: seq<AgentStep>)
    requires Readable(dicts)
    ensures |steps| == |dicts|
  {
    seq(|dicts|, i requires 0 <= i < |dicts| => StepFromDict(dicts[i]).value)
  }

  function ScansDone(dicts: seq<StepDict>): nat
  {
    if dicts == [] then 0
    else ScansDone(dicts[..|dicts| - 1]) + if dicts[|dicts| - 1].kind == KindName(StepKind.Scan) then 1 else 0
  }

  // ---------------------------------------------------------------- the nodes

  function GoalWith(goal: string, clarification: Option<string>): string
  {
    if clarification.Some? && clarification.value != ""
       then goal + " (user clarification: \"" + clarification.value + "\")" else goal
  }

  function GraphAskGuard(action: Action, s: GraphState, hasClarifier: bool): Action
  {
    if action.AskAction? && (!hasClarifier || s.asked || s.clarification.Some?) then FinishAction(REPEATED_ASK)
       else action
  }

  function ActionToDict(action: Action): Next
  {
    match action
    case ScanAction(chain, reason) => NextScan(chain, reason)
    case AskAction(question, reason) => NextAsk(question, reason)
    case FinishAction(reason) => NextFinish(reason)
    case RaisedAction(message) => NextRaise(message)
  }

  /** The decision of visit number `k`. */
  function Decide(w: World, cfg: Config, s: GraphState, k: nat): Next
    requires Readable(s.steps)
  {
    if ScansDone(s.steps) >= cfg.maxSteps then NextFinish(BudgetReason(cfg.maxSteps))
    else if w.overBudget(k) then NextFinish(CostReason(cfg.capText))
    else
      var action :=
            w.policy(k, GoalWith(s.goal, s.clarification), StepsFromDicts(s.steps), ApprovalsFromDicts(s.approvals));
      ActionToDict(GraphAskGuard(action, s, cfg.hasClarifier))
  }

  function DoScan(s: GraphState, fetched: Result<seq<RawApproval>, string>): GraphState
    requires s.next.NextScan?
  {
    var chain, reason := s.next.chainId, s.next.reason;
    match fetched
    case Err(error) => s.(steps := s.steps + [StepToDict(DegradedStep(|s.steps| + 1, chain, error))])
    case Ok(found) =>
      var unseen := Unseen(found, set key | key in s.collected);
      s.(approvals := s.approvals + ApprovalsToDicts(unseen),
         collected := s.collected + RawKeys(unseen),
         steps := s.steps + [StepToDict(AgentStep(|s.steps| + 1, StepKind.Scan, chain, reason, |unseen|))])
  }

  function DoAsk(s: GraphState, answer: string): GraphState
  {
    s.(clarification := Some(answer), asked := true)
  }

  function Finalize(s: GraphState): GraphState
    requires s.next.NextFinish?
  {
    s.(steps := s.steps + [StepToDict(FinishStep(|s.steps| + 1, s.next.reason))])
  }

  // ---------------------------------------------------------------- the graph

  /** `Failed` is an invocation that an exception of the policy ended; the checkpoint stays as it was. */
  datatype Status = Running | Interrupted | Ended | Failed(message: string)

  /** A checkpoint, the visits made to the decision node and the questions asked so far. */
  datatype Machine = Machine(state: GraphState, status: Status, visits: nat, asks: nat)

  function GraphStart(cfg: Config): Machine
  {
    Machine(GraphState(cfg.goal, cfg.clarification, cfg.clarification.Some?, [], [], [], Undecided), Running, 0, 0)
  }

  /** One visit to `decide` and the node it routes to. */
  function GraphTurn(w: World, cfg: Config, m: Machine): Machine
    requires Readable(m.state.steps)
  {
    if m.status != Running then m
    else
      var s := m.state.(next := Decide(w, cfg, m.state, m.visits));
      match s.next
      case NextScan(chain, _) => Machine(DoScan(s, w.fetch(m.visits, chain)), Running, m.visits + 1, m.asks)
      case NextFinish(_) => Machine(Finalize(s), Ended, m.visits + 1, m.asks)
      case NextRaise(message) => Machine(m.state, Status.Failed(message), m.visits + 1, m.asks)
      case _ => Machine(s, Interrupted, m.visits + 1, m.asks + 1)
  }

  /** The user's answer flows into the interrupted node. */
  function GraphResume(m: Machine, answer: string): Machine
  {
    if m.status == Interrupted then m.(state := DoAsk(m.state, answer), status := Running) else m
  }

  datatype Command = Go | Resume(answer: string)

  function Obeyed(w: World, cfg: Config, m: Machine, c: Command): Machine
    requires Readable(m.state.steps)
  {
    match c
    case Go => GraphTurn(w, cfg, m)
    case Resume(answer) => GraphResume(m, answer)
  }

  lemma ReadableSnoc(dicts: seq<StepDict>, step: AgentStep)
    requires Readable(dicts)
    ensures Readable(dicts + [StepToDict(step)])
  {
    CheckpointRoundTrip(step, RawApproval("", "", "", "", "", None, None, None, map[]),
                        ApprovalDict("", "", "", "", "", None, map[]));
  }

  lemma TurnReadable(w: World, cfg: Config, m: Machine)
    requires Readable(m.state.steps)
    ensures Readable(GraphTurn(w, cfg, m).state.steps)
  {
    var s := m.state.(next := Decide(w, cfg, m.state, m.visits));
    match s.next
    case NextScan(chain, reason) =>
      match w.fetch(m.visits, chain) {
        case Err(error) => ReadableSnoc(s.steps, DegradedStep(|s.steps| + 1, chain, error));
        case Ok(found) =>
          var unseen := Unseen(found, set key | key in s.collected);
          ReadableSnoc(s.steps, AgentStep(|s.steps| + 1, StepKind.Scan, chain, reason, |unseen|));
      }
    case NextFinish(reason) => ReadableSnoc(s.steps, FinishStep(|s.steps| + 1, reason));
    case _ =>
  }

  /** The machine after any turns and answers. */
  function Machines(w: World, cfg: Config, commands: seq<Command>): (m: Machine)
    ensures Readable(m.state.steps)
  {
    if commands == [] then GraphStart(cfg)
    else
      var before := Machines(w, cfg, commands[..|commands| - 1]);
      TurnReadable(w, cfg, before);
      Obeyed(w, cfg, before, commands[|commands| - 1])
  }

  /** One invocation without an answer: `n` turns from the start. */
  function GraphAfter(w: World, cfg: Config, n: nat): (m: Machine)
    ensures Readable(m.state.steps)
  {
    if n == 0 then GraphStart(cfg)
    else
      var before := GraphAfter(w, cfg, n - 1);
      TurnReadable(w, cfg, before);
      GraphTurn(w, cfg, before)
  }

  // ---------------------------------------------------------------- how long it runs

  function CountKind(dicts: seq<StepDict>, kind: StepKind): nat
  {
    if dicts == [] then 0
    else CountKind(dicts[..|dicts| - 1], kind) + if dicts[|dicts| - 1].kind == KindName(kind) then 1 else 0
  }

  lemma {:induction false} ScansAreCounted(dicts: seq<StepDict>)
    ensures ScansDone(dicts) == CountKind(dicts, StepKind.Scan)
  {
    if dicts != [] {
      ScansAreCounted(dicts[..|dicts| - 1]);
    }
  }

  ghost predicate DictsNumbered(dicts: seq<StepDict>)
  {
    forall i :: 0 <= i < |dicts| ==> dicts[i].seqNo == i + 1
  }

  /** Every visit either scanned, failed to scan, asked or finished. */
  ghost predicate MachineInv(cfg: Config, m: Machine)
  {
    var steps := m.state.steps;
    && Readable(steps) && DictsNumbered(steps)
    && CountKind(steps, StepKind.Scan) <= cfg.maxSteps
    && |steps|
         == CountKind(steps, StepKind.Scan) + CountKind(steps, StepKind.Degraded) + (if m.status == Ended then 1 else 0)
    && m.visits == |steps| + m.asks + (if m.status.Failed? then 1 else 0)
    && m.asks <= 1
    && (m.asks == 1 && m.status != Interrupted ==> m.state.asked)
    && (m.status == Interrupted ==> m.asks == 1)
    && (m.state.clarification.Some? ==> m.state.asked)
  }

  /** What each decision presupposes. */
  lemma DecideNeeds(w: World, cfg: Config, s: GraphState, k: nat)
    requires Readable(s.steps)
    ensures Decide(w, cfg, s, k).NextScan? ==> CountKind(s.steps, StepKind.Scan) < cfg.maxSteps
    ensures Decide(w, cfg, s, k).NextAsk? ==> !s.asked && s.clarification.None?
    ensures Decide(w, cfg, s, k) != Undecided
  {
    ScansAreCounted(s.steps);
  }

  lemma TurnKeepsInv(w: World, cfg: Config, m: Machine)
    requires MachineInv(cfg, m)
    ensures MachineInv(cfg, GraphTurn(w, cfg, m))
  {
    if m.status == Running {
      DecideNeeds(w, cfg, m.state, m.visits);
      var next := Decide(w, cfg, m.state, m.visits);
      match next {
        case NextScan(chain, reason) => ScanTurnKeepsInv(cfg, m, next, w.fetch(m.visits, chain));
        case NextFinish(reason) => FinishTurnKeepsInv(cfg, m, next);
        case NextRaise(message) => FailTurnKeepsInv(cfg, m, message);
        case _ => AskTurnKeepsInv(cfg, m, next);
      }
    }
  }

  lemma FinishTurnKeepsInv(cfg: Config, m: Machine, next: Next)
    requires MachineInv(cfg, m) && m.status == Running && next.NextFinish?
    ensures MachineInv(cfg, Machine(Finalize(m.state.(next := next)), Ended, m.visits + 1, m.asks))
  {
    var step := FinishStep(|m.state.steps| + 1, next.reason);
    ReadableSnoc(m.state.steps, step);
  }

  lemma AskTurnKeepsInv(cfg: Config, m: Machine, next: Next)
    requires MachineInv(cfg, m) && m.status == Running && !m.state.asked && m.state.clarification.None?
    ensures MachineInv(cfg, Machine(m.state.(next := next), Interrupted, m.visits + 1, m.asks + 1))
  {
  }

  lemma FailTurnKeepsInv(cfg: Config, m: Machine, message: string)
    requires MachineInv(cfg, m) && m.status == Running
    ensures MachineInv(cfg, Machine(m.state, Status.Failed(message), m.visits + 1, m.asks))
  {
  }

  lemma ScanTurnKeepsInv(cfg: Config, m: Machine, next: Next, fetched: Result<seq<RawApproval>, string>)
    requires MachineInv(cfg, m) && m.status == Running && next.NextScan?
    requires CountKind(m.state.steps, StepKind.Scan) < cfg.maxSteps
    ensures MachineInv(cfg, Machine(DoScan(m.state.(next := next), fetched), Running, m.visits + 1, m.asks))
  {
    var s := DoScan(m.state.(next := next), fetched);
    var step := match fetched
      case Err(error) => DegradedStep(|m.state.steps| + 1, next.chainId, error)
      case Ok(found) => AgentStep(|m.state.steps| + 1, StepKind.Scan, next.chainId, next.reason,
                                  |Unseen(found, set key | key in m.state.collected)|);
    assert s.steps == m.state.steps + [StepToDict(step)];
    ReadableSnoc(m.state.steps, step);
  }

  lemma {:induction false} MachineReachable(w: World, cfg: Config, commands: seq<Command>)
    ensures MachineInv(cfg, Machines(w, cfg, commands))
  {
    if commands != [] {
      MachineReachable(w, cfg, commands[..|commands| - 1]);
      TurnKeepsInv(w, cfg, Machines(w, cfg, commands[..|commands| - 1]));
    }
  }

  /** However a run is resumed, it asks at most once, and with `d` failed fetches it visits the
      decision node at most `maxSteps + d + 2` times; its steps are numbered without a gap. */
  lemma VisitsBounded(w: World, cfg: Config, commands: seq<Command>)
    ensures var m := Machines(w, cfg, commands);
            && m.asks <= 1
            && m.visits <= cfg.maxSteps + CountKind(m.state.steps, StepKind.Degraded) + 2
            && m.visits == |m.state.steps| + m.asks + (if m.status.Failed? then 1 else 0)
            && DictsNumbered(m.state.steps)
  {
    MachineReachable(w, cfg, commands);
  }

  /** One invocation so far: as many visits as turns while it runs, and no question answered yet. */
  ghost predicate FirstInvocation(cfg: Config, m: Machine, n: nat)
  {
    && MachineInv(cfg, m) && m.visits <= n
    && (m.status == Running ==> m.visits == n && m.asks == 0)
    && (m.asks == 0 || m.status == Interrupted)
  }

  lemma TurnKeepsFirst(w: World, cfg: Config, m: Machine, n: nat)
    requires FirstInvocation(cfg, m, n)
    ensures FirstInvocation(cfg, GraphTurn(w, cfg, m), n + 1)
  {
    TurnKeepsInv(w, cfg, m);
  }

  lemma {:induction false} AfterReachable(w: World, cfg: Config, n: nat)
    ensures FirstInvocation(cfg, GraphAfter(w, cfg, n), n)
  {
    if n > 0 {
      AfterReachable(w, cfg, n - 1);
      TurnKeepsFirst(w, cfg, GraphAfter(w, cfg, n - 1), n - 1);
    }
  }

  /** An invocation in which no more than `d` fetches fail is over after `maxSteps + d + 1` turns. */
  lemma GraphStops(w: World, cfg: Config, d: nat, n: nat)
    requires n > cfg.maxSteps + d && CountKind(GraphAfter(w, cfg, n).state.steps, StepKind.Degraded) <= d
    ensures GraphAfter(w, cfg, n).status != Running
  {
    AfterReachable(w, cfg, n);
  }

  // ---------------------------------------------------------------- what it collects

  /** The collected keys are the keys of the approvals, in order and without repetition. */
  ghost predicate KeysInv(s: GraphState)
  {
    s.collected == RawKeys(ApprovalsFromDicts(s.approvals)) && Distinct(s.collected)
  }

  lemma ScanKeepsKeys(s: GraphState, found: seq<RawApproval>)
    requires s.next.NextScan? && KeysInv(s) && Distinct(RawKeys(found))
    ensures KeysInv(DoScan(s, Ok(found)))
  {
    var approvals := ApprovalsFromDicts(s.approvals);
    var unseen := Unseen(found, KeySet(approvals));
    KeysAreKeySet(approvals);
    NewKeysDistinct(approvals, found);
    assert RawKeys(approvals + unseen) == RawKeys(approvals) + RawKeys(unseen);
  }

  lemma TurnKeepsKeys(w: World, cfg: Config, m: Machine)
    requires DistinctFetches(w) && Readable(m.state.steps) && KeysInv(m.state)
    ensures KeysInv(GraphTurn(w, cfg, m).state)
  {
    var s := m.state.(next := Decide(w, cfg, m.state, m.visits));
    if s.next.NextScan? && w.fetch(m.visits, s.next.chainId).Ok? {
      ScanKeepsKeys(s, w.fetch(m.visits, s.next.chainId).value);
    }
  }

  /** If no single fetch repeats a key, the graph collects distinct keys, over any number of answers. */
  lemma {:induction false} GraphCollectsDistinct(w: World, cfg: Config, commands: seq<Command>)
    requires DistinctFetches(w)
    ensures KeysInv(Machines(w, cfg, commands).state)
  {
    if commands != [] {
      GraphCollectsDistinct(w, cfg, commands[..|commands| - 1]);
      TurnKeepsKeys(w, cfg, Machines(w, cfg, commands[..|commands| - 1]));
    }
  }

  // ---------------------------------------------------------------- delivery

  /** The causes as the graph names them. */
  function DegradedCauses(dicts: seq<StepDict>): seq<string>
  {
    if dicts == [] then []
    else DegradedCauses(dicts[..|dicts| - 1])
         + var last := dicts[|dicts| - 1];
           if last.kind == KindName(StepKind.Degraded) then [last.detail + ": " + last.reason] else []
  }

  function GraphDelivered(s: GraphState, intel: ThreatIntel, revoker: Option<Revoker>, seen: Option<set<string>>): Run
    requires Readable(s.steps)
  {
    var steps := StepsFromDicts(s.steps);
    if HasKind(steps, StepKind.Degraded) && !HasKind(steps, StepKind.Scan) then
      Run(Raised(NothingScanned(DegradedCauses(s.steps))), steps, [])
    else Tail(ApprovalsFromDicts(s.approvals), steps, intel, revoker, seen)
  }

  /** `_deliver`: unlike the loop it does not look at the budget. */
  method GraphDeliver(s: GraphState, intel: ThreatIntel, revoker: Option<Revoker>, seen: Option<set<string>>)
    returns (run: Run)
    requires Readable(s.steps)
    ensures run == GraphDelivered(s, intel, revoker, seen)
  {
    var steps := StepsFromDicts(s.steps);
    if HasKind(steps, StepKind.Degraded) && !HasKind(steps, StepKind.Scan) {
      return Run(Raised(NothingScanned(DegradedCauses(s.steps))), steps, []);
    }
    run := Deliver(ApprovalsFromDicts(s.approvals), steps, intel, revoker, seen);
  }

  /** How an invocation that has stopped ends. */
  function GraphRun(m: Machine, intel: ThreatIntel, revoker: Option<Revoker>, seen: Option<set<string>>): Run
    requires Readable(m.state.steps) && m.status != Running
  {
    if m.status.Failed? then Run(Raised(m.status.message), StepsFromDicts(m.state.steps), [])
    else if m.status == Interrupted then
      Run(Outcome.Paused(if m.state.next.NextAsk? then m.state.next.question else ""), StepsFromDicts(m.state.steps),
          [])
    else GraphDelivered(m.state, intel, revoker, seen)
  }
}
