/** The journal from end to end: what an orchestrator reports, what arrives in any order, and the
    clearing of the journal when the user answers a question. */
module JournalRuns {
  import opened Common
  import opened Findings
  import opened Jobs
  import opened JobMemory
  import opened AgentModels
  import opened AgentTail
  import opened AgentLoop
  import opened AgentGraph
  import opened AgentSafety

  /** The steps of the store after one step of a job arrived. */
  function StepArrived(steps: StepMap, id: Uuid, step: AgentStep): StepMap
  {
    steps[id := JournalWith(Journal(steps, id), step)]
  }

  /** The steps of the store after some of one job arrived, one by one. */
  function Arrived(steps: StepMap, id: Uuid, arrivals: seq<AgentStep>): StepMap
  {
    if arrivals == [] then steps
    else StepArrived(Arrived(steps, id, arrivals[..|arrivals| - 1]), id, arrivals[|arrivals| - 1])
  }

  lemma ArrivedNext(steps: StepMap, id: Uuid, arrivals: seq<AgentStep>, step: AgentStep)
    ensures Arrived(steps, id, arrivals + [step]) == StepArrived(Arrived(steps, id, arrivals), id, step)
  {
    assert (arrivals + [step])[..|arrivals|] == arrivals;
  }

  lemma {:induction false} ArrivedIsJournal(steps: StepMap, id: Uuid, arrivals: seq<AgentStep>)
    requires id !in steps
    ensures Journal(Arrived(steps, id, arrivals), id) == JournalOf(arrivals)
  {
    if arrivals != [] {
      ArrivedIsJournal(steps, id, arrivals[..|arrivals| - 1]);
    }
  }

  /** What the store receives of one job: the early arrivals, the clearing if an answer was stored, and
      the late arrivals. */
  function Received(steps: StepMap, id: Uuid, early: seq<AgentStep>, answered: bool, late: seq<AgentStep>): StepMap
  {
    var paused := Arrived(steps, id, early);
    Arrived(if answered then paused - {id} else paused, id, late)
  }

  ghost predicate SameElements(arrivals: seq<AgentStep>, steps: seq<AgentStep>)
  {
    forall s :: s in arrivals <==> s in steps
  }

  lemma ArrivedTwiceNext(steps: StepMap, id: Uuid, early: seq<AgentStep>, late: seq<AgentStep>, step: AgentStep)
    requires Arrived(Arrived(steps, id, early), id, late) == Arrived(steps, id, early + late)
    ensures Arrived(Arrived(steps, id, early), id, late + [step]) == Arrived(steps, id, early + (late + [step]))
  {
    ArrivedNext(Arrived(steps, id, early), id, late, step);
    ArrivedNext(steps, id, early + late, step);
    ConcatAssociative(early, late, [step]);
  }

  lemma {:induction false} ArrivedTwice(steps: StepMap, id: Uuid, early: seq<AgentStep>, late: seq<AgentStep>)
    ensures Arrived(Arrived(steps, id, early), id, late) == Arrived(steps, id, early + late)
  {
    if late == [] {
      assert early + [] == early;
    } else {
      var init, last := late[..|late| - 1], late[|late| - 1];
      assert late == init + [last];
      ArrivedTwice(steps, id, early, init);
      ArrivedTwiceNext(steps, id, early, init, last);
    }
  }

  /** What remains is what arrived since the last clearing. */
  lemma ReceivedIsJournal(steps: StepMap, id: Uuid, early: seq<AgentStep>, answered: bool, late: seq<AgentStep>,
                          reported: seq<AgentStep>)
    requires id !in steps && Ascending(reported)
    requires SameElements(if answered then late else early + late, reported)
    ensures Journal(Received(steps, id, early, answered, late), id) == reported
  {
    if answered {
      ArrivedIsJournal(Arrived(steps, id, early) - {id}, id, late);
      JournalRebuildsRun(reported, late);
    } else {
      ArrivedTwice(steps, id, early, late);
      ArrivedIsJournal(steps, id, early + late);
      JournalRebuildsRun(reported, early + late);
    }
  }

  // ---------------------------------------------------------------- the loop

  /** The loop starts over after an answer, so the journal ends as what its last run reported, whatever
      had arrived of the paused one. */
  lemma JournalEndToEnd(w: World, cfg: Config, intel: ThreatIntel, revoker: Option<Revoker>, seen: Option<set<string>>,
                        steps: StepMap, id: Uuid, early: seq<AgentStep>, answered: bool, late: seq<AgentStep>)
    requires id !in steps
    requires SameElements(if answered then late else early + late, LoopRun(w, cfg, intel, revoker, seen).journal)
    ensures Journal(Received(steps, id, early, answered, late), id) == LoopRun(w, cfg, intel, revoker, seen).journal
  {
    var reported := LoopRun(w, cfg, intel, revoker, seen).journal;
    LoopJournalNumbered(w, cfg, intel, revoker, seen);
    assert reported[0..] == reported;
    ReceivedIsJournal(steps, id, early, answered, late, reported);
  }

  // ---------------------------------------------------------------- the graph

  /** How many steps the graph held when a question was answered; `None` if none was. */
  function HeldAtAnswer(w: World, cfg: Config, commands: seq<Command>): Option<nat>
  {
    if commands == [] then None
    else
      var init := commands[..|commands| - 1];
      var m := Machines(w, cfg, init);
      if commands[|commands| - 1].Resume? && m.status == Interrupted then Some(|m.state.steps|)
      else HeldAtAnswer(w, cfg, init)
  }

  ghost predicate Answers(w: World, cfg: Config, commands: seq<Command>, i: nat)
  {
    i < |commands| && commands[i].Resume? && Machines(w, cfg, commands[..i]).status == Interrupted
  }

  lemma ObeyedKeepsSteps(w: World, cfg: Config, m: Machine, c: Command)
    requires Readable(m.state.steps)
    ensures m.state.steps <= Obeyed(w, cfg, m, c).state.steps
  {
  }

  /** A question was asked and answered. */
  ghost predicate Settled(m: Machine)
  {
    m.asks == 1 && m.status != Interrupted
  }

  /** An answer settles an interrupted machine, and a settled one stays settled. */
  lemma CommandSettles(w: World, cfg: Config, m: Machine, c: Command)
    requires MachineInv(cfg, m) && (Settled(m) || (c.Resume? && m.status == Interrupted))
    ensures Settled(Obeyed(w, cfg, m, c))
  {
    DecideNeeds(w, cfg, m.state, m.visits);
  }

  lemma NextSettles(w: World, cfg: Config, commands: seq<Command>, c: Command)
    requires var m := Machines(w, cfg, commands); Settled(m) || (c.Resume? && m.status == Interrupted)
    ensures Settled(Machines(w, cfg, commands + [c]))
  {
    MachineReachable(w, cfg, commands);
    CommandSettles(w, cfg, Machines(w, cfg, commands), c);
    NextMachine(w, cfg, commands, c);
  }

  lemma AnswersEarlier(w: World, cfg: Config, commands: seq<Command>, c: Command, i: nat)
    requires Answers(w, cfg, commands + [c], i)
    ensures i < |commands| ==> Answers(w, cfg, commands, i)
    ensures i >= |commands| ==> c.Resume? && Machines(w, cfg, commands).status == Interrupted
  {
    assert (commands + [c])[..i] == commands[..i];
    assert commands[..|commands|] == commands;
  }

  lemma {:induction false} AnsweredForGood(w: World, cfg: Config, commands: seq<Command>, i: nat)
    requires Answers(w, cfg, commands, i)
    ensures Settled(Machines(w, cfg, commands))
  {
    var init, last := commands[..|commands| - 1], commands[|commands| - 1];
    assert commands == init + [last];
    AnswersEarlier(w, cfg, init, last, i);
    if i < |init| {
      AnsweredForGood(w, cfg, init, i);
    }
    NextSettles(w, cfg, init, last);
  }

  /** At most one answer ever resumes the graph, so the journal is cleared at most once. */
  lemma AnsweredOnce(w: World, cfg: Config, commands: seq<Command>, i: nat, j: nat)
    requires Answers(w, cfg, commands, i) && Answers(w, cfg, commands, j)
    ensures i == j
  {
    var first, last := if i < j then i else j, if i < j then j else i;
    if first < last {
      assert commands[..last][..first] == commands[..first];
      AnsweredForGood(w, cfg, commands[..last], first);
    }
  }

  /** Steps are only added, so those held at the answer are the first of the run. */
  lemma {:induction false} HeldStays(w: World, cfg: Config, commands: seq<Command>)
    ensures var held := HeldAtAnswer(w, cfg, commands);
                  held.Some? ==> held.value <= |Machines(w, cfg, commands).state.steps|
    ensures HeldAtAnswer(w, cfg, commands).Some? <==> exists i :: Answers(w, cfg, commands, i)
  {
    if commands != [] {
      var init := commands[..|commands| - 1];
      HeldStays(w, cfg, init);
      ObeyedKeepsSteps(w, cfg, Machines(w, cfg, init), commands[|init|]);
      assert forall i: nat :: i < |init| ==> commands[..i] == init[..i];
      assert forall i: nat :: i < |init| ==> (Answers(w, cfg, commands, i) <==> Answers(w, cfg, init, i));
      assert Answers(w, cfg, commands, |init|)
             <==> commands[|init|].Resume? && Machines(w, cfg, init).status == Interrupted;
    }
  }

  lemma GraphJournalHolds(w: World, cfg: Config, commands: seq<Command>, intel: ThreatIntel, revoker: Option<Revoker>,
                          seen: Option<set<string>>)
    requires Machines(w, cfg, commands).status != Status.Running
    ensures var journal := GraphRun(Machines(w, cfg, commands), intel, revoker, seen).journal;
            Numbered(journal) && |Machines(w, cfg, commands).state.steps| <= |journal|
  {
    var m := Machines(w, cfg, commands);
    GraphJournalNumbered(w, cfg, commands, intel, revoker, seen);
    MachineReachable(w, cfg, commands);
    DictsNumberedSteps(m.state.steps);
    TailNumbered(ApprovalsFromDicts(m.state.approvals), StepsFromDicts(m.state.steps), intel, revoker, seen);
  }

  /** Storing an answer clears the journal, but the graph resumes from its checkpoint and reports only
      what it still does. The journal ends as the run's steps from the answer on. So it is the run if
      and only if no question was answered or no step had been taken before it. */
  lemma GraphJournalEndToEnd(w: World, cfg: Config, commands: seq<Command>, intel: ThreatIntel,
                             revoker: Option<Revoker>, seen: Option<set<string>>, steps: StepMap, id: Uuid,
                             early: seq<AgentStep>, late: seq<AgentStep>)
    requires Machines(w, cfg, commands).status != Status.Running && id !in steps
    requires var run := GraphRun(Machines(w, cfg, commands), intel, revoker, seen);
             var held := HeldAtAnswer(w, cfg, commands);
             match held
             case None => SameElements(early + late, run.journal)
             case Some(k) => k <= |run.journal| ==> SameElements(late, run.journal[k..])
    ensures var run := GraphRun(Machines(w, cfg, commands), intel, revoker, seen);
            var held := HeldAtAnswer(w, cfg, commands);
            var k := if held.Some? then held.value else 0;
            var journal := Journal(Received(steps, id, early, held.Some?, late), id);
            && k <= |run.journal| && journal == run.journal[k..]
            && (journal == run.journal <==> held.None? || held.value == 0)
  {
    var reported := GraphRun(Machines(w, cfg, commands), intel, revoker, seen).journal;
    var held := HeldAtAnswer(w, cfg, commands);
    var k := if held.Some? then held.value else 0;
    HeldStays(w, cfg, commands);
    GraphJournalHolds(w, cfg, commands, intel, revoker, seen);
    assert reported[0..] == reported;
    ReceivedIsJournal(steps, id, early, held.Some?, late, reported[k..]);
  }

  // ---------------------------------------------------------------- a run that loses a step

  /** Scans a chain, asks, and finishes on the answer. */
  function AskingWorld(): World
  {
    World((k: nat, goal: string, steps: seq<AgentStep>, approvals: seq<RawApproval>) =>
            if k == 0 then ScanAction("1", "scan") else if k == 1 then AskAction("which chains?", "ask")
               else FinishAction("done"),
          (k: nat, chain: string) => Ok([]),
          (k: nat) => false)
  }

  const ASKING := Config("scan", 5, true, None, "1.00")

  const SCANNED := AgentStep(1, StepKind.Scan, "1", "scan", 0)
  const DONE := AgentStep(2, StepKind.Finish, "", "done", 0)

  lemma OneScanDone()
    ensures Readable([StepToDict(SCANNED)]) && ScansDone([StepToDict(SCANNED)]) == 1
  {
    ReadableSnoc([], SCANNED);
    assert [StepToDict(SCANNED)][..0] == [];
  }

  lemma NextMachine(w: World, cfg: Config, commands: seq<Command>, c: Command)
    ensures Machines(w, cfg, commands + [c]) == Obeyed(w, cfg, Machines(w, cfg, commands), c)
  {
    assert (commands + [c])[..|commands|] == commands;
  }

  lemma AskingAsks(m: Machine)
    requires m.status == Status.Running && m.visits == 1 && m.state.steps == [StepToDict(SCANNED)]
    requires !m.state.asked && m.state.clarification.None?
    ensures Readable(m.state.steps)
    ensures var after := GraphTurn(AskingWorld(), ASKING, m);
            after.status == Interrupted && after.visits == 2 && after.state.steps == m.state.steps
  {
    OneScanDone();
  }

  lemma AskingFinishes(m: Machine)
    requires m.status == Status.Running && m.visits == 2 && m.state.steps == [StepToDict(SCANNED)]
    ensures Readable(m.state.steps)
    ensures var after := GraphTurn(AskingWorld(), ASKING, m);
            after.status == Ended && after.state.steps == [StepToDict(SCANNED), StepToDict(DONE)]
  {
    OneScanDone();
  }

  lemma AskingRun(answer: string) returns (commands: seq<Command>)
    ensures var m := Machines(AskingWorld(), ASKING, commands);
            m.status == Ended && m.state.steps == [StepToDict(SCANNED), StepToDict(DONE)]
    ensures HeldAtAnswer(AskingWorld(), ASKING, commands) == Some(1)
  {
    var w := AskingWorld();
    NextMachine(w, ASKING, [], Go);
    var asked := [] + [Go] + [Go];
    NextMachine(w, ASKING, [] + [Go], Go);
    AskingAsks(Machines(w, ASKING, [] + [Go]));
    NextMachine(w, ASKING, asked, Resume(answer));
    var resumed := asked + [Resume(answer)];
    AskingFinishes(Machines(w, ASKING, resumed));
    NextMachine(w, ASKING, resumed, Go);
    commands := resumed + [Go];
    assert resumed[..|asked|] == asked && commands[..|resumed|] == resumed;
  }

  /** The scan was reported before the question; after the answer only the finish arrives, and the
      journal never shows the scan again. */
  lemma AnswerLosesStep(answer: string, intel: ThreatIntel, id: Uuid, early: seq<AgentStep>, late: seq<AgentStep>)
    returns (commands: seq<Command>)
    requires SameElements(late, [DONE])
    ensures Machines(AskingWorld(), ASKING, commands).status == Ended
    ensures GraphRun(Machines(AskingWorld(), ASKING, commands), intel, None, None).journal == [SCANNED, DONE]
    ensures HeldAtAnswer(AskingWorld(), ASKING, commands) == Some(1)
    ensures Journal(Received(map[], id, early, true, late), id) == [DONE]
  {
    commands := AskingRun(answer);
    var m := Machines(AskingWorld(), ASKING, commands);
    var run := GraphRun(m, intel, None, None);
    assert run.journal == StepsFromDicts(m.state.steps);
    assert run.journal[1..] == [DONE];
    GraphJournalEndToEnd(AskingWorld(), ASKING, commands, intel, None, None, map[], id, early, late);
  }
}
