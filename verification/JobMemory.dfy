/** What the job store remembers: the journal over any arrivals, and the keys of a recurring scan. */
module JobMemory {
  import opened Common
  import opened StableSort
  import opened Findings
  import opened AgentModels
  import opened Jobs

  // ---------------------------------------------------------------- the journal

  /** The journal after the steps arrived one by one, from an empty one. */
  function JournalOf(arrivals: seq<AgentStep>): seq<AgentStep>
  {
    if arrivals == [] then [] else JournalWith(JournalOf(arrivals[..|arrivals| - 1]), arrivals[|arrivals| - 1])
  }

  predicate Ascending(journal: seq<AgentStep>)
  {
    forall i, j :: 0 <= i < j < |journal| ==> journal[i].seqNo < journal[j].seqNo
  }

  /** Arrival `i` is the first with its number. */
  ghost predicate FirstArrival(arrivals: seq<AgentStep>, i: nat)
  {
    i < |arrivals| && forall k :: 0 <= k < i ==> arrivals[k].seqNo != arrivals[i].seqNo
  }

  lemma InsertElements(journal: seq<AgentStep>, step: AgentStep)
    ensures forall s :: s in InsertBy(SeqNo, journal, step) <==> s in journal || s == step
  {
    InsertByElements(SeqNo, journal, step);
    forall s ensures s in InsertBy(SeqNo, journal, step) <==> s in journal || s == step {
      assert s in InsertBy(SeqNo, journal, step) <==> s in multiset(InsertBy(SeqNo, journal, step));
      assert s in journal <==> s in multiset(journal);
    }
  }

  lemma {:induction false} InsertKeepsAscending(journal: seq<AgentStep>, step: AgentStep)
    requires Ascending(journal) && !Recorded(journal, step.seqNo)
    ensures Ascending(InsertBy(SeqNo, journal, step))
  {
    if journal != [] && SeqNo(journal[|journal| - 1]) > SeqNo(step) {
      var init, last := journal[..|journal| - 1], journal[|journal| - 1];
      assert forall i :: 0 <= i < |init| ==> init[i] == journal[i] && init[i].seqNo < last.seqNo;
      InsertKeepsAscending(init, step);
      InsertElements(init, step);
      var inner := InsertBy(SeqNo, init, step);
      forall i | 0 <= i < |inner| ensures inner[i].seqNo < last.seqNo {
        assert inner[i] in inner;
      }
    } else {
      assert forall i :: 0 <= i < |journal| ==>
               journal[i].seqNo != step.seqNo && journal[i].seqNo <= journal[|journal| - 1].seqNo;
    }
  }

  lemma JournalWithInserts(journal: seq<AgentStep>, step: AgentStep)
    requires Ascending(journal)
    ensures Ascending(JournalWith(journal, step))
    ensures forall s ::
              s in JournalWith(journal, step) <==> s in journal || (s == step && !Recorded(journal, step.seqNo))
  {
    if !Recorded(journal, step.seqNo) {
      SortedIsFixed(SeqNo, journal);
      assert (journal + [step])[..|journal|] == journal;
      InsertKeepsAscending(journal, step);
      InsertElements(journal, step);
    }
  }

  lemma RecordedByElement(journal: seq<AgentStep>, n: int)
    ensures Recorded(journal, n) <==> exists s :: s in journal && s.seqNo == n
  {
    if i :| 0 <= i < |journal| && journal[i].seqNo == n {
      assert journal[i] in journal;
    }
  }

  lemma {:induction false} FirstIndex(arrivals: seq<AgentStep>, j: nat) returns (i: nat)
    requires j < |arrivals|
    ensures i <= j && FirstArrival(arrivals, i) && arrivals[i].seqNo == arrivals[j].seqNo
  {
    if k :| 0 <= k < j && arrivals[k].seqNo == arrivals[j].seqNo {
      i := FirstIndex(arrivals, k);
    } else {
      i := j;
    }
  }

  ghost predicate ArrivedFirst(arrivals: seq<AgentStep>, s: AgentStep)
  {
    exists i: nat :: FirstArrival(arrivals, i) && arrivals[i] == s
  }

  /** The journal is strictly ascending and holds exactly the first arrival of every number. */
  lemma {:induction false} JournalIsFirstArrivals(arrivals: seq<AgentStep>)
    ensures Ascending(JournalOf(arrivals))
    ensures forall s :: s in JournalOf(arrivals) <==> ArrivedFirst(arrivals, s)
  {
    if arrivals != [] {
      var init, last := arrivals[..|arrivals| - 1], arrivals[|arrivals| - 1];
      assert arrivals == init + [last];
      JournalIsFirstArrivals(init);
      JournalWithInserts(JournalOf(init), last);
      forall s ensures s in JournalOf(arrivals) <==> ArrivedFirst(arrivals, s) {
        LastArrival(init, last, s);
      }
    }
  }

  lemma LastArrival(init: seq<AgentStep>, last: AgentStep, s: AgentStep)
    requires forall s :: s in JournalOf(init) <==> ArrivedFirst(init, s)
    ensures ArrivedFirst(init + [last], s)
            <==> ArrivedFirst(init, s) || (s == last && !Recorded(JournalOf(init), last.seqNo))
  {
    var all := init + [last];
    LastIsFirst(init, last);
    assert forall i: nat :: i < |init| ==> all[i] == init[i] && (FirstArrival(all, i) <==> FirstArrival(init, i));
    assert all[|init|] == last;
  }

  lemma LastIsFirst(init: seq<AgentStep>, last: AgentStep)
    requires forall s :: s in JournalOf(init) <==> ArrivedFirst(init, s)
    ensures FirstArrival(init + [last], |init|) <==> !Recorded(JournalOf(init), last.seqNo)
  {
    var all := init + [last];
    assert forall k :: 0 <= k < |init| ==> all[k] == init[k];
    RecordedByElement(JournalOf(init), last.seqNo);
    if j: nat :| j < |init| && init[j].seqNo == last.seqNo {
      var i := FirstIndex(init, j);
      assert ArrivedFirst(init, init[i]);
    }
  }

  lemma {:induction false} AscendingUnique(a: seq<AgentStep>, b: seq<AgentStep>)
    requires Ascending(a) && Ascending(b) && forall s :: s in a <==> s in b
    ensures a == b
  {
    if a != [] {
      assert a[0] in b;
    }
    if b != [] {
      assert b[0] in a;
    }
    if a != [] {
      var x, y := a[|a| - 1], b[|b| - 1];
      LastIsLargest(a, y);
      LastIsLargest(b, x);
      var a', b' := a[..|a| - 1], b[..|b| - 1];
      forall s ensures s in a' <==> s in b' {
        WithoutLast(a, s);
        WithoutLast(b, s);
      }
      AscendingUnique(a', b');
    }
  }

  lemma LastIsLargest(a: seq<AgentStep>, s: AgentStep)
    requires Ascending(a) && s in a
    ensures s.seqNo <= a[|a| - 1].seqNo
  {
  }

  lemma WithoutLast(a: seq<AgentStep>, s: AgentStep)
    requires Ascending(a) && a != []
    ensures s in a[..|a| - 1] <==> s in a && s != a[|a| - 1]
  {
    var init := a[..|a| - 1];
    assert a == init + [a[|a| - 1]];
    assert forall i :: 0 <= i < |init| ==> init[i] == a[i] && a[i].seqNo < a[|a| - 1].seqNo;
  }

  /** If every one of some ascending steps arrives at least once and nothing else does, in any order
      and with any repetition, the journal is these steps. */
  lemma JournalRebuildsRun(steps: seq<AgentStep>, arrivals: seq<AgentStep>)
    requires Ascending(steps)
    requires forall s :: s in arrivals <==> s in steps
    ensures JournalOf(arrivals) == steps
  {
    JournalIsFirstArrivals(arrivals);
    forall s ensures s in JournalOf(arrivals) <==> s in steps {
      if s in steps {
        var j: nat :| j < |arrivals| && arrivals[j] == s;
        var i := FirstIndex(arrivals, j);
        assert arrivals[i] in arrivals;
      }
    }
    AscendingUnique(JournalOf(arrivals), steps);
  }

  // ---------------------------------------------------------------- recurring memory

  /** Every key any run of the recurring scan delivered. */
  ghost function DeliveredKeys(jobs: JobMap, results: ResultMap, search: Uuid): set<string>
  {
    set id, key | id in jobs && jobs[id].recurringSearchId == Some(search) && key in KeysOf(ResultsOf(results, id)) ::
      key
  }

  lemma {:induction false} RunKeysElements(results: ResultMap, runs: seq<ScanJob>, key: string)
    ensures key in RunKeys(results, runs)
            <==> exists i :: 0 <= i < |runs| && key in KeysOf(ResultsOf(results, runs[i].id))
  {
    if runs != [] {
      RunKeysElements(results, runs[..|runs| - 1], key);
    }
  }

  lemma {:induction false} MatchingElements(jobs: JobMap, search: Uuid, listing: seq<Uuid>, job: ScanJob)
    ensures job in Matching(jobs, search, listing)
            <==> exists i ::
                   0 <= i < |listing| && listing[i] in jobs && jobs[listing[i]] == job
                   && job.recurringSearchId == Some(search)
  {
    if listing != [] {
      MatchingElements(jobs, search, listing[..|listing| - 1], job);
    }
  }

  lemma RunsElements(jobs: JobMap, search: Uuid, listing: seq<Uuid>, job: ScanJob)
    requires ListsKeys(jobs, listing)
    ensures job in RunsOf(jobs, search, listing)
            <==> exists id :: id in jobs && jobs[id] == job && job.recurringSearchId == Some(search)
  {
    var matching := Matching(jobs, search, listing);
    SortByIsStable(NewestFirst, matching);
    assert job in RunsOf(jobs, search, listing) <==> job in multiset(matching);
    MatchingElements(jobs, search, listing, job);
    if id :| id in jobs && jobs[id] == job && job.recurringSearchId == Some(search) {
      assert id in listing;
    }
  }

  ghost predicate StoreInv(jobs: JobMap)
  {
    forall id :: id in jobs ==> jobs[id].id == id
  }

  lemma RunKeysAreDelivered(jobs: JobMap, results: ResultMap, search: Uuid, listing: seq<Uuid>, key: string)
    requires StoreInv(jobs) && ListsKeys(jobs, listing)
    ensures key in RunKeys(results, RunsOf(jobs, search, listing)) <==> key in DeliveredKeys(jobs, results, search)
  {
    var runs := RunsOf(jobs, search, listing);
    RunKeysElements(results, runs, key);
    if i :| 0 <= i < |runs| && key in KeysOf(ResultsOf(results, runs[i].id)) {
      RunsElements(jobs, search, listing, runs[i]);
    }
    if id :| id in jobs && jobs[id].recurringSearchId == Some(search) && key in KeysOf(ResultsOf(results, id)) {
      RunsElements(jobs, search, listing, jobs[id]);
      var i :| 0 <= i < |runs| && runs[i] == jobs[id];
    }
  }

  lemma {:induction false} DistinctSize<T>(s: seq<T>)
    requires Distinct(s)
    ensures |set x | x in s| == |s|
  {
    if s != [] {
      var init, last := s[..|s| - 1], s[|s| - 1];
      assert s == init + [last];
      DistinctSnoc(init, last);
      DistinctSize(init);
      assert (set x | x in s) == (set x | x in init) + {last};
    }
  }

  /** The listing is walked in some order; whatever it is, the duplicate-free list holds exactly the
      delivered keys. */
  lemma AllKeys(jobs: JobMap, results: ResultMap, search: Uuid, listing: seq<Uuid>)
    requires StoreInv(jobs) && ListsKeys(jobs, listing)
    ensures var all := FirstOccurrences(RunKeys(results, RunsOf(jobs, search, listing)));
            && Distinct(all) && |all| == |DeliveredKeys(jobs, results, search)|
            && forall key :: key in all <==> key in DeliveredKeys(jobs, results, search)
  {
    var keys := RunKeys(results, RunsOf(jobs, search, listing));
    var all := FirstOccurrences(keys);
    FirstOccurrencesElements(keys);
    forall key ensures key in all <==> key in DeliveredKeys(jobs, results, search) {
      RunKeysAreDelivered(jobs, results, search, listing, key);
    }
    DistinctSize(all);
    assert (set key | key in all) == DeliveredKeys(jobs, results, search);
  }

  /** The memory has no duplicates, holds only delivered keys, and holds all of them exactly when
      they fit the limit. */
  lemma MemoryHolds(jobs: JobMap, results: ResultMap, search: Uuid, limit: nat, keys: seq<string>)
    requires StoreInv(jobs) && limit > 0 && IsMemory(jobs, results, search, limit, keys)
    ensures Distinct(keys) && |keys| == Min(limit, |DeliveredKeys(jobs, results, search)|)
    ensures forall key :: key in keys ==> key in DeliveredKeys(jobs, results, search)
    ensures (forall key :: key in DeliveredKeys(jobs, results, search) ==> key in keys)
            <==> |DeliveredKeys(jobs, results, search)| <= limit
  {
    var listing :| ListsKeys(jobs, listing)
        && keys == Capped(FirstOccurrences(RunKeys(results, RunsOf(jobs, search, listing))), limit);
    var all := FirstOccurrences(RunKeys(results, RunsOf(jobs, search, listing)));
    AllKeys(jobs, results, search, listing);
    if |all| > limit {
      assert all[limit] in all;
      assert forall i :: 0 <= i < limit ==> keys[i] == all[i] != all[limit];
    }
  }

  lemma {:induction false} LeastRun(results: ResultMap, runs: seq<ScanJob>, key: string, j: nat) returns (i: nat)
    requires j < |runs| && key in KeysOf(ResultsOf(results, runs[j].id))
    ensures i <= j && key in KeysOf(ResultsOf(results, runs[i].id))
    ensures forall k :: 0 <= k < i ==> key !in KeysOf(ResultsOf(results, runs[k].id))
  {
    if k :| 0 <= k < j && key in KeysOf(ResultsOf(results, runs[k].id)) {
      i := LeastRun(results, runs, key, k);
    } else {
      i := j;
    }
  }

  /** If `b` is met in a run before any with `a`, then `b` is listed before `a`. */
  lemma ListedBefore(results: ResultMap, runs: seq<ScanJob>, a: string, b: string, i: nat, j: nat, m: nat)
    requires j < i < |runs|
    requires forall k :: 0 <= k < i ==> a !in KeysOf(ResultsOf(results, runs[k].id))
    requires b in KeysOf(ResultsOf(results, runs[j].id))
    requires m < |FirstOccurrences(RunKeys(results, runs))| && FirstOccurrences(RunKeys(results, runs))[m] == a
    ensures b in FirstOccurrences(RunKeys(results, runs))[..m]
  {
    var all, part := FirstOccurrences(RunKeys(results, runs)), FirstOccurrences(RunKeys(results, runs[..j + 1]));
    KeysSoFar(results, runs, j);
    assert m < |part| ==> part[m] == a;
    FirstOccurrencesElements(RunKeys(results, runs[..j + 1]));
    RunKeysElements(results, runs[..j + 1], a);
    RunKeysElements(results, runs[..j + 1], b);
    assert runs[..j + 1][j] == runs[j];
    var n :| 0 <= n < |part| && part[n] == b;
    assert all[..m][n] == b;
  }

  lemma NewestRun(results: ResultMap, runs: seq<ScanJob>, limit: nat, a: string, b: string, j: nat) returns (i: nat)
    requires limit > 0 && j < |runs| && b in KeysOf(ResultsOf(results, runs[j].id))
    requires var keys := Capped(FirstOccurrences(RunKeys(results, runs)), limit); a in keys && b !in keys
    ensures i <= j && a in KeysOf(ResultsOf(results, runs[i].id))
  {
    var all := FirstOccurrences(RunKeys(results, runs));
    var keys := Capped(all, limit);
    FirstOccurrencesElements(RunKeys(results, runs));
    RunKeysElements(results, runs, a);
    var m: nat :| m < |keys| && keys[m] == a;
    assert all[m] == a && a in all;
    var h: nat :| h < |runs| && a in KeysOf(ResultsOf(results, runs[h].id));
    i := LeastRun(results, runs, a, h);
    assert b !in all[..m] by {
      assert forall n :: 0 <= n < m ==> all[..m][n] == keys[n] && keys[n] in keys;
    }
    if j < i {
      ListedBefore(results, runs, a, b, i, j, m);
    }
  }

  lemma RunIsStored(jobs: JobMap, search: Uuid, listing: seq<Uuid>, i: nat)
    requires StoreInv(jobs) && ListsKeys(jobs, listing) && i < |RunsOf(jobs, search, listing)|
    ensures var job := RunsOf(jobs, search, listing)[i];
                  job.id in jobs && jobs[job.id] == job && job.recurringSearchId == Some(search)
  {
    RunsElements(jobs, search, listing, RunsOf(jobs, search, listing)[i]);
  }

  lemma StoredIsRun(jobs: JobMap, search: Uuid, listing: seq<Uuid>, id: Uuid) returns (j: nat)
    requires ListsKeys(jobs, listing) && id in jobs && jobs[id].recurringSearchId == Some(search)
    ensures j < |RunsOf(jobs, search, listing)| && RunsOf(jobs, search, listing)[j] == jobs[id]
  {
    RunsElements(jobs, search, listing, jobs[id]);
    j :| 0 <= j < |RunsOf(jobs, search, listing)| && RunsOf(jobs, search, listing)[j] == jobs[id];
  }

  lemma RunsDescend(jobs: JobMap, search: Uuid, listing: seq<Uuid>, i: nat, j: nat)
    requires i <= j < |RunsOf(jobs, search, listing)|
    ensures RunsOf(jobs, search, listing)[i].createdAt >= RunsOf(jobs, search, listing)[j].createdAt
  {
    SortByIsStable(NewestFirst, Matching(jobs, search, listing));
    var runs := RunsOf(jobs, search, listing);
    assert NewestFirst(runs[i]) <= NewestFirst(runs[j]);
  }

  /** What is forgotten is older: if the memory keeps `a` and drops `b`, then for every run with `b`
      there is a run with `a` created no earlier. */
  lemma NewestSurvive(jobs: JobMap, results: ResultMap, search: Uuid, limit: nat, keys: seq<string>, a: string,
                      b: string, other: Uuid)
    returns (keeper: Uuid)
    requires StoreInv(jobs) && limit > 0 && IsMemory(jobs, results, search, limit, keys) && a in keys && b !in keys
    requires other in jobs && jobs[other].recurringSearchId == Some(search) && b in KeysOf(ResultsOf(results, other))
    ensures keeper in jobs && jobs[keeper].recurringSearchId == Some(search) && a in KeysOf(ResultsOf(results, keeper))
    ensures jobs[keeper].createdAt >= jobs[other].createdAt
  {
    var listing :| ListsKeys(jobs, listing)
        && keys == Capped(FirstOccurrences(RunKeys(results, RunsOf(jobs, search, listing))), limit);
    var j := StoredIsRun(jobs, search, listing, other);
    var i := NewestRun(results, RunsOf(jobs, search, listing), limit, a, b, j);
    RunIsStored(jobs, search, listing, i);
    RunsDescend(jobs, search, listing, i, j);
    keeper := RunsOf(jobs, search, listing)[i].id;
  }

  // ---------------------------------------------------------------- runs of one recurring scan

  datatype Store = Store(jobs: JobMap, results: ResultMap)

  /** A round launches a job with the memory of that moment and delivers what it found, flagged against
      it; everything else that happens leaves the runs of this scan and their results alone. */
  datatype Event =
    | Round(job: ScanJob, memory: seq<string>, found: seq<ApprovalFinding>)
    | Elsewhere(after: Store)

  const MEMORY_LIMIT: nat := 200

  function KeySetOf(keys: seq<string>): set<string> { set key | key in keys }

  /** What a round delivers. */
  function Flagging(memory: seq<string>, found: seq<ApprovalFinding>): seq<ApprovalFinding>
  {
    FlagNew(found, KeySetOf(memory))
  }

  function Stepped(s: Store, e: Event): Store
  {
    match e
    case Round(job, memory, found) => Store(s.jobs[job.id := job], s.results[job.id := Flagging(memory, found)])
    case Elsewhere(after) => after
  }

  ghost predicate Enabled(s: Store, search: Uuid, e: Event)
  {
    match e
    case Round(job, memory, _) =>
      job.id !in s.jobs && job.recurringSearchId == Some(search)
      && IsMemory(s.jobs, s.results, search, MEMORY_LIMIT, memory)
    case Elsewhere(after) =>
      StoreInv(after.jobs) && SameScan(s, after, search)
  }

  predicate IsRun(s: Store, search: Uuid, id: Uuid)
  {
    id in s.jobs && s.jobs[id].recurringSearchId == Some(search)
  }

  ghost predicate SameScan(s: Store, t: Store, search: Uuid)
  {
    && (forall id :: IsRun(s, search, id) <==> IsRun(t, search, id))
    && (forall id :: IsRun(s, search, id) ==> ResultsOf(s.results, id) == ResultsOf(t.results, id))
  }

  function After(start: Store, run: seq<Event>): Store
  {
    if run == [] then start else Stepped(After(start, run[..|run| - 1]), run[|run| - 1])
  }

  ghost predicate Legal(start: Store, search: Uuid, run: seq<Event>)
  {
    if run == [] then StoreInv(start.jobs) && forall id :: !IsRun(start, search, id)
    else Legal(start, search, run[..|run| - 1]) && Enabled(After(start, run[..|run| - 1]), search, run[|run| - 1])
  }

  /** Every key some round of the run found. */
  function FoundKeys(run: seq<Event>): set<string>
  {
    if run == [] then {}
    else FoundKeys(run[..|run| - 1]) + match run[|run| - 1]
                                       case Round(_, _, found) => KeySetOf(KeysOf(found))
                                       case Elsewhere(_) => {}
  }

  lemma FlaggingKeepsKeys(memory: seq<string>, found: seq<ApprovalFinding>)
    ensures KeysOf(Flagging(memory, found)) == KeysOf(found)
  {
    KeysOfPointwise(found);
    KeysOfPointwise(Flagging(memory, found));
  }

  lemma RoundDelivers(s: Store, search: Uuid, job: ScanJob, memory: seq<string>, found: seq<ApprovalFinding>)
    requires job.id !in s.jobs && job.recurringSearchId == Some(search)
    ensures var t := Stepped(s, Round(job, memory, found));
            DeliveredKeys(t.jobs, t.results, search)
              == DeliveredKeys(s.jobs, s.results, search) + KeySetOf(KeysOf(found))
  {
    var t := Stepped(s, Round(job, memory, found));
    FlaggingKeepsKeys(memory, found);
    assert ResultsOf(t.results, job.id) == Flagging(memory, found);
    assert forall id :: id in s.jobs ==>
             ResultsOf(t.results, id) == ResultsOf(s.results, id) && t.jobs[id] == s.jobs[id];
  }

  lemma SameScanSameKeys(s: Store, t: Store, search: Uuid)
    requires SameScan(s, t, search)
    ensures DeliveredKeys(s.jobs, s.results, search) == DeliveredKeys(t.jobs, t.results, search)
  {
    forall key ensures key in DeliveredKeys(s.jobs, s.results, search)
    <==> key in DeliveredKeys(t.jobs, t.results, search) {
      DeliveredByRun(s, search, key);
      DeliveredByRun(t, search, key);
    }
  }

  lemma DeliveredByRun(s: Store, search: Uuid, key: string)
    ensures key in DeliveredKeys(s.jobs, s.results, search)
            <==> exists id :: IsRun(s, search, id) && key in KeysOf(ResultsOf(s.results, id))
  {
    if id :| id in s.jobs && s.jobs[id].recurringSearchId == Some(search) && key in KeysOf(ResultsOf(s.results, id)) {
      assert IsRun(s, search, id);
    }
  }

  lemma {:induction false} DeliveredIsFound(start: Store, search: Uuid, run: seq<Event>)
    requires Legal(start, search, run)
    ensures StoreInv(After(start, run).jobs)
    ensures DeliveredKeys(After(start, run).jobs, After(start, run).results, search) == FoundKeys(run)
  {
    if run == [] {
      assert forall id :: id in start.jobs ==> !IsRun(start, search, id);
    } else {
      var init := run[..|run| - 1];
      var s := After(start, init);
      DeliveredIsFound(start, search, init);
      match run[|run| - 1]
      case Round(job, memory, found) =>
        RoundDelivers(s, search, job, memory, found);
      case Elsewhere(after) =>
        SameScanSameKeys(s, after, search);
    }
  }

  /** While at most 200 distinct keys have been found, a round flags a finding as new exactly when no
      earlier round found its key: every key is new in the first round that delivers it and never again. */
  lemma NewExactlyOnce(start: Store, search: Uuid, run: seq<Event>, e: Event, i: nat)
    requires Legal(start, search, run + [e]) && e.Round? && i < |e.found|
    requires |FoundKeys(run)| <= 200
    ensures Flagging(e.memory, e.found)[i].isNew <==> e.found[i].Key() !in FoundKeys(run)
  {
    assert (run + [e])[..|run|] == run;
    DeliveredIsFound(start, search, run);
    var s := After(start, run);
    MemoryHolds(s.jobs, s.results, search, MEMORY_LIMIT, e.memory);
  }

  /** The bound is exact: once more than 200 distinct keys have been found, every later round's memory
      misses one of them, and would flag it as new again. */
  lemma ForgetsIff(start: Store, search: Uuid, run: seq<Event>, e: Event)
    requires Legal(start, search, run + [e]) && e.Round?
    ensures (exists key :: key in FoundKeys(run) && key !in e.memory) <==> |FoundKeys(run)| > 200
  {
    assert (run + [e])[..|run|] == run;
    DeliveredIsFound(start, search, run);
    var s := After(start, run);
    MemoryHolds(s.jobs, s.results, search, MEMORY_LIMIT, e.memory);
  }
}
