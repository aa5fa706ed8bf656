/** Whole runs of the job system: launches, scheduler ticks, spend reports, and callbacks split into
    a read of the stored job and a write-back of what became of the copy. */
module JobRuns {
  import opened Common
  import opened Jobs
  import opened JobFlows

  /** `Read` takes a copy of a stored job; `WriteBack` changes a copy taken at any earlier time and
      stores it. Every callback, the reaper, the clarification answer and the late failure of a dispatch
      are a `Read` and one or two `WriteBack`s, with anything happening in between. */
  datatype Event =
    | Launch(user: Uuid, wallet: string, mode: JobMode, checkedAt: nat, draw: Draw)
    | TickAt(now: nat, due: seq<RecurringSearch>, draws: nat -> Draw)
    | AddSearch(user: Uuid, wallet: string, mode: JobMode, interval: nat, url: Option<string>, searchId: Uuid, now: nat)
    | DropSearch(user: Uuid, searchId: Uuid)
    | Read(id: Uuid)
    | WriteBack(hand: nat, act: Act)
    | Spend(id: Uuid, usage: JobUsage)

  /** `hands` holds every copy taken so far as it is by now, `known` every recurring-scan identifier ever issued. */
  datatype State = State(jobs: JobMap, searches: SearchMap, hands: seq<ScanJob>, known: set<Uuid>)

  const EMPTY := State(map[], map[], [], {})

  function WrittenBack(jobs: JobMap, copy: ScanJob, act: Act): JobMap
  {
    if Apply(copy, act).Ok? then JobWritten(jobs, Apply(copy, act).value) else jobs
  }

  /** A refused transition leaves the copy as it is. */
  function Changed(copy: ScanJob, act: Act): ScanJob
  {
    if Apply(copy, act).Ok? then Apply(copy, act).value else copy
  }

  /** A callback that nothing interrupts is a read followed at once by its write-back. */
  lemma CallIsReadThenWrite(jobs: JobMap, id: Uuid, act: Act)
    requires id in jobs
    ensures Transitioned(jobs, id, act) == WrittenBack(jobs, jobs[id], act)
  {
  }

  ghost function Step(quota: nat, s: State, e: Event): State
  {
    match e
    case Launch(user, wallet, mode, checkedAt, draw) =>
      s.(jobs := Launched(s.jobs, quota, user, wallet, mode, checkedAt, draw).0)
    case TickAt(now, due, draws) =>
      var done := Tick(Sched(s.jobs, s.searches, 0), quota, due, now, draws).state;
      s.(jobs := done.jobs, searches := done.searches)
    case AddSearch(user, wallet, mode, interval, url, id, now) =>
      (match NewRecurring(user, wallet, mode, interval, url, id, now)
       case Err(_) => s
       case Ok(search) => s.(searches := s.searches[id := search], known := s.known + {id}))
    case DropSearch(user, id) =>
      if id in s.searches && s.searches[id].userId == user then s.(searches := s.searches - {id}) else s
    case Read(id) =>
      if id in s.jobs then s.(hands := s.hands + [s.jobs[id]]) else s
    case WriteBack(hand, act) =>
      if hand < |s.hands| then
        s.(jobs := WrittenBack(s.jobs, s.hands[hand], act), hands := s.hands[hand := Changed(s.hands[hand], act)])
      else s
    case Spend(id, usage) => s.(jobs := UsageAdded(s.jobs, id, usage))
  }

  /** Fresh identifiers, and a clock that does not go back within one operation. Nothing is asked of
      the clock across operations. */
  ghost predicate Enabled(s: State, e: Event)
  {
    match e
    case Launch(_, _, _, checkedAt, draw) => draw.id !in s.jobs && checkedAt <= draw.createdAt
    case TickAt(now, due, draws) => IsDueList(s.searches, now, due) && FreshDraws(s.jobs, |due|, now, draws)
    case AddSearch(_, _, _, _, _, id, _) => id !in s.known
    case _ => true
  }

  ghost predicate FreshDraws(jobs: JobMap, n: nat, now: nat, draws: nat -> Draw)
  {
    && (forall i :: 0 <= i < n ==> draws(i).id !in jobs && now <= draws(i).createdAt)
    && (forall i, j :: 0 <= i < j < n ==> draws(i).id != draws(j).id)
  }

  ghost function After(quota: nat, run: seq<Event>): State
  {
    if run == [] then EMPTY else Step(quota, After(quota, run[..|run| - 1]), run[|run| - 1])
  }

  ghost predicate Legal(quota: nat, run: seq<Event>)
  {
    run == [] || (Legal(quota, run[..|run| - 1]) && Enabled(After(quota, run[..|run| - 1]), run[|run| - 1]))
  }

  // ---------------------------------------------------------------- what no operation changes

  /** The fields of a job that are set once. */
  function Fixed(job: ScanJob): (Uuid, Uuid, string, JobMode, Option<Uuid>, nat)
  {
    (job.id, job.userId, job.walletAddress, job.mode, job.recurringSearchId, job.createdAt)
  }

  /** `b` holds the jobs of `a`, with the same fixed fields. */
  ghost predicate SameJobs(a: JobMap, b: JobMap)
  {
    a.Keys == b.Keys && forall id :: id in a ==> Fixed(a[id]) == Fixed(b[id])
  }

  lemma WriteBackKeepsJobs(jobs: JobMap, copy: ScanJob, act: Act)
    requires copy.id in jobs && Fixed(copy) == Fixed(jobs[copy.id])
    ensures SameJobs(jobs, WrittenBack(jobs, copy, act))
    ensures forall id :: id in jobs ==> WrittenBack(jobs, copy, act)[id].usage == jobs[id].usage
  {
  }

  /** The stored jobs and the new one, which starts without any spend. */
  lemma DispatchAddsOne(jobs: JobMap, job: ScanJob, failure: Option<(string, nat)>)
    requires job.id !in jobs && job.usage == NO_USAGE
    ensures var after := Dispatched(jobs, job, failure);
            && SameJobs(jobs[job.id := job], after)
            && after[job.id].usage == NO_USAGE
            && forall id :: id in jobs ==> after[id] == jobs[id]
  {
  }

  // ---------------------------------------------------------------- the rolling quota

  /** The user's jobs created in the half-open day (t - 24h, t]. */
  ghost function InDay(jobs: JobMap, user: Uuid, t: int): set<Uuid>
  {
    set id | id in jobs && jobs[id].userId == user && t - DAY < jobs[id].createdAt <= t
  }

  ghost predicate JobsInv(jobs: JobMap, quota: nat)
  {
    && (forall id :: id in jobs ==> jobs[id].id == id && jobs[id].createdAt % 1000 == 0)
    && (forall user, t :: |InDay(jobs, user, t)| <= quota)
  }

  lemma SameJobsKeepInv(a: JobMap, b: JobMap, quota: nat)
    requires JobsInv(a, quota) && SameJobs(a, b)
    ensures JobsInv(b, quota)
  {
    assert forall id :: id in b ==> Fixed(a[id]) == Fixed(b[id]);
    forall user, t ensures |InDay(b, user, t)| <= quota {
      assert InDay(a, user, t) == InDay(b, user, t);
    }
  }

  /** Whole microseconds less than `n` apart are at most `n - 1` apart. */
  lemma MicrosApart(a: int, b: int, n: int)
    requires a % 1000 == 0 && b % 1000 == 0 && a < b + n * 1000
    ensures a <= b + (n - 1) * 1000
  {
    var p, q := a / 1000, b / 1000;
    assert a == p * 1000 && b == q * 1000;
  }

  /** The check counts from `checkedAt`, the job is stamped later and cut to microseconds; whatever
      shares a day with the new job was still counted. */
  lemma SharesADay(other: nat, checkedAt: nat, createdAt: nat, t: int)
    requires other % 1000 == 0 && checkedAt <= createdAt
    requires t - DAY < other <= t && t - DAY < Micros(createdAt) <= t
    ensures other >= checkedAt - DAY
  {
    WholeMicros(createdAt);
    MicrosApart(Micros(createdAt), other, 24 * 60 * 60 * 1_000_000);
  }

  lemma InsertKeepsQuota(jobs: JobMap, quota: nat, user: Uuid, checkedAt: nat, createdAt: nat, job: ScanJob)
    requires JobsInv(jobs, quota) && job.id !in jobs && job.userId == user
    requires job.createdAt == Micros(createdAt) && checkedAt <= createdAt
    requires |CreatedSince(jobs, user, checkedAt - DAY)| < quota
    ensures JobsInv(jobs[job.id := job], quota)
  {
    WholeMicros(createdAt);
    var after := jobs[job.id := job];
    forall who, t ensures |InDay(after, who, t)| <= quota {
      InDayAfter(jobs, job, who, t);
      if who == user && t - DAY < job.createdAt <= t {
        AllCounted(jobs, user, checkedAt, createdAt, t);
      }
    }
  }

  lemma WholeMicros(now: nat)
    ensures Micros(now) % 1000 == 0
  {
  }

  lemma InDayAfter(jobs: JobMap, job: ScanJob, who: Uuid, t: int)
    requires job.id !in jobs
    ensures InDay(jobs[job.id := job], who, t)
            == InDay(jobs, who, t) + if who == job.userId && t - DAY < job.createdAt <= t then {job.id} else {}
  {
  }

  lemma AllCounted(jobs: JobMap, user: Uuid, checkedAt: nat, createdAt: nat, t: int)
    requires forall id :: id in jobs ==> jobs[id].createdAt % 1000 == 0
    requires checkedAt <= createdAt && t - DAY < Micros(createdAt) <= t
    ensures |InDay(jobs, user, t)| <= |CreatedSince(jobs, user, checkedAt - DAY)|
  {
    forall id | id in InDay(jobs, user, t) ensures id in CreatedSince(jobs, user, checkedAt - DAY) {
      SharesADay(jobs[id].createdAt, checkedAt, createdAt, t);
    }
    SubsetSize(InDay(jobs, user, t), CreatedSince(jobs, user, checkedAt - DAY));
  }

  /** A launch, manual or scheduled, keeps the quota whatever the dispatcher does. */
  lemma LaunchKeepsQuota(jobs: JobMap, quota: nat, user: Uuid, wallet: string, mode: JobMode, recurring: Option<Uuid>,
                         checkedAt: nat, draw: Draw)
    requires JobsInv(jobs, quota) && draw.id !in jobs && checkedAt <= draw.createdAt
    requires |CreatedSince(jobs, user, checkedAt - DAY)| < quota
    requires NewJob(user, wallet, mode, recurring, draw.id, draw.createdAt).Ok?
    ensures var job := NewJob(user, wallet, mode, recurring, draw.id, draw.createdAt).value;
            JobsInv(Dispatched(jobs, job, draw.failure), quota)
  {
    var job := NewJob(user, wallet, mode, recurring, draw.id, draw.createdAt).value;
    InsertKeepsQuota(jobs, quota, user, checkedAt, draw.createdAt, job);
    DispatchAddsOne(jobs, job, draw.failure);
    SameJobsKeepInv(jobs[job.id := job], Dispatched(jobs, job, draw.failure), quota);
  }

  // ---------------------------------------------------------------- one tick

  /** Old jobs are untouched; new ones carry a drawn identifier and no spend. */
  ghost predicate OnlyAdds(before: JobMap, after: JobMap, n: nat, draws: nat -> Draw)
  {
    && (forall id :: id in before ==> id in after && after[id] == before[id])
    && (forall id :: id in after && id !in before ==>
          after[id].usage == NO_USAGE && exists i :: 0 <= i < n && draws(i).id == id)
  }

  ghost function DueIds(due: seq<RecurringSearch>): set<Uuid>
  {
    set search | search in due :: search.id
  }

  ghost function MarkedAll(searches: SearchMap, ids: set<Uuid>, now: nat): SearchMap
  {
    map id | id in searches :: if id in ids then searches[id].MarkRan(now) else searches[id]
  }

  ghost predicate Launchable(due: seq<RecurringSearch>)
  {
    forall i :: 0 <= i < |due| ==> IsValidEvmAddress(due[i].walletAddress)
  }

  lemma OneDueRun(s: Sched, quota: nat, search: RecurringSearch, now: nat, draw: Draw)
    requires JobsInv(s.jobs, quota) && draw.id !in s.jobs && now <= draw.createdAt
    requires IsValidEvmAddress(search.walletAddress)
    ensures DueRun(s, quota, search, now, draw).failure.None?
    ensures var after := DueRun(s, quota, search, now, draw).state;
            && JobsInv(after.jobs, quota)
            && after.searches == Ran(s.searches, search.id, now)
            && OnlyAdds(s.jobs, after.jobs, 1, i => draw)
  {
    AcceptedAddressStays(search.walletAddress);
    var one: nat -> Draw := i => draw;
    assert one(0).id == draw.id;
    if |CreatedSince(s.jobs, search.userId, now - DAY)| < quota {
      LaunchKeepsQuota(s.jobs, quota, search.userId, search.walletAddress, search.mode, Some(search.id), now, draw);
      var job := NewJob(search.userId, search.walletAddress, search.mode, Some(search.id), draw.id,
                        draw.createdAt).value;
      DispatchAddsOne(s.jobs, job, draw.failure);
    }
  }

  lemma AddsCompose(a: JobMap, b: JobMap, c: JobMap, n: nat, draws: nat -> Draw)
    requires OnlyAdds(a, b, n, draws) && OnlyAdds(b, c, 1, i => draws(n))
    ensures OnlyAdds(a, c, n + 1, draws)
  {
  }

  lemma MarkedNext(searches: SearchMap, due: seq<RecurringSearch>, now: nat)
    requires due != []
    ensures var n := |due| - 1;
            MarkedAll(searches, DueIds(due), now) == Ran(MarkedAll(searches, DueIds(due[..n]), now), due[n].id, now)
  {
    var n := |due| - 1;
    assert due == due[..n] + [due[n]];
    assert DueIds(due) == DueIds(due[..n]) + {due[n].id};
  }

  /** A tick over scans with valid wallets never fails, keeps the quota, only adds jobs, and marks
      exactly the due scans. */
  lemma {:induction false} TickKeepsQuota(s: Sched, quota: nat, due: seq<RecurringSearch>, now: nat, draws: nat -> Draw)
    requires JobsInv(s.jobs, quota) && Launchable(due) && FreshDraws(s.jobs, |due|, now, draws)
    ensures Tick(s, quota, due, now, draws).failure.None?
    ensures var after := Tick(s, quota, due, now, draws).state;
            && JobsInv(after.jobs, quota)
            && OnlyAdds(s.jobs, after.jobs, |due|, draws)
            && after.searches == MarkedAll(s.searches, DueIds(due), now)
  {
    if due == [] {
      assert MarkedAll(s.searches, DueIds(due), now) == s.searches;
    } else {
      var n := |due| - 1;
      TickKeepsQuota(s, quota, due[..n], now, draws);
      var before := Tick(s, quota, due[..n], now, draws).state;
      assert draws(n).id !in before.jobs;
      OneDueRun(before, quota, due[n], now, draws(n));
      AddsCompose(s.jobs, before.jobs, DueRun(before, quota, due[n], now, draws(n)).state.jobs, n, draws);
      MarkedNext(s.searches, due, now);
    }
  }

  // ---------------------------------------------------------------- the invariant of every run

  ghost predicate SearchesInv(s: State)
  {
    forall id :: id in s.searches ==>
                   s.searches[id].id == id && id in s.known && IsValidEvmAddress(s.searches[id].walletAddress)
  }

  ghost predicate HandsInv(s: State)
  {
    forall i :: 0 <= i < |s.hands| ==> s.hands[i].id in s.jobs && Fixed(s.hands[i]) == Fixed(s.jobs[s.hands[i].id])
  }

  ghost predicate Inv(quota: nat, s: State)
  {
    JobsInv(s.jobs, quota) && SearchesInv(s) && HandsInv(s)
  }

  lemma TickIsOk(quota: nat, s: State, now: nat, due: seq<RecurringSearch>, draws: nat -> Draw)
    requires Inv(quota, s) && IsDueList(s.searches, now, due) && FreshDraws(s.jobs, |due|, now, draws)
    ensures Tick(Sched(s.jobs, s.searches, 0), quota, due, now, draws).failure.None?
    ensures var after := Tick(Sched(s.jobs, s.searches, 0), quota, due, now, draws).state;
            && JobsInv(after.jobs, quota)
            && OnlyAdds(s.jobs, after.jobs, |due|, draws)
            && after.searches == MarkedAll(s.searches, DueIds(due), now)
  {
    assert Launchable(due);
    TickKeepsQuota(Sched(s.jobs, s.searches, 0), quota, due, now, draws);
  }

  lemma LaunchOnlyAdds(quota: nat, s: State, user: Uuid, wallet: string, mode: JobMode, checkedAt: nat, draw: Draw)
    requires Inv(quota, s) && draw.id !in s.jobs && checkedAt <= draw.createdAt
    ensures var after := Launched(s.jobs, quota, user, wallet, mode, checkedAt, draw).0;
            JobsInv(after, quota) && OnlyAdds(s.jobs, after, 1, i => draw)
  {
    var one: nat -> Draw := i => draw;
    assert one(0).id == draw.id;
    var made := NewJob(user, wallet, mode, None, draw.id, draw.createdAt);
    if |CreatedSince(s.jobs, user, checkedAt - DAY)| < quota && made.Ok? {
      LaunchKeepsQuota(s.jobs, quota, user, wallet, mode, None, checkedAt, draw);
      DispatchAddsOne(s.jobs, made.value, draw.failure);
    }
  }

  lemma StepKeepsInv(quota: nat, s: State, e: Event)
    requires Inv(quota, s) && Enabled(s, e)
    ensures Inv(quota, Step(quota, s, e))
  {
    match e
    case Launch(user, wallet, mode, checkedAt, draw) =>
      LaunchOnlyAdds(quota, s, user, wallet, mode, checkedAt, draw);
    case TickAt(now, due, draws) =>
      TickIsOk(quota, s, now, due, draws);
    case AddSearch(user, wallet, mode, interval, url, id, now) =>
    case DropSearch(user, id) =>
    case Read(id) =>
    case WriteBack(hand, act) =>
      if hand < |s.hands| {
        var after := WrittenBack(s.jobs, s.hands[hand], act);
        WriteBackKeepsJobs(s.jobs, s.hands[hand], act);
        SameJobsKeepInv(s.jobs, after, quota);
        assert forall id :: id in s.jobs ==> Fixed(after[id]) == Fixed(s.jobs[id]);
      }
    case Spend(id, usage) =>
      var after := UsageAdded(s.jobs, id, usage);
      assert SameJobs(s.jobs, after);
      SameJobsKeepInv(s.jobs, after, quota);
  }

  lemma {:induction false} Reachable(quota: nat, run: seq<Event>)
    requires Legal(quota, run)
    ensures Inv(quota, After(quota, run))
  {
    if run == [] {
      assert forall user, t :: InDay(EMPTY.jobs, user, t) == {};
    } else {
      Reachable(quota, run[..|run| - 1]);
      StepKeepsInv(quota, After(quota, run[..|run| - 1]), run[|run| - 1]);
    }
  }

  // ---------------------------------------------------------------- theorems over runs

  /** At no instant have more than `quota` of a user's stored jobs been created within the last day. */
  lemma QuotaHolds(quota: nat, run: seq<Event>, user: Uuid, t: int)
    requires Legal(quota, run)
    ensures |InDay(After(quota, run).jobs, user, t)| <= quota
  {
    Reachable(quota, run);
  }

  /** A scheduler tick never fails on what the store holds. */
  lemma TickNeverFails(quota: nat, run: seq<Event>, now: nat, due: seq<RecurringSearch>, draws: nat -> Draw)
    requires Legal(quota, run) && Enabled(After(quota, run), TickAt(now, due, draws))
    ensures var s := After(quota, run); Tick(Sched(s.jobs, s.searches, 0), quota, due, now, draws).failure.None?
  {
    Reachable(quota, run);
    TickIsOk(quota, After(quota, run), now, due, draws);
  }

  /** The sum of one figure over all spend a run reported for a job the store knew. */
  ghost function Spent(quota: nat, run: seq<Event>, id: Uuid, figure: JobUsage -> int): int
  {
    if run == [] then 0
    else
      var init, e := run[..|run| - 1], run[|run| - 1];
      Spent(quota, init, id, figure)
        + if e.Spend? && e.id == id && id in After(quota, init).jobs then figure(e.usage) else 0
  }

  /** The figures of a spend report. */
  const CALLS: JobUsage -> int := (u: JobUsage) => u.llmCalls
  const INPUT: JobUsage -> int := (u: JobUsage) => u.inputTokens
  const OUTPUT: JobUsage -> int := (u: JobUsage) => u.outputTokens
  const SEARCHES: JobUsage -> int := (u: JobUsage) => u.searchCalls
  const COST: JobUsage -> int := (u: JobUsage) => u.costMicros

  ghost predicate SpendIs(quota: nat, run: seq<Event>, id: Uuid, usage: JobUsage)
  {
    && usage.llmCalls == Spent(quota, run, id, CALLS)
    && usage.inputTokens == Spent(quota, run, id, INPUT) && usage.outputTokens == Spent(quota, run, id, OUTPUT)
    && usage.searchCalls == Spent(quota, run, id, SEARCHES) && usage.costMicros == Spent(quota, run, id, COST)
  }

  /** What one step does to the stored spend of a job. */
  lemma StepSpend(quota: nat, s: State, e: Event, id: Uuid)
    requires Inv(quota, s) && Enabled(s, e)
    ensures id in s.jobs ==>
              id in Step(quota, s, e).jobs
              && Step(quota, s, e).jobs[id].usage == if e.Spend? && e.id == id then s.jobs[id].usage.Add(e.usage)
                 else s.jobs[id].usage
    ensures id !in s.jobs && id in Step(quota, s, e).jobs ==> Step(quota, s, e).jobs[id].usage == NO_USAGE
  {
    match e
    case Launch(user, wallet, mode, checkedAt, draw) =>
      LaunchOnlyAdds(quota, s, user, wallet, mode, checkedAt, draw);
    case TickAt(now, due, draws) =>
      TickIsOk(quota, s, now, due, draws);
    case AddSearch(user, wallet, mode, interval, url, searchId, now) =>
    case DropSearch(user, searchId) =>
    case Read(copied) =>
    case WriteBack(hand, act) =>
      if hand < |s.hands| {
        WriteBackKeepsJobs(s.jobs, s.hands[hand], act);
      }
    case Spend(spender, usage) =>
  }

  /** Spend is conserved: whatever copies were written back, however stale, each figure of a job's
      stored usage is the sum of what was reported for it. */
  lemma {:induction false} SpendConserved(quota: nat, run: seq<Event>, id: Uuid)
    requires Legal(quota, run)
    ensures SpendIs(quota, run, id, if id in After(quota, run).jobs then After(quota, run).jobs[id].usage else NO_USAGE)
  {
    if run != [] {
      var init := run[..|run| - 1];
      SpendConserved(quota, init, id);
      Reachable(quota, init);
      StepSpend(quota, After(quota, init), run[|run| - 1], id);
    }
  }

  // ---------------------------------------------------------------- spacing

  /** Since a tick at `floor` served this scan, it is marked at least then. */
  ghost predicate ServedBy(s: State, id: Uuid, interval: nat, floor: nat)
  {
    && id in s.known
    && (id in s.searches ==>
          && s.searches[id].intervalMinutes == interval
          && s.searches[id].lastRunAt.Some? && s.searches[id].lastRunAt.value >= floor)
  }

  lemma TickKeepsServed(s: State, now: nat, due: seq<RecurringSearch>, id: Uuid, interval: nat, floor: nat)
    requires IsDueList(s.searches, now, due) && ServedBy(s, id, interval, floor)
    ensures ServedBy(s.(searches := MarkedAll(s.searches, DueIds(due), now)), id, interval, floor)
  {
    if id in s.searches && id in DueIds(due) {
      var k :| 0 <= k < |due| && due[k].id == id;
      assert due[k] == s.searches[id] && due[k].IsDue(now);
    }
  }

  /** No other event unmarks a scan or brings a deleted one back. */
  lemma OthersKeepServed(quota: nat, s: State, e: Event, id: Uuid, interval: nat, floor: nat)
    requires Enabled(s, e) && !e.TickAt? && ServedBy(s, id, interval, floor)
    ensures ServedBy(Step(quota, s, e), id, interval, floor)
  {
  }

  lemma StepKeepsServed(quota: nat, s: State, e: Event, id: Uuid, interval: nat, floor: nat)
    requires Inv(quota, s) && Enabled(s, e) && ServedBy(s, id, interval, floor)
    ensures ServedBy(Step(quota, s, e), id, interval, floor)
  {
    if e.TickAt? {
      TickIsOk(quota, s, e.now, e.due, e.draws);
      TickKeepsServed(s, e.now, e.due, id, interval, floor);
    } else {
      OthersKeepServed(quota, s, e, id, interval, floor);
    }
  }

  ghost predicate Serves(e: Event, id: Uuid)
  {
    e.TickAt? && id in DueIds(e.due)
  }

  lemma ServedAfterTick(quota: nat, s: State, e: Event, id: Uuid)
    requires Inv(quota, s) && Enabled(s, e) && Serves(e, id)
    ensures id in s.searches && ServedBy(Step(quota, s, e), id, s.searches[id].intervalMinutes, e.now)
  {
    TickIsOk(quota, s, e.now, e.due, e.draws);
  }

  lemma {:induction false} LegalPrefix(quota: nat, run: seq<Event>, n: nat)
    requires Legal(quota, run) && n <= |run|
    ensures Legal(quota, run[..n])
    ensures n < |run| ==>
              Enabled(After(quota, run[..n]), run[n])
              && After(quota, run[..n + 1]) == Step(quota, After(quota, run[..n]), run[n])
  {
    if n == |run| {
      assert run[..n] == run;
    } else {
      assert run[..n + 1][..n] == run[..n];
      if n == |run| - 1 {
        assert run[..n + 1] == run;
      } else {
        LegalPrefix(quota, run[..|run| - 1], n);
        assert run[..|run| - 1][..n] == run[..n];
      }
    }
  }

  lemma {:induction false} StaysServed(quota: nat, run: seq<Event>, i: nat, j: nat, id: Uuid, interval: nat, floor: nat)
    requires Legal(quota, run) && i <= j <= |run| && ServedBy(After(quota, run[..i]), id, interval, floor)
    ensures ServedBy(After(quota, run[..j]), id, interval, floor)
    decreases j
  {
    if i < j {
      StaysServed(quota, run, i, j - 1, id, interval, floor);
      LegalPrefix(quota, run, j - 1);
      Reachable(quota, run[..j - 1]);
      StepKeepsServed(quota, After(quota, run[..j - 1]), run[j - 1], id, interval, floor);
    }
  }

  /** Two ticks that serve the same recurring scan are at least its interval apart, even where the
      quota made the first of them skip the launch. */
  lemma TicksAreSpaced(quota: nat, run: seq<Event>, i: nat, j: nat, id: Uuid)
    requires Legal(quota, run) && i < j < |run| && Serves(run[i], id) && Serves(run[j], id)
    ensures id in After(quota, run[..i]).searches
    ensures run[i].now + After(quota, run[..i]).searches[id].intervalMinutes * MINUTE <= run[j].now
  {
    LegalPrefix(quota, run, i);
    Reachable(quota, run[..i]);
    ServedAfterTick(quota, After(quota, run[..i]), run[i], id);
    StaysServed(quota, run, i + 1, j, id, After(quota, run[..i]).searches[id].intervalMinutes, run[i].now);
    LegalPrefix(quota, run, j);
    var k :| 0 <= k < |run[j].due| && run[j].due[k].id == id;
    assert run[j].due[k].IsDue(run[j].now);
  }

  // ---------------------------------------------------------------- the lifecycle

  /** Which statuses one uninterrupted callback may lead to. */
  predicate MayBecome(before: JobStatus, after: JobStatus)
  {
    || before == after
    || after == Completed
    || (after == JobStatus.Failed && before != Completed)
    || (before == JobStatus.Pending && after == Running)
    || (after == AwaitingInput && (before == JobStatus.Pending || before == Running))
    || (before == AwaitingInput && after == JobStatus.Pending)
  }

  /** An error is only ever on a failed job. */
  predicate ErrorInv(job: ScanJob) { job.error.Some? ==> job.status == JobStatus.Failed }

  lemma ApplyLifecycle(job: ScanJob, act: Act)
    requires Apply(job, act).Ok?
    ensures MayBecome(job.status, Apply(job, act).value.status)
    ensures ErrorInv(job) ==> ErrorInv(Apply(job, act).value)
  {
  }

  /** Every write-back of the run starts from a copy that still has the stored status. */
  ghost predicate Uninterrupted(quota: nat, run: seq<Event>)
  {
    forall i :: 0 <= i < |run| && run[i].WriteBack? ==> WriteIsCurrent(After(quota, run[..i]), run[i])
  }

  ghost predicate WriteIsCurrent(s: State, e: Event)
    requires e.WriteBack?
  {
    e.hand < |s.hands| && s.hands[e.hand].id in s.jobs ==>
      var copy := s.hands[e.hand]; copy.status == s.jobs[copy.id].status
  }

  lemma StepLifecycle(quota: nat, s: State, e: Event, id: Uuid)
    requires Inv(quota, s) && Enabled(s, e) && id in s.jobs && (e.WriteBack? ==> WriteIsCurrent(s, e))
    ensures id in Step(quota, s, e).jobs && MayBecome(s.jobs[id].status, Step(quota, s, e).jobs[id].status)
  {
    match e
    case Launch(user, wallet, mode, checkedAt, draw) =>
      LaunchOnlyAdds(quota, s, user, wallet, mode, checkedAt, draw);
    case TickAt(now, due, draws) =>
      TickIsOk(quota, s, now, due, draws);
    case WriteBack(hand, act) =>
      if hand < |s.hands| && Apply(s.hands[hand], act).Ok? {
        ApplyLifecycle(s.hands[hand], act);
      }
    case _ =>
  }

  /** Completed for good; failed, or completed after all. */
  predicate StillFinished(before: JobStatus, after: JobStatus)
  {
    && (before == Completed ==> after == Completed)
    && (before == JobStatus.Failed ==> after == JobStatus.Failed || after == Completed)
  }

  lemma FinishedLater(a: JobStatus, b: JobStatus, c: JobStatus)
    requires StillFinished(a, b) && MayBecome(b, c)
    ensures StillFinished(a, c)
  {
  }

  ghost function StatusAfter(quota: nat, run: seq<Event>, id: Uuid): Option<JobStatus>
  {
    var jobs := After(quota, run).jobs;
    if id in jobs then Some(jobs[id].status) else None
  }

  /** Without interruption a completed job stays completed, and a failed one is later failed or completed. */
  lemma {:induction false} FinishedStays(quota: nat, run: seq<Event>, i: nat, j: nat, id: Uuid)
    requires Legal(quota, run) && Uninterrupted(quota, run) && i <= j <= |run| && StatusAfter(quota, run[..i], id).Some?
    ensures StatusAfter(quota, run[..j], id).Some?
    ensures StillFinished(StatusAfter(quota, run[..i], id).value, StatusAfter(quota, run[..j], id).value)
    decreases j
  {
    if i < j {
      FinishedStays(quota, run, i, j - 1, id);
      LegalPrefix(quota, run, j - 1);
      Reachable(quota, run[..j - 1]);
      StepLifecycle(quota, After(quota, run[..j - 1]), run[j - 1], id);
      FinishedLater(StatusAfter(quota, run[..i], id).value, StatusAfter(quota, run[..j - 1], id).value,
                    StatusAfter(quota, run[..j], id).value);
    }
  }

  ghost predicate NoStrayErrors(s: State)
  {
    && (forall id :: id in s.jobs ==> ErrorInv(s.jobs[id]))
    && (forall i :: 0 <= i < |s.hands| ==> ErrorInv(s.hands[i]))
  }

  lemma DispatchKeepsErrors(jobs: JobMap, job: ScanJob, failure: Option<(string, nat)>)
    requires job.id !in jobs && ErrorInv(job) && forall id :: id in jobs ==> ErrorInv(jobs[id])
    ensures forall id :: id in Dispatched(jobs, job, failure) ==> ErrorInv(Dispatched(jobs, job, failure)[id])
  {
  }

  lemma {:induction false} TickKeepsErrors(s: Sched, quota: nat, due: seq<RecurringSearch>, now: nat,
                                           draws: nat -> Draw)
    requires JobsInv(s.jobs, quota) && Launchable(due) && FreshDraws(s.jobs, |due|, now, draws)
    requires forall id :: id in s.jobs ==> ErrorInv(s.jobs[id])
    ensures Tick(s, quota, due, now, draws).failure.None?
    ensures var after := Tick(s, quota, due, now, draws).state.jobs; forall id :: id in after ==> ErrorInv(after[id])
  {
    TickKeepsQuota(s, quota, due, now, draws);
    if due != [] {
      var n := |due| - 1;
      TickKeepsQuota(s, quota, due[..n], now, draws);
      TickKeepsErrors(s, quota, due[..n], now, draws);
      var before := Tick(s, quota, due[..n], now, draws).state;
      var made :=
            NewJob(due[n].userId, due[n].walletAddress, due[n].mode, Some(due[n].id), draws(n).id, draws(n).createdAt);
      assert draws(n).id !in before.jobs;
      if made.Ok? {
        DispatchKeepsErrors(before.jobs, made.value, draws(n).failure);
      }
    }
  }

  lemma StepKeepsErrors(quota: nat, s: State, e: Event)
    requires Inv(quota, s) && Enabled(s, e) && NoStrayErrors(s)
    ensures NoStrayErrors(Step(quota, s, e))
  {
    match e
    case Launch(user, wallet, mode, checkedAt, draw) =>
      var made := NewJob(user, wallet, mode, None, draw.id, draw.createdAt);
      if made.Ok? {
        DispatchKeepsErrors(s.jobs, made.value, draw.failure);
      }
    case TickAt(now, due, draws) =>
      assert Launchable(due);
      TickKeepsErrors(Sched(s.jobs, s.searches, 0), quota, due, now, draws);
    case WriteBack(hand, act) =>
      if hand < |s.hands| && Apply(s.hands[hand], act).Ok? {
        ApplyLifecycle(s.hands[hand], act);
      }
    case _ =>
  }

  /** In every run, interrupted or not, a job that is not failed has no error. */
  lemma {:induction false} UnfinishedHasNoError(quota: nat, run: seq<Event>)
    requires Legal(quota, run)
    ensures NoStrayErrors(After(quota, run))
  {
    if run != [] {
      var init := run[..|run| - 1];
      UnfinishedHasNoError(quota, init);
      Reachable(quota, init);
      StepKeepsErrors(quota, After(quota, init), run[|run| - 1]);
    }
  }

  /** A write-back that leaves a completed job completed: the transition is refused, it completes the
      job itself, or the copy was taken after the completion. */
  predicate Spares(copy: ScanJob, act: Act)
  {
    match act
    case Start => copy.status == Completed
    case Complete(_) => true
    case Fail(_, _) => copy.status == Completed
    case Ask(text) => RustTrim(text) == [] || copy.status == Completed
    case Answer(text) => !(1 <= |RustTrim(text)| <= MAX_ANSWER_LEN) || copy.status != AwaitingInput
  }

  lemma CompletionSurvives(jobs: JobMap, copy: ScanJob, act: Act)
    requires copy.id in jobs && jobs[copy.id].status == Completed
    ensures WrittenBack(jobs, copy, act)[copy.id].status == Completed <==> Spares(copy, act)
  {
  }

  /** The event spares this job, if it writes a copy of it back at all. */
  ghost predicate SparesJob(s: State, e: Event, id: Uuid)
  {
    e.WriteBack? && e.hand < |s.hands| && s.hands[e.hand].id == id ==> Spares(s.hands[e.hand], e.act)
  }

  lemma StepSpares(quota: nat, s: State, e: Event, id: Uuid)
    requires Inv(quota, s) && Enabled(s, e) && id in s.jobs && s.jobs[id].status == Completed
    ensures id in Step(quota, s, e).jobs
    ensures Step(quota, s, e).jobs[id].status == Completed <==> SparesJob(s, e, id)
  {
    if e.WriteBack? {
      if e.hand < |s.hands| {
        WriteSpares(s.jobs, s.hands[e.hand], e.act, id);
      }
    } else {
      StepLifecycle(quota, s, e, id);
    }
  }

  lemma WriteSpares(jobs: JobMap, copy: ScanJob, act: Act, id: Uuid)
    requires copy.id in jobs && id in jobs && jobs[id].status == Completed
    ensures id in WrittenBack(jobs, copy, act)
    ensures WrittenBack(jobs, copy, act)[id].status == Completed <==> (copy.id == id ==> Spares(copy, act))
  {
    if copy.id == id {
      CompletionSurvives(jobs, copy, act);
    }
  }

  ghost predicate SparedAt(quota: nat, run: seq<Event>, p: nat, id: Uuid)
    requires p < |run|
  {
    SparesJob(After(quota, run[..p]), run[p], id)
  }

  ghost predicate SparedUntil(quota: nat, run: seq<Event>, i: nat, j: nat, id: Uuid)
    requires i <= j <= |run|
  {
    forall p :: i <= p < j ==> SparedAt(quota, run, p, id)
  }

  ghost predicate CompletedUntil(quota: nat, run: seq<Event>, i: nat, j: nat, id: Uuid)
    requires i <= j <= |run|
  {
    forall p :: i <= p <= j ==> StatusAfter(quota, run[..p], id) == Some(Completed)
  }

  /** A completed job stays completed through a run if and only if every write-back in it spares the job. */
  lemma {:induction false} CompletedIffSpared(quota: nat, run: seq<Event>, i: nat, j: nat, id: Uuid)
    requires Legal(quota, run) && i <= j <= |run| && StatusAfter(quota, run[..i], id) == Some(Completed)
    ensures CompletedUntil(quota, run, i, j, id) <==> SparedUntil(quota, run, i, j, id)
    decreases j
  {
    if i < j {
      CompletedIffSpared(quota, run, i, j - 1, id);
      SparedNext(quota, run, i, j, id);
      CompletedNext(quota, run, i, j, id);
      if CompletedUntil(quota, run, i, j - 1, id) {
        NextSpared(quota, run, j, id);
      }
    }
  }

  lemma NextSpared(quota: nat, run: seq<Event>, j: nat, id: Uuid)
    requires Legal(quota, run) && 0 < j <= |run| && StatusAfter(quota, run[..j - 1], id) == Some(Completed)
    ensures StatusAfter(quota, run[..j], id) == Some(Completed)
            <==> SparesJob(After(quota, run[..j - 1]), run[j - 1], id)
  {
    LegalPrefix(quota, run, j - 1);
    Reachable(quota, run[..j - 1]);
    StepSpares(quota, After(quota, run[..j - 1]), run[j - 1], id);
  }

  lemma SparedNext(quota: nat, run: seq<Event>, i: nat, j: nat, id: Uuid)
    requires i < j <= |run|
    ensures SparedUntil(quota, run, i, j, id)
            <==> SparedUntil(quota, run, i, j - 1, id) && SparedAt(quota, run, j - 1, id)
  {
    if SparedUntil(quota, run, i, j - 1, id) && SparedAt(quota, run, j - 1, id) {
      forall p | i <= p < j ensures SparedAt(quota, run, p, id) {
        assert p < j - 1 || p == j - 1;
      }
    }
  }

  lemma CompletedNext(quota: nat, run: seq<Event>, i: nat, j: nat, id: Uuid)
    requires i < j <= |run|
    ensures CompletedUntil(quota, run, i, j, id)
            <==> CompletedUntil(quota, run, i, j - 1, id) && StatusAfter(quota, run[..j], id) == Some(Completed)
  {
    if CompletedUntil(quota, run, i, j - 1, id) && StatusAfter(quota, run[..j], id) == Some(Completed) {
      forall p | i <= p <= j ensures StatusAfter(quota, run[..p], id) == Some(Completed) {
        assert p <= j - 1 || p == j;
      }
    }
  }

  const WALLET := "0x0000000000000000000000000000000000000000"

  lemma OneMore(quota: nat, run: seq<Event>, e: Event)
    requires Legal(quota, run) && Enabled(After(quota, run), e)
    ensures Legal(quota, run + [e]) && After(quota, run + [e]) == Step(quota, After(quota, run), e)
  {
    assert (run + [e])[..|run|] == run;
  }

  lemma WalletIsValid()
    ensures IsValidEvmAddress(WALLET)
  {
  }

  lemma StoredFirst(user: Uuid, wallet: string, draw: Draw) returns (job: ScanJob)
    requires draw.failure.None? && IsValidEvmAddress(wallet)
    ensures Launched(map[], 1, user, wallet, Agent, draw.createdAt, draw).0 == map[draw.id := job]
    ensures job.id == draw.id && job.status == JobStatus.Pending
  {
    AcceptedAddressStays(wallet);
    assert CreatedSince(map[], user, draw.createdAt - DAY) == {};
    job := NewJob(user, wallet, Agent, None, draw.id, draw.createdAt).value;
  }

  /** A worker completes the job between the reaper's snapshot and its write-back: the job ends failed. */
  lemma ReaperOverwritesCompletion(id: Uuid, user: Uuid, created: nat, completed: nat, reaped: nat)
    returns (run: seq<Event>, late: Event)
    ensures Legal(1, run + [late]) && late.WriteBack? && late.act.Fail?
    ensures id in After(1, run).jobs && After(1, run).jobs[id].status == Completed
    ensures id in After(1, run + [late]).jobs && After(1, run + [late]).jobs[id].status == JobStatus.Failed
  {
    late := WriteBack(1, Act.Fail("timed out", reaped));
    var job;
    run, job := CopiesTaken(id, user, created);
    var finish := WriteBack(0, Act.Complete(completed));
    OneMore(1, run, finish);
    run := run + [finish];
    OneMore(1, run, late);
  }

  /** A run in which the worker and the reaper both hold a copy of a pending job. */
  lemma CopiesTaken(id: Uuid, user: Uuid, created: nat) returns (run: seq<Event>, job: ScanJob)
    ensures Legal(1, run) && After(1, run) == State(map[id := job], map[], [job, job], {})
    ensures job.id == id && job.status == JobStatus.Pending
  {
    var draw := Draw(id, created, None);
    var launch, read := Launch(user, WALLET, Agent, created, draw), Read(id);
    WalletIsValid();
    job := StoredFirst(user, WALLET, draw);
    OneMore(1, [], launch);
    assert [] + [launch] == [launch];
    OneMore(1, [launch], read);
    OneMore(1, [launch] + [read], read);
    run := [launch] + [read] + [read];
  }
}
