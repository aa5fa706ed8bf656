/** Launches with the quota check and the insert apart: other requests of the same user may pass the
    check before the first of them has stored its job. */
module LaunchRuns {
  import opened Common
  import opened Jobs
  import opened JobFlows
  import JobRuns

  /** A launch, or a due scan of a tick, that has passed the quota check at `checkedAt`. */
  datatype Flight = Flight(user: Uuid, checkedAt: nat)

  /** `Other` is every event of the job system but a whole launch or tick. A flight may also be given up,
      for an invalid wallet or a request cut short. */
  datatype Event =
    | Check(ticket: nat, user: Uuid, now: nat)
    | Store(ticket: nat, wallet: string, mode: JobMode, recurring: Option<Uuid>, draw: Draw)
    | GiveUp(ticket: nat)
    | Other(e: JobRuns.Event)

  datatype State = State(rest: JobRuns.State, flights: map<nat, Flight>)

  const START := State(JobRuns.EMPTY, map[])

  ghost predicate Enabled(s: State, e: Event)
  {
    match e
    case Check(ticket, _, _) => ticket !in s.flights
    case Store(ticket, _, _, _, draw) =>
      ticket in s.flights && draw.id !in s.rest.jobs && s.flights[ticket].checkedAt <= draw.createdAt
    case GiveUp(_) => true
    case Other(o) => !o.Launch? && !o.TickAt? && JobRuns.Enabled(s.rest, o)
  }

  function Stored(jobs: JobMap, user: Uuid, wallet: string, mode: JobMode, recurring: Option<Uuid>, draw: Draw): JobMap
  {
    match NewJob(user, wallet, mode, recurring, draw.id, draw.createdAt)
    case Err(_) => jobs
    case Ok(job) => Dispatched(jobs, job, draw.failure)
  }

  ghost function Step(quota: nat, s: State, e: Event): State
    requires Enabled(s, e)
  {
    match e
    case Check(ticket, user, now) =>
      if |CreatedSince(s.rest.jobs, user, now - DAY)| >= quota then s
      else s.(flights := s.flights[ticket := Flight(user, now)])
    case Store(ticket, wallet, mode, recurring, draw) =>
      var jobs := Stored(s.rest.jobs, s.flights[ticket].user, wallet, mode, recurring, draw);
      State(s.rest.(jobs := jobs), s.flights - {ticket})
    case GiveUp(ticket) => s.(flights := s.flights - {ticket})
    case Other(o) => s.(rest := JobRuns.Step(quota, s.rest, o))
  }

  ghost predicate Legal(quota: nat, run: seq<Event>)
    decreases |run|, 0
  {
    run == [] || (Legal(quota, run[..|run| - 1]) && Enabled(After(quota, run[..|run| - 1]), run[|run| - 1]))
  }

  ghost function After(quota: nat, run: seq<Event>): State
    requires Legal(quota, run)
    decreases |run|, 1
  {
    if run == [] then START else Step(quota, After(quota, run[..|run| - 1]), run[|run| - 1])
  }

  /** A check and its insert with nothing in between are the launch. */
  lemma LaunchIsItsCalls(quota: nat, s: State, ticket: nat, user: Uuid, wallet: string, mode: JobMode, now: nat,
                         draw: Draw)
    requires ticket !in s.flights && draw.id !in s.rest.jobs && now <= draw.createdAt
    ensures var checked := Step(quota, s, Check(ticket, user, now));
            var launched := Launched(s.rest.jobs, quota, user, wallet, mode, now, draw);
            if launched.1 == Err(QuotaExceeded(quota)) then checked == s && launched.0 == s.rest.jobs
            else
              && Enabled(checked, Store(ticket, wallet, mode, None, draw))
              && Step(quota, checked, Store(ticket, wallet, mode, None, draw))
                 == s.(rest := s.rest.(jobs := launched.0))
  {
    assert s.flights[ticket := Flight(user, now)] - {ticket} == s.flights;
  }

  // ---------------------------------------------------------------- what every run keeps

  ghost predicate Filed(s: JobRuns.State)
  {
    && (forall id :: id in s.jobs ==> s.jobs[id].id == id && s.jobs[id].createdAt % 1000 == 0)
    && JobRuns.HandsInv(s)
  }

  lemma OtherSameJobs(quota: nat, s: JobRuns.State, e: JobRuns.Event)
    requires Filed(s) && !e.Launch? && !e.TickAt?
    ensures JobRuns.SameJobs(s.jobs, JobRuns.Step(quota, s, e).jobs)
  {
    if e.WriteBack? && e.hand < |s.hands| {
      JobRuns.WriteBackKeepsJobs(s.jobs, s.hands[e.hand], e.act);
    }
  }

  lemma OtherKeepsJobs(quota: nat, s: JobRuns.State, e: JobRuns.Event)
    requires Filed(s) && !e.Launch? && !e.TickAt?
    ensures JobRuns.SameJobs(s.jobs, JobRuns.Step(quota, s, e).jobs) && Filed(JobRuns.Step(quota, s, e))
  {
    OtherSameJobs(quota, s, e);
    assert forall id :: id in s.jobs ==> JobRuns.Fixed(JobRuns.Step(quota, s, e).jobs[id]) == JobRuns.Fixed(s.jobs[id]);
  }

  lemma StoredKeepsJobs(s: JobRuns.State, user: Uuid, wallet: string, mode: JobMode, recurring: Option<Uuid>,
                        draw: Draw)
    requires Filed(s) && draw.id !in s.jobs
    ensures Filed(s.(jobs := Stored(s.jobs, user, wallet, mode, recurring, draw)))
  {
    var made := NewJob(user, wallet, mode, recurring, draw.id, draw.createdAt);
    if made.Ok? {
      JobRuns.DispatchAddsOne(s.jobs, made.value, draw.failure);
      JobRuns.WholeMicros(draw.createdAt);
      var after := Dispatched(s.jobs, made.value, draw.failure);
      assert JobRuns.Fixed(after[draw.id]) == JobRuns.Fixed(made.value);
    }
  }

  lemma {:induction false} Reachable(quota: nat, run: seq<Event>)
    requires Legal(quota, run)
    ensures Filed(After(quota, run).rest)
  {
    if run != [] {
      var s, e := After(quota, run[..|run| - 1]), run[|run| - 1];
      Reachable(quota, run[..|run| - 1]);
      match e
      case Store(ticket, wallet, mode, recurring, draw) =>
        StoredKeepsJobs(s.rest, s.flights[ticket].user, wallet, mode, recurring, draw);
      case Other(o) => OtherKeepsJobs(quota, s.rest, o);
      case _ =>
    }
  }

  // ---------------------------------------------------------------- the bound

  /** The launches of a user in flight. */
  ghost function Flying(flights: map<nat, Flight>, user: Uuid): set<nat>
  {
    set ticket | ticket in flights && flights[ticket].user == user
  }

  /** Those whose job may still be created in the day up to `t`. */
  ghost function Landing(flights: map<nat, Flight>, user: Uuid, t: int): set<nat>
  {
    set ticket | ticket in flights && flights[ticket].user == user && Micros(flights[ticket].checkedAt) <= t
  }

  /** The jobs of the day and those that may still join them. */
  ghost function Load(s: State, user: Uuid, t: int): nat
  {
    |JobRuns.InDay(s.rest.jobs, user, t)| + |Landing(s.flights, user, t)|
  }

  lemma LandingFly(flights: map<nat, Flight>, user: Uuid, t: int)
    ensures |Landing(flights, user, t)| <= |Flying(flights, user)|
  {
    SubsetSize(Landing(flights, user, t), Flying(flights, user));
  }

  lemma MicrosGrow(a: nat, b: nat)
    requires a <= b
    ensures Micros(a) <= Micros(b)
  {
  }

  /** A launch that passes its check has counted every job of the day it may land in. */
  lemma CheckCounts(jobs: JobMap, user: Uuid, now: nat, t: int)
    requires forall id :: id in jobs ==> jobs[id].createdAt % 1000 == 0
    requires Micros(now) <= t
    ensures |JobRuns.InDay(jobs, user, t)| <= |CreatedSince(jobs, user, now - DAY)|
  {
    forall id | id in JobRuns.InDay(jobs, user, t) ensures id in CreatedSince(jobs, user, now - DAY) {
      WithinADay(jobs[id].createdAt, now, t);
    }
    SubsetSize(JobRuns.InDay(jobs, user, t), CreatedSince(jobs, user, now - DAY));
  }

  lemma WithinADay(created: nat, now: nat, t: int)
    requires created % 1000 == 0 && Micros(now) <= t && t - DAY < created
    ensures created >= now - DAY
  {
    JobRuns.WholeMicros(now);
    JobRuns.MicrosApart(Micros(now), created, 24 * 60 * 60 * 1_000_000);
  }

  lemma CheckKeepsLoad(quota: nat, s: State, e: Event, user: Uuid, t: int, k: nat)
    requires Filed(s.rest) && Enabled(s, e) && e.Check?
    requires Load(s, user, t) < quota + k && |Flying(Step(quota, s, e).flights, user)| <= k
    ensures Load(Step(quota, s, e), user, t) < quota + k
  {
    var after := Step(quota, s, e);
    LandingFly(after.flights, user, t);
    if e.user == user && Micros(e.now) <= t {
      CheckCounts(s.rest.jobs, user, e.now, t);
    } else {
      assert Landing(after.flights, user, t) == Landing(s.flights, user, t);
    }
  }

  lemma LandingLess(flights: map<nat, Flight>, ticket: nat, user: Uuid, t: int)
    ensures Landing(flights - {ticket}, user, t) == Landing(flights, user, t) - {ticket}
  {
  }

  lemma SameDays(a: JobMap, b: JobMap, user: Uuid, t: int)
    requires JobRuns.SameJobs(a, b)
    ensures JobRuns.InDay(a, user, t) == JobRuns.InDay(b, user, t)
  {
    assert forall id :: id in a ==> JobRuns.Fixed(a[id]) == JobRuns.Fixed(b[id]);
  }

  lemma StoredInDay(jobs: JobMap, user: Uuid, wallet: string, mode: JobMode, recurring: Option<Uuid>, draw: Draw,
                    who: Uuid, t: int)
    requires draw.id !in jobs
    ensures JobRuns.InDay(Stored(jobs, user, wallet, mode, recurring, draw), who, t)
            <= JobRuns.InDay(jobs, who, t) + if who == user && Micros(draw.createdAt) <= t then {draw.id} else {}
  {
    var made := NewJob(user, wallet, mode, recurring, draw.id, draw.createdAt);
    if made.Ok? {
      JobRuns.DispatchAddsOne(jobs, made.value, draw.failure);
      SameDays(jobs[draw.id := made.value], Dispatched(jobs, made.value, draw.failure), who, t);
      JobRuns.InDayAfter(jobs, made.value, who, t);
    }
  }

  lemma StoreKeepsLoad(quota: nat, s: State, e: Event, user: Uuid, t: int)
    requires Enabled(s, e) && e.Store?
    ensures Load(Step(quota, s, e), user, t) <= Load(s, user, t)
  {
    var f := s.flights[e.ticket];
    var after := Step(quota, s, e);
    LandingLess(s.flights, e.ticket, user, t);
    StoredInDay(s.rest.jobs, f.user, e.wallet, e.mode, e.recurring, e.draw, user, t);
    MicrosGrow(f.checkedAt, e.draw.createdAt);
    var more: set<Uuid> := if user == f.user && Micros(e.draw.createdAt) <= t then {e.draw.id} else {};
    SubsetSize(JobRuns.InDay(after.rest.jobs, user, t), JobRuns.InDay(s.rest.jobs, user, t) + more);
  }

  lemma StepKeepsLoad(quota: nat, s: State, e: Event, user: Uuid, t: int, k: nat)
    requires Filed(s.rest) && Enabled(s, e) && |Flying(Step(quota, s, e).flights, user)| <= k
    requires Load(s, user, t) < quota + k
    ensures Load(Step(quota, s, e), user, t) < quota + k
  {
    match e
    case Check(_, _, _) => CheckKeepsLoad(quota, s, e, user, t, k);
    case Store(_, _, _, _, _) => StoreKeepsLoad(quota, s, e, user, t);
    case GiveUp(ticket) => LandingLess(s.flights, ticket, user, t);
    case Other(o) =>
      OtherKeepsJobs(quota, s.rest, o);
      SameDays(s.rest.jobs, JobRuns.Step(quota, s.rest, o).jobs, user, t);
  }

  /** The user never has more than `k` launches in flight. */
  ghost predicate AtMost(quota: nat, run: seq<Event>, user: Uuid, k: nat)
    requires Legal(quota, run)
  {
    && |Flying(After(quota, run).flights, user)| <= k
    && (run == [] || AtMost(quota, run[..|run| - 1], user, k))
  }

  lemma {:induction false} LoadBounded(quota: nat, run: seq<Event>, user: Uuid, t: int, k: nat)
    requires Legal(quota, run) && AtMost(quota, run, user, k) && k > 0
    ensures Load(After(quota, run), user, t) < quota + k
  {
    if run == [] {
      assert JobRuns.InDay(map[], user, t) == {} && Landing(map[], user, t) == {};
    } else {
      var init := run[..|run| - 1];
      LoadBounded(quota, init, user, t, k);
      Reachable(quota, init);
      StepKeepsLoad(quota, After(quota, init), run[|run| - 1], user, t, k);
    }
  }

  /** However launches interleave, no day holds more jobs of a user than the quota and one less than the
      launches that were ever in flight together. */
  lemma QuotaWithOverlap(quota: nat, run: seq<Event>, user: Uuid, t: int, k: nat)
    requires Legal(quota, run) && AtMost(quota, run, user, k) && k > 0
    ensures |JobRuns.InDay(After(quota, run).rest.jobs, user, t)| <= quota + k - 1
  {
    LoadBounded(quota, run, user, t, k);
  }

  // ---------------------------------------------------------------- runs that reach the bound

  /** `n` jobs of the user, all created at the first instant, and `flying` launches checked then. */
  ghost predicate Crowd(s: State, user: Uuid, n: nat, flying: nat)
  {
    && |s.rest.jobs.Keys| == n
    && (forall id :: id in s.rest.jobs ==> id < n && s.rest.jobs[id].userId == user && s.rest.jobs[id].createdAt == 0)
    && (forall ticket :: ticket in s.flights <==> 0 <= ticket < flying)
    && (forall ticket :: ticket in s.flights ==> s.flights[ticket] == Flight(user, 0))
  }

  lemma OneMore(quota: nat, run: seq<Event>, e: Event)
    requires Legal(quota, run) && Enabled(After(quota, run), e)
    ensures Legal(quota, run + [e]) && After(quota, run + [e]) == Step(quota, After(quota, run), e)
    ensures forall user, k ::
              AtMost(quota, run + [e], user, k)
              <==> AtMost(quota, run, user, k) && |Flying(After(quota, run + [e]).flights, user)| <= k
  {
    assert (run + [e])[..|run|] == run;
  }

  lemma {:induction false} CrowdFlying(flights: map<nat, Flight>, user: Uuid, n: nat)
    requires forall ticket :: ticket in flights <==> 0 <= ticket < n
    requires forall ticket :: ticket in flights ==> flights[ticket].user == user
    ensures |Flying(flights, user)| == n
  {
    if n == 0 {
      assert Flying(flights, user) == {};
    } else {
      CrowdFlying(flights - {n - 1}, user, n - 1);
      assert Flying(flights, user) == Flying(flights - {n - 1}, user) + {n - 1};
    }
  }

  lemma CrowdInDay(s: State, user: Uuid, n: nat, flying: nat)
    requires Crowd(s, user, n, flying)
    ensures |JobRuns.InDay(s.rest.jobs, user, 0)| == |CreatedSince(s.rest.jobs, user, 0 - DAY)| == n
  {
    assert JobRuns.InDay(s.rest.jobs, user, 0) == s.rest.jobs.Keys;
    assert CreatedSince(s.rest.jobs, user, 0 - DAY) == s.rest.jobs.Keys;
  }

  lemma CrowdChecks(quota: nat, s: State, user: Uuid, n: nat, flying: nat) returns (e: Event)
    requires Crowd(s, user, n, flying) && n < quota
    ensures Enabled(s, e) && Crowd(Step(quota, s, e), user, n, flying + 1)
  {
    e := Check(flying, user, 0);
    CrowdInDay(s, user, n, flying);
  }

  lemma OneStored(jobs: JobMap, user: Uuid, wallet: string, id: Uuid) returns (job: ScanJob)
    requires IsValidEvmAddress(wallet)
    ensures Stored(jobs, user, wallet, Agent, None, Draw(id, 0, None)) == jobs[id := job]
    ensures job.userId == user && job.createdAt == 0
  {
    AcceptedAddressStays(wallet);
    job := NewJob(user, wallet, Agent, None, id, 0).value;
  }

  lemma CrowdGrows(s: State, user: Uuid, n: nat, flying: nat, job: ScanJob)
    requires Crowd(s, user, n, flying) && flying > 0 && job.userId == user && job.createdAt == 0
    ensures Crowd(State(s.rest.(jobs := s.rest.jobs[n := job]), s.flights - {flying - 1}), user, n + 1, flying - 1)
  {
    assert s.rest.jobs[n := job].Keys == s.rest.jobs.Keys + {n};
  }

  lemma CrowdEnables(s: State, user: Uuid, wallet: string, n: nat, flying: nat, e: Event)
    requires Crowd(s, user, n, flying) && flying > 0
    requires e == Store(flying - 1, wallet, Agent, None, Draw(n, 0, None))
    ensures Enabled(s, e) && s.flights[flying - 1].user == user
  {
    assert flying - 1 in s.flights && s.flights[flying - 1] == Flight(user, 0);
  }

  lemma CrowdStored(quota: nat, s: State, user: Uuid, n: nat, flying: nat, e: Event, job: ScanJob)
    requires Crowd(s, user, n, flying) && flying > 0 && job.userId == user && job.createdAt == 0
    requires Enabled(s, e) && e.Store? && e.ticket == flying - 1
    requires Stored(s.rest.jobs, s.flights[e.ticket].user, e.wallet, e.mode, e.recurring, e.draw)
             == s.rest.jobs[n := job]
    ensures Crowd(Step(quota, s, e), user, n + 1, flying - 1)
  {
    CrowdGrows(s, user, n, flying, job);
  }

  lemma CrowdStores(quota: nat, s: State, user: Uuid, wallet: string, n: nat, flying: nat) returns (e: Event)
    requires IsValidEvmAddress(wallet) && Crowd(s, user, n, flying) && flying > 0
    ensures Enabled(s, e) && Crowd(Step(quota, s, e), user, n + 1, flying - 1)
  {
    e := Store(flying - 1, wallet, Agent, None, Draw(n, 0, None));
    CrowdEnables(s, user, wallet, n, flying, e);
    var job := OneStored(s.rest.jobs, user, wallet, n);
    CrowdStored(quota, s, user, n, flying, e, job);
  }

  /** `n` launches one after the other. */
  lemma {:induction false} OneByOne(quota: nat, user: Uuid, wallet: string, n: nat) returns (run: seq<Event>)
    requires n <= quota && IsValidEvmAddress(wallet)
    ensures Legal(quota, run) && Crowd(After(quota, run), user, n, 0) && AtMost(quota, run, user, 1)
  {
    run := [];
    if n == 0 {
      CrowdFlying(map[], user, 0);
    } else {
      run := OneByOne(quota, user, wallet, n - 1);
      var check := CrowdChecks(quota, After(quota, run), user, n - 1, 0);
      OneMore(quota, run, check);
      CrowdFlying(Step(quota, After(quota, run), check).flights, user, 1);
      run := run + [check];
      var store := CrowdStores(quota, After(quota, run), user, wallet, n - 1, 1);
      OneMore(quota, run, store);
      CrowdFlying(Step(quota, After(quota, run), store).flights, user, 0);
      run := run + [store];
    }
  }

  lemma {:induction false} AtMostMore(quota: nat, run: seq<Event>, user: Uuid, k: nat, more: nat)
    requires Legal(quota, run) && AtMost(quota, run, user, k) && k <= more
    ensures AtMost(quota, run, user, more)
  {
    if run != [] {
      AtMostMore(quota, run[..|run| - 1], user, k, more);
    }
  }

  /** Then `m` more that pass the check together. */
  lemma {:induction false} Together(quota: nat, user: Uuid, wallet: string, k: nat, m: nat) returns (run: seq<Event>)
    requires 0 < quota && 0 < k && m <= k && IsValidEvmAddress(wallet)
    ensures Legal(quota, run) && Crowd(After(quota, run), user, quota - 1, m) && AtMost(quota, run, user, k)
  {
    if m == 0 {
      run := OneByOne(quota, user, wallet, quota - 1);
      AtMostMore(quota, run, user, 1, k);
    } else {
      run := Together(quota, user, wallet, k, m - 1);
      var check := CrowdChecks(quota, After(quota, run), user, quota - 1, m - 1);
      OneMore(quota, run, check);
      CrowdFlying(Step(quota, After(quota, run), check).flights, user, m);
      run := run + [check];
    }
  }

  /** Then `m` of those store their jobs. */
  lemma {:induction false} AllStore(quota: nat, user: Uuid, wallet: string, k: nat, m: nat) returns (run: seq<Event>)
    requires 0 < quota && 0 < k && m <= k && IsValidEvmAddress(wallet)
    ensures Legal(quota, run) && Crowd(After(quota, run), user, quota - 1 + m, k - m) && AtMost(quota, run, user, k)
  {
    if m == 0 {
      run := Together(quota, user, wallet, k, k);
    } else {
      run := AllStore(quota, user, wallet, k, m - 1);
      var store := CrowdStores(quota, After(quota, run), user, wallet, quota - 1 + (m - 1), k - (m - 1));
      OneMore(quota, run, store);
      CrowdFlying(Step(quota, After(quota, run), store).flights, user, k - m);
      run := run + [store];
    }
  }

  /** The bound is reached for every quota and every number of launches in flight together. */
  lemma OverlapReached(quota: nat, user: Uuid, wallet: string, k: nat) returns (run: seq<Event>)
    requires 0 < quota && 0 < k && IsValidEvmAddress(wallet)
    ensures Legal(quota, run) && AtMost(quota, run, user, k)
    ensures |JobRuns.InDay(After(quota, run).rest.jobs, user, 0)| == quota + k - 1
  {
    run := AllStore(quota, user, wallet, k, k);
    CrowdInDay(After(quota, run), user, quota - 1 + k, 0);
  }
}
