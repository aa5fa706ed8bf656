/** What the job system promises its users, told without its own counting and checking functions: who is
    refused for the quota, what a launch stores, when a recurring scan runs, what a callback does. */
module JobGuarantees {
  import opened Common
  import opened Jobs
  import opened JobFlows
  import opened JobRuns

  // ---------------------------------------------------------------- the quota looks at the user's own day

  const A_DAY: nat := 86_400_000_000_000

  /** The user's own jobs created no earlier than `from`. */
  ghost function Own(jobs: JobMap, user: Uuid, from: int): set<Uuid>
  {
    set id | id in jobs && jobs[id].userId == user && jobs[id].createdAt >= from
  }

  lemma CountedAreOwn(jobs: JobMap, user: Uuid, from: int)
    ensures CreatedSince(jobs, user, from) == Own(jobs, user, from)
  {
  }

  /** A launch is refused for the quota if and only if the user's own jobs of the day before the check
      reach it; nothing is stored then. */
  lemma LaunchRefusedIff(jobs: JobMap, quota: nat, user: Uuid, wallet: string, mode: JobMode, checkedAt: nat,
                         draw: Draw)
    ensures var (after, answer) := Launched(jobs, quota, user, wallet, mode, checkedAt, draw);
            && (answer == Err(QuotaExceeded(quota)) <==> |Own(jobs, user, checkedAt - A_DAY)| >= quota)
            && (answer == Err(QuotaExceeded(quota)) ==> after == jobs)
  {
    CountedAreOwn(jobs, user, checkedAt - A_DAY);
  }

  /** The job a launch leaves behind: pending, or failed with the reason when the dispatcher refused it. */
  predicate IsLaunched(job: ScanJob, user: Uuid, wallet: string, mode: JobMode, recurring: Option<Uuid>, draw: Draw)
  {
    && job.id == draw.id && job.userId == user && job.walletAddress == wallet && job.mode == mode
    && job.recurringSearchId == recurring && job.usage == JobUsage(0, 0, 0, 0, 0)
    && job.createdAt <= draw.createdAt < job.createdAt + 1000
    && (match draw.failure
        case None => job.status == JobStatus.Pending && job.error.None?
        case Some(why) => job.status == JobStatus.Failed && job.error == Some("dispatch failed: " + why.0))
  }

  /** Forty hexadecimal digits behind 0x. */
  predicate IsAddress(s: string)
  {
    && |s| == 42 && s[0] == '0' && s[1] == 'x'
    && forall i :: 2 <= i < 42 ==> s[i] in "0123456789abcdefABCDEF"
  }

  lemma HexDigits(c: char)
    ensures IsHexDigit(c) <==> c in "0123456789abcdefABCDEF"
  {
    if IsHexDigit(c) {
      var digits := "0123456789abcdefABCDEF";
      if '0' <= c <= '9' {
        assert digits[(c - '0') as int] == c;
      } else if 'a' <= c <= 'f' {
        assert digits[10 + (c - 'a') as int] == c;
      } else {
        assert digits[16 + (c - 'A') as int] == c;
      }
    }
  }

  lemma AddressesAreValid(s: string)
    ensures IsValidEvmAddress(s) <==> IsAddress(s)
  {
    forall i | 2 <= i < |s| ensures IsHexDigit(s[i]) <==> s[i] in "0123456789abcdefABCDEF" {
      HexDigits(s[i]);
    }
    assert "0x" <= s <==> |s| >= 2 && s[0] == '0' && s[1] == 'x';
  }

  lemma DispatchedJob(jobs: JobMap, user: Uuid, wallet: string, mode: JobMode, recurring: Option<Uuid>, draw: Draw,
                      job: ScanJob)
    requires draw.id !in jobs && NewJob(user, wallet, mode, recurring, draw.id, draw.createdAt) == Ok(job)
    ensures var after := Dispatched(jobs, job, draw.failure);
            && after.Keys == jobs.Keys + {draw.id} && (forall id :: id in jobs ==> after[id] == jobs[id])
            && IsLaunched(after[draw.id], user, RustTrim(wallet), mode, recurring, draw)
  {
  }

  /** Below the quota an address is launched, and anything else is refused. */
  lemma LaunchStores(jobs: JobMap, quota: nat, user: Uuid, wallet: string, mode: JobMode, checkedAt: nat, draw: Draw)
    requires draw.id !in jobs && |Own(jobs, user, checkedAt - A_DAY)| < quota
    ensures var after := Launched(jobs, quota, user, wallet, mode, checkedAt, draw).0;
            && (draw.id in after <==> IsAddress(RustTrim(wallet)))
            && (draw.id !in after ==> after == jobs)
            && (draw.id in after ==>
                  && after.Keys == jobs.Keys + {draw.id} && (forall id :: id in jobs ==> after[id] == jobs[id])
                  && IsLaunched(after[draw.id], user, RustTrim(wallet), mode, None, draw))
  {
    CountedAreOwn(jobs, user, checkedAt - A_DAY);
    AddressesAreValid(RustTrim(wallet));
    var made := NewJob(user, wallet, mode, None, draw.id, draw.createdAt);
    if made.Ok? {
      DispatchedJob(jobs, user, wallet, mode, None, draw, made.value);
    }
  }

  /** A due scan is skipped if and only if its owner's own jobs of the last day reach the quota; otherwise
      its job is launched in its owner's name and bears its identifier. Either way it has run. */
  lemma DueSkippedIff(s: Sched, quota: nat, search: RecurringSearch, now: nat, draw: Draw)
    requires draw.id !in s.jobs && IsValidEvmAddress(search.walletAddress)
    ensures var after := DueRun(s, quota, search, now, draw);
            && after.failure.None? && after.state.searches == Ran(s.searches, search.id, now)
            && (draw.id !in after.state.jobs <==> |Own(s.jobs, search.userId, now - A_DAY)| >= quota)
            && (draw.id !in after.state.jobs ==> after.state.jobs == s.jobs)
            && (draw.id in after.state.jobs ==>
                  && after.state.jobs.Keys == s.jobs.Keys + {draw.id}
                  && (forall id :: id in s.jobs ==> after.state.jobs[id] == s.jobs[id])
                  && IsLaunched(after.state.jobs[draw.id], search.userId, search.walletAddress, search.mode,
                                Some(search.id), draw))
  {
    CountedAreOwn(s.jobs, search.userId, now - A_DAY);
    AcceptedAddressStays(search.walletAddress);
    var made := NewJob(search.userId, search.walletAddress, search.mode, Some(search.id), draw.id, draw.createdAt);
    DispatchedJob(s.jobs, search.userId, search.walletAddress, search.mode, Some(search.id), draw, made.value);
  }

  // ---------------------------------------------------------------- nobody else's jobs count

  /** The event may store a job of the user created no earlier than `from`. */
  ghost predicate MayLaunch(e: Event, user: Uuid, from: int)
  {
    || (e.Launch? && e.user == user && e.draw.createdAt >= from)
    || (e.TickAt? && exists i :: 0 <= i < |e.due| && e.due[i].userId == user && e.draws(i).createdAt >= from)
  }

  lemma SameJobsSameOwn(a: JobMap, b: JobMap, user: Uuid, from: int)
    requires SameJobs(a, b)
    ensures Own(a, user, from) == Own(b, user, from)
  {
    assert forall id :: id in a ==> Fixed(a[id]) == Fixed(b[id]);
  }

  lemma OneMoreOwn(jobs: JobMap, after: JobMap, id: Uuid, user: Uuid, from: int)
    requires id !in jobs && after.Keys == jobs.Keys + {id}
    requires forall other :: other in jobs ==> after[other] == jobs[other]
    requires after[id].userId != user || after[id].createdAt < from
    ensures Own(after, user, from) == Own(jobs, user, from)
  {
  }

  lemma LaunchKeepsOwn(jobs: JobMap, quota: nat, user: Uuid, wallet: string, mode: JobMode, checkedAt: nat, draw: Draw,
                       who: Uuid, from: int)
    requires draw.id !in jobs && (user == who ==> draw.createdAt < from)
    ensures Own(Launched(jobs, quota, user, wallet, mode, checkedAt, draw).0, who, from) == Own(jobs, who, from)
  {
    var made := NewJob(user, wallet, mode, None, draw.id, draw.createdAt);
    if made.Ok? {
      DispatchedJob(jobs, user, wallet, mode, None, draw, made.value);
      OneMoreOwn(jobs, Dispatched(jobs, made.value, draw.failure), draw.id, who, from);
    }
  }

  lemma DueKeepsOwn(s: Sched, quota: nat, search: RecurringSearch, now: nat, draw: Draw, who: Uuid, from: int)
    requires draw.id !in s.jobs && IsValidEvmAddress(search.walletAddress)
    requires search.userId == who ==> draw.createdAt < from
    ensures Own(DueRun(s, quota, search, now, draw).state.jobs, who, from) == Own(s.jobs, who, from)
  {
    DueSkippedIff(s, quota, search, now, draw);
    if draw.id in DueRun(s, quota, search, now, draw).state.jobs {
      OneMoreOwn(s.jobs, DueRun(s, quota, search, now, draw).state.jobs, draw.id, who, from);
    }
  }

  lemma {:induction false} TickKeepsOwn(s: Sched, quota: nat, due: seq<RecurringSearch>, now: nat, draws: nat -> Draw,
                                        who: Uuid, from: int)
    requires JobsInv(s.jobs, quota) && Launchable(due) && FreshDraws(s.jobs, |due|, now, draws)
    requires forall i :: 0 <= i < |due| && due[i].userId == who ==> draws(i).createdAt < from
    ensures Own(Tick(s, quota, due, now, draws).state.jobs, who, from) == Own(s.jobs, who, from)
  {
    if due != [] {
      var n := |due| - 1;
      TickKeepsOwn(s, quota, due[..n], now, draws, who, from);
      TickKeepsQuota(s, quota, due[..n], now, draws);
      var before := Tick(s, quota, due[..n], now, draws);
      assert draws(n).id !in before.state.jobs;
      DueKeepsOwn(before.state, quota, due[n], now, draws(n), who, from);
    }
  }

  lemma StepKeepsOwn(quota: nat, s: State, e: Event, user: Uuid, from: int)
    requires Inv(quota, s) && Enabled(s, e) && !MayLaunch(e, user, from)
    ensures Own(Step(quota, s, e).jobs, user, from) == Own(s.jobs, user, from)
  {
    match e
    case Launch(owner, wallet, mode, checkedAt, draw) =>
      LaunchKeepsOwn(s.jobs, quota, owner, wallet, mode, checkedAt, draw, user, from);
    case TickAt(now, due, draws) =>
      assert Launchable(due);
      TickKeepsOwn(Sched(s.jobs, s.searches, 0), quota, due, now, draws, user, from);
    case WriteBack(hand, act) =>
      if hand < |s.hands| {
        WriteBackKeepsJobs(s.jobs, s.hands[hand], act);
        SameJobsSameOwn(s.jobs, WrittenBack(s.jobs, s.hands[hand], act), user, from);
      }
    case Spend(id, usage) => SameJobsSameOwn(s.jobs, UsageAdded(s.jobs, id, usage), user, from);
    case _ =>
  }

  lemma {:induction false} OwnStays(quota: nat, run: seq<Event>, more: seq<Event>, user: Uuid, from: int)
    requires Legal(quota, run + more)
    requires forall i :: 0 <= i < |more| ==> !MayLaunch(more[i], user, from)
    ensures Legal(quota, run)
    ensures Own(After(quota, run + more).jobs, user, from) == Own(After(quota, run).jobs, user, from)
  {
    if more == [] {
      assert run + more == run;
    } else {
      var init, e := more[..|more| - 1], more[|more| - 1];
      assert (run + more)[..|run + more| - 1] == run + init;
      OwnStays(quota, run, init, user, from);
      Reachable(quota, run + init);
      StepKeepsOwn(quota, After(quota, run + init), e, user, from);
    }
  }

  /** Whatever else a run does, other users' launches, jobs older than a day and all callbacks leave the
      answer to a launch as it was. */
  lemma OnlyOwnDayCounts(quota: nat, run: seq<Event>, more: seq<Event>, user: Uuid, wallet: string, mode: JobMode,
                         checkedAt: nat, draw: Draw)
    requires Legal(quota, run + more)
    requires forall i :: 0 <= i < |more| ==> !MayLaunch(more[i], user, checkedAt - A_DAY)
    ensures Legal(quota, run)
    ensures Launched(After(quota, run + more).jobs, quota, user, wallet, mode, checkedAt, draw).1
            == Launched(After(quota, run).jobs, quota, user, wallet, mode, checkedAt, draw).1
  {
    OwnStays(quota, run, more, user, checkedAt - A_DAY);
    CountedAreOwn(After(quota, run + more).jobs, user, checkedAt - A_DAY);
    CountedAreOwn(After(quota, run).jobs, user, checkedAt - A_DAY);
  }

  // ---------------------------------------------------------------- when a recurring scan runs

  /** When a tick of the run last served the scan. */
  ghost function LastServed(run: seq<Event>, id: Uuid): Option<nat>
  {
    if run == [] then None
    else
      var e := run[|run| - 1];
      if Serves(e, id) then Some(e.now) else LastServed(run[..|run| - 1], id)
  }

  lemma StepServes(quota: nat, s: State, e: Event, id: Uuid)
    requires Inv(quota, s) && Enabled(s, e)
    ensures s.known <= Step(quota, s, e).known
    ensures Serves(e, id) ==> id in s.searches
    ensures id in s.known && id in Step(quota, s, e).searches ==>
              && id in s.searches
              && Step(quota, s, e).searches[id]
                 == if Serves(e, id) then s.searches[id].(lastRunAt := Some(e.now)) else s.searches[id]
    ensures id !in s.known && id in Step(quota, s, e).searches ==> Step(quota, s, e).searches[id].lastRunAt.None?
  {
    if e.TickAt? {
      TickIsOk(quota, s, e.now, e.due, e.draws);
    }
  }

  lemma {:induction false} LastRunIsLastServed(quota: nat, run: seq<Event>, id: Uuid)
    requires Legal(quota, run)
    ensures var s := After(quota, run);
            && (id in s.searches ==> s.searches[id].lastRunAt == LastServed(run, id))
            && (LastServed(run, id).Some? ==> id in s.known)
  {
    if run != [] {
      var init := run[..|run| - 1];
      LastRunIsLastServed(quota, init, id);
      Reachable(quota, init);
      StepServes(quota, After(quota, init), run[|run| - 1], id);
    }
  }

  /** A tick serves exactly the stored scans no tick has served yet and those whose last serving tick is
      an interval of minutes ago. */
  lemma TickServesIff(quota: nat, run: seq<Event>, tick: Event, id: Uuid)
    requires Legal(quota, run) && tick.TickAt? && Enabled(After(quota, run), tick)
    ensures Serves(tick, id)
            <==> && id in After(quota, run).searches
                 && (LastServed(run, id).None?
                     || LastServed(run, id).value
                        + After(quota, run).searches[id].intervalMinutes * 60_000_000_000 <= tick.now)
  {
    Reachable(quota, run);
    LastRunIsLastServed(quota, run, id);
    var s := After(quota, run);
    if id in s.searches && s.searches[id].IsDue(tick.now) {
      var k :| 0 <= k < |tick.due| && tick.due[k] == s.searches[id];
    }
    if Serves(tick, id) {
      var k :| 0 <= k < |tick.due| && tick.due[k].id == id;
    }
  }

  /** A recurring scan goes only by its owner's hand and comes only by a request that is accepted; jobs
      never go. */
  lemma ScansComeAndGo(quota: nat, s: State, e: Event, id: Uuid)
    requires Inv(quota, s) && Enabled(s, e)
    ensures var after := Step(quota, s, e);
            && (id in s.searches && id !in after.searches
                <==> e.DropSearch? && e.searchId == id && id in s.searches && s.searches[id].userId == e.user)
            && (id !in s.searches && id in after.searches
                <==> && e.AddSearch? && e.searchId == id
                     && NewRecurring(e.user, e.wallet, e.mode, e.interval, e.url, id, e.now).Ok?)
            && (id in s.jobs ==> id in after.jobs)
  {
    match e
    case Launch(user, wallet, mode, checkedAt, draw) =>
      LaunchOnlyAdds(quota, s, user, wallet, mode, checkedAt, draw);
    case TickAt(now, due, draws) => TickIsOk(quota, s, now, due, draws);
    case WriteBack(hand, act) =>
      if hand < |s.hands| {
        WriteBackKeepsJobs(s.jobs, s.hands[hand], act);
      }
    case _ =>
  }

  // ---------------------------------------------------------------- what is stored is valid

  predicate IsWebhook(url: string)
  {
    0 < |url| <= 2_048 && ("https://" <= url || "http://" <= url) && RustTrim(url) == url
  }

  /** From one minute to one week, on an address, and reporting to a web address if anywhere. */
  predicate IsSound(search: RecurringSearch)
  {
    && 1 <= search.intervalMinutes <= 10_080 && IsAddress(search.walletAddress)
    && (search.webhookUrl.Some? ==> IsWebhook(search.webhookUrl.value))
  }

  ghost predicate AllSound(s: State)
  {
    && (forall id :: id in s.jobs ==> IsAddress(s.jobs[id].walletAddress))
    && (forall id :: id in s.searches ==> IsSound(s.searches[id]))
  }

  /** The web address a request names, if it names one. */
  function NamedWebhook(url: Option<string>): Option<string>
  {
    if url.Some? && RustTrim(url.value) != [] then Some(RustTrim(url.value)) else None
  }

  /** A recurring scan is created exactly for an address, an interval from one minute to one week and a
      web address, if any; it is what was asked for and has not run. */
  lemma CreatedIsSound(user: Uuid, wallet: string, mode: JobMode, interval: nat, url: Option<string>, id: Uuid,
                       now: nat)
    ensures var made := NewRecurring(user, wallet, mode, interval, url, id, now);
            && (made.Ok?
                <==> && IsAddress(RustTrim(wallet)) && 1 <= interval <= 10_080
                     && (NamedWebhook(url).Some? ==> IsWebhook(NamedWebhook(url).value)))
            && (made.Ok? ==>
                  && IsSound(made.value) && made.value.userId == user && made.value.id == id && made.value.mode == mode
                  && made.value.walletAddress == RustTrim(wallet) && made.value.intervalMinutes == interval
                  && made.value.webhookUrl == NamedWebhook(url) && made.value.lastRunAt.None?)
  {
    AddressesAreValid(RustTrim(wallet));
    if url.Some? {
      TrimIdempotent(url.value, IsWhiteSpace);
    }
  }

  lemma StepKeepsSound(quota: nat, s: State, e: Event)
    requires Inv(quota, s) && Enabled(s, e) && AllSound(s)
    ensures AllSound(Step(quota, s, e))
  {
    match e
    case Launch(owner, wallet, mode, checkedAt, draw) =>
      LaunchKeepsSound(s.jobs, quota, owner, wallet, mode, checkedAt, draw);
    case TickAt(now, due, draws) =>
      TickIsOk(quota, s, now, due, draws);
      TickKeepsSound(Sched(s.jobs, s.searches, 0), quota, due, now, draws);
    case AddSearch(owner, wallet, mode, interval, url, id, now) =>
      CreatedIsSound(owner, wallet, mode, interval, url, id, now);
    case WriteBack(hand, act) =>
      if hand < |s.hands| {
        WriteBackKeepsJobs(s.jobs, s.hands[hand], act);
        SameJobsStaySound(s.jobs, WrittenBack(s.jobs, s.hands[hand], act));
      }
    case Spend(id, usage) => SameJobsStaySound(s.jobs, UsageAdded(s.jobs, id, usage));
    case _ =>
  }

  lemma SameJobsStaySound(a: JobMap, b: JobMap)
    requires SameJobs(a, b) && forall id :: id in a ==> IsAddress(a[id].walletAddress)
    ensures forall id :: id in b ==> IsAddress(b[id].walletAddress)
  {
    assert forall id :: id in a ==> Fixed(a[id]) == Fixed(b[id]);
  }

  lemma LaunchKeepsSound(jobs: JobMap, quota: nat, user: Uuid, wallet: string, mode: JobMode, checkedAt: nat,
                         draw: Draw)
    requires draw.id !in jobs && forall id :: id in jobs ==> IsAddress(jobs[id].walletAddress)
    ensures var after := Launched(jobs, quota, user, wallet, mode, checkedAt, draw).0;
            forall id :: id in after ==> IsAddress(after[id].walletAddress)
  {
    AddressesAreValid(RustTrim(wallet));
    var made := NewJob(user, wallet, mode, None, draw.id, draw.createdAt);
    if made.Ok? {
      DispatchedJob(jobs, user, wallet, mode, None, draw, made.value);
    }
  }

  lemma DueKeepsSound(s: Sched, quota: nat, search: RecurringSearch, now: nat, draw: Draw)
    requires draw.id !in s.jobs && IsValidEvmAddress(search.walletAddress)
    requires forall id :: id in s.jobs ==> IsAddress(s.jobs[id].walletAddress)
    ensures var after := DueRun(s, quota, search, now, draw).state.jobs;
            forall id :: id in after ==> IsAddress(after[id].walletAddress)
  {
    DueSkippedIff(s, quota, search, now, draw);
    AddressesAreValid(search.walletAddress);
  }

  lemma {:induction false} TickKeepsSound(s: Sched, quota: nat, due: seq<RecurringSearch>, now: nat,
                                          draws: nat -> Draw)
    requires JobsInv(s.jobs, quota) && Launchable(due) && FreshDraws(s.jobs, |due|, now, draws)
    requires forall id :: id in s.jobs ==> IsAddress(s.jobs[id].walletAddress)
    ensures var after := Tick(s, quota, due, now, draws).state.jobs;
            forall id :: id in after ==> IsAddress(after[id].walletAddress)
  {
    if due != [] {
      var n := |due| - 1;
      TickKeepsSound(s, quota, due[..n], now, draws);
      TickKeepsQuota(s, quota, due[..n], now, draws);
      var before := Tick(s, quota, due[..n], now, draws);
      assert draws(n).id !in before.state.jobs;
      DueKeepsSound(before.state, quota, due[n], now, draws(n));
    }
  }

  /** In every run each stored job scans an address, and each stored recurring scan is sound. */
  lemma {:induction false} StoredAreSound(quota: nat, run: seq<Event>)
    requires Legal(quota, run)
    ensures AllSound(After(quota, run))
  {
    if run != [] {
      StoredAreSound(quota, run[..|run| - 1]);
      Reachable(quota, run[..|run| - 1]);
      StepKeepsSound(quota, After(quota, run[..|run| - 1]), run[|run| - 1]);
    }
  }

  // ---------------------------------------------------------------- what a callback does

  /** The job after a callback that was not refused. */
  predicate TakesEffect(before: ScanJob, act: Act, after: ScanJob)
  {
    match act
    case Start => after == if before.status == JobStatus.Pending then before.(status := Running) else before
    case Complete(now) =>
      && after == before.(status := Completed, error := None, completedAt := after.completedAt)
      && after.completedAt.Some? && after.completedAt.value <= now < after.completedAt.value + 1000
    case Fail(reason, now) =>
      if before.status == Completed then after == before
      else
        && after == before.(status := JobStatus.Failed, error := Some(reason), completedAt := after.completedAt)
        && after.completedAt.Some? && after.completedAt.value <= now < after.completedAt.value + 1000
    case Ask(text) =>
      after == if before.status in {JobStatus.Pending, Running} then
                 before.(status := AwaitingInput, question := Some(RustTrim(text)))
               else before
    case Answer(text) => after == before.(status := JobStatus.Pending, answer := Some(RustTrim(text)))
  }

  /** A question or an answer of spaces is refused, an answer over 2000 characters, and an answer nobody
      asked for; nothing else is. */
  predicate IsRefused(job: ScanJob, act: Act)
  {
    || (act.Ask? && RustTrim(act.text) == [])
    || (act.Answer? && (job.status != AwaitingInput || !(1 <= |RustTrim(act.text)| <= 2_000)))
  }

  /** A callback changes the one job it names, keeping its stored spend, or is refused and changes nothing. */
  lemma CallbackIsExact(jobs: JobMap, id: Uuid, act: Act)
    requires id in jobs && jobs[id].id == id
    ensures var after := Transitioned(jobs, id, act);
            && after.Keys == jobs.Keys && (forall other :: other in jobs && other != id ==> after[other] == jobs[other])
            && (IsRefused(jobs[id], act) <==> Apply(jobs[id], act).Err?)
            && if IsRefused(jobs[id], act) then after == jobs else TakesEffect(jobs[id], act, after[id])
  {
  }

  /** Start, question and answer in a row: the job waits again, with the question and the answer on it. */
  lemma QuestionIsAnswered(jobs: JobMap, id: Uuid, question: string, answer: string)
    requires id in jobs && jobs[id].id == id && jobs[id].status == JobStatus.Pending
    requires RustTrim(question) != [] && 1 <= |RustTrim(answer)| <= 2_000
    ensures var started := Transitioned(jobs, id, Act.Start);
            var asked := Transitioned(started, id, Act.Ask(question));
            && started[id].status == Running && asked[id].status == AwaitingInput
            && Transitioned(asked, id, Act.Answer(answer))[id]
               == jobs[id].(question := Some(RustTrim(question)), answer := Some(RustTrim(answer)))
  {
    var started := Transitioned(jobs, id, Act.Start);
    CallbackIsExact(jobs, id, Act.Start);
    CallbackIsExact(started, id, Act.Ask(question));
    CallbackIsExact(Transitioned(started, id, Act.Ask(question)), id, Act.Answer(answer));
  }

  /** An answer is taken from the owner of the job only, and only while it waits for one. */
  lemma AnswerTakenIff(jobs: JobMap, user: Uuid, id: Uuid, text: string, failure: Option<(string, nat)>)
    requires forall id :: id in jobs ==> jobs[id].id == id
    ensures var (after, r) := Answered(jobs, user, id, text, failure);
            var taken := && id in jobs && jobs[id].userId == user && jobs[id].status == AwaitingInput
                         && 1 <= |RustTrim(text)| <= 2_000;
            && (r.Ok? <==> taken && failure.None?)
            && (!taken ==> after == jobs)
            && (taken ==>
                  && after.Keys == jobs.Keys
                  && (forall other :: other in jobs && other != id ==> after[other] == jobs[other])
                  && after[id].answer == Some(RustTrim(text)) && after[id].usage == jobs[id].usage
                  && match failure
                     case None => after[id].status == JobStatus.Pending && after[id].error == jobs[id].error
                     case Some(why) =>
                       after[id].status == JobStatus.Failed && after[id].error == Some("dispatch failed: " + why.0))
  {
  }

  /** An answer whose dispatch fails is a read and two write-backs of the one copy. */
  lemma AnswerIsItsCalls(quota: nat, s: State, user: Uuid, id: Uuid, text: string, why: (string, nat))
    requires id in s.jobs && s.jobs[id].id == id && s.jobs[id].userId == user
    requires s.jobs[id].status == AwaitingInput && 1 <= |RustTrim(text)| <= 2_000
    ensures var hand := |s.hands|;
            var read := Step(quota, s, Read(id));
            var told := Step(quota, read, WriteBack(hand, Act.Answer(text)));
            var failed := Step(quota, told, WriteBack(hand, Act.Fail("dispatch failed: " + why.0, why.1)));
            && told.jobs == Answered(s.jobs, user, id, text, None).0
            && failed.jobs == Answered(s.jobs, user, id, text, Some(why)).0
  {
  }

  /** The reaper fails exactly the jobs that are pending or running and older than the timeout. A job
      that waits for an answer is never among them. */
  lemma ReapedIff(jobs: JobMap, now: nat, timeout: nat, reason: string, stamp: Uuid -> nat, id: Uuid)
    requires id in jobs
    ensures var after := Reaped(jobs, now - timeout, reason, stamp);
            && after.Keys == jobs.Keys
            && if jobs[id].status in {JobStatus.Pending, Running} && jobs[id].createdAt + timeout < now then
                 TakesEffect(jobs[id], Act.Fail(reason, stamp(id)), after[id]) && after[id].status == JobStatus.Failed
               else after[id] == jobs[id]
  {
  }
}
