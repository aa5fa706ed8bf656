/** The job use cases: manual launch, scheduler tick, worker callbacks, reaper, clarification answer. */
module JobFlows {
  import opened Common
  import opened Findings
  import opened Jobs

  datatype LaunchError = InvalidJob(error: JobError) | QuotaExceeded(quota: nat) | DispatchFailed

  datatype CallError = NotFound | Rejected(error: JobError) | NotDispatched

  /** What one launch draws from outside: the identifier, the creation instant, and whether the
      dispatcher took the job (`None`) or failed with a message at some instant. */
  datatype Draw = Draw(id: Uuid, createdAt: nat, failure: Option<(string, nat)>)

  const SEEN_KEYS_LIMIT: nat := 200

  /** A transition a use case applies to its copy of a job. */
  datatype Act = Start | Complete(now: nat) | Fail(reason: string, now: nat) | Ask(text: string) | Answer(text: string)

  function Apply(job: ScanJob, act: Act): Result<ScanJob, JobError>
  {
    match act
    case Start => Ok(job.Start())
    case Complete(now) => Ok(job.Complete(now))
    case Fail(reason, now) => Ok(job.Fail(reason, now))
    case Ask(text) => job.RequestInput(text)
    case Answer(text) => job.ProvideAnswer(text)
  }

  /** Find, apply, write back, in one step. */
  function Transitioned(jobs: JobMap, id: Uuid, act: Act): JobMap
  {
    if id in jobs && Apply(jobs[id], act).Ok? then JobWritten(jobs, Apply(jobs[id], act).value) else jobs
  }

  /** The job is stored, and if the dispatch failed, stored again as failed. */
  function Dispatched(jobs: JobMap, job: ScanJob, failure: Option<(string, nat)>): JobMap
  {
    var stored := jobs[job.id := job];
    match failure
    case None => stored
    case Some(why) => JobWritten(stored, job.Fail("dispatch failed: " + why.0, why.1))
  }

  function Launched(jobs: JobMap, quota: nat, user: Uuid, wallet: string, mode: JobMode, checkedAt: nat, draw: Draw)
    : (JobMap, Result<ScanJob, LaunchError>)
  {
    if |CreatedSince(jobs, user, checkedAt - DAY)| >= quota then (jobs, Err(QuotaExceeded(quota)))
    else match NewJob(user, wallet, mode, None, draw.id, draw.createdAt)
      case Err(e) => (jobs, Err(InvalidJob(e)))
      case Ok(job) =>
        (Dispatched(jobs, job, draw.failure), if draw.failure.None? then Ok(job) else Err(DispatchFailed))
  }

  /** Insert, dispatch, and on a refusal fail the copy and write it back. */
  method StoreAndDispatch(jobs: JobRepository, job: JobCopy, failure: Option<(string, nat)>)
    requires jobs.Valid()
    modifies jobs`jobs, job
    ensures jobs.Valid() && jobs.jobs == Dispatched(old(jobs.jobs), old(job.Value()), failure)
    ensures failure.None? ==> job.Value() == old(job.Value())
  {
    jobs.Insert(job.Value());
    if failure.Some? {
      job.Fail("dispatch failed: " + failure.value.0, failure.value.1);
      jobs.Update(job.Value());
    }
  }

  class LaunchSearch {
    const jobs: JobRepository
    const dailyQuota: nat

    constructor (repository: JobRepository, quota: nat)
      ensures jobs == repository && dailyQuota == quota
    {
      jobs, dailyQuota := repository, quota;
    }

    method Execute(user: Uuid, wallet: string, mode: JobMode, now: nat, draw: Draw)
      returns (r: Result<ScanJob, LaunchError>)
      requires jobs.Valid()
      modifies jobs`jobs
      ensures jobs.Valid()
      ensures (jobs.jobs, r) == Launched(old(jobs.jobs), dailyQuota, user, wallet, mode, now, draw)
    {
      var used := jobs.CountCreatedSince(user, now - DAY);
      if used >= dailyQuota {
        return Err(QuotaExceeded(dailyQuota));
      }
      var made := NewJob(user, wallet, mode, None, draw.id, draw.createdAt);
      if made.Err? {
        return Err(InvalidJob(made.error));
      }
      var job := new JobCopy(made.value);
      StoreAndDispatch(jobs, job, draw.failure);
      if draw.failure.Some? {
        return Err(DispatchFailed);
      }
      r := Ok(job.Value());
    }
  }

  // ---------------------------------------------------------------- the scheduler tick

  datatype Sched = Sched(jobs: JobMap, searches: SearchMap, launched: nat)

  /** The state of a tick, and the error that ended it early, if one did. */
  datatype Ticked = Ticked(state: Sched, failure: Option<JobError>)

  /** One due scan: skipped over quota, else launched; marked as ran either way. An invalid wallet leaves
      everything as it is. */
  function DueRun(s: Sched, quota: nat, search: RecurringSearch, now: nat, draw: Draw): Ticked
  {
    if |CreatedSince(s.jobs, search.userId, now - DAY)| >= quota then
      Ticked(s.(searches := Ran(s.searches, search.id, now)), None)
    else match NewJob(search.userId, search.walletAddress, search.mode, Some(search.id), draw.id, draw.createdAt)
      case Err(e) => Ticked(s, Some(e))
      case Ok(job) =>
        Ticked(Sched(Dispatched(s.jobs, job, draw.failure), Ran(s.searches, search.id, now),
                     s.launched + if draw.failure.None? then 1 else 0), None)
  }

  /** The due scans one after another, up to the first invalid wallet. */
  function Tick(s: Sched, quota: nat, due: seq<RecurringSearch>, now: nat, draw: nat -> Draw): Ticked
  {
    if due == [] then Ticked(s, None)
    else
      var n := |due| - 1;
      var before := Tick(s, quota, due[..n], now, draw);
      if before.failure.Some? then before else DueRun(before.state, quota, due[n], now, draw(n))
  }

  class RunDueSearches {
    const recurring: RecurringRepository
    const jobs: JobRepository
    const dailyQuota: nat

    constructor (searches: RecurringRepository, repository: JobRepository, quota: nat)
      ensures recurring == searches && jobs == repository && dailyQuota == quota
    {
      recurring, jobs, dailyQuota := searches, repository, quota;
    }

    ghost predicate Valid()
      reads recurring, jobs
    {
      recurring.Valid() && jobs.Valid()
    }

    ghost function State(launched: nat): Sched
      reads recurring, jobs
    {
      Sched(jobs.jobs, recurring.searches, launched)
    }

    /** The loop body; `memory` is what the dispatcher is handed. */
    method RunOne(search: RecurringSearch, now: nat, draw: Draw, launched: nat)
      returns (r: Result<nat, JobError>, memory: seq<string>)
      requires Valid()
      modifies recurring, jobs`jobs
      ensures Valid()
      ensures var after := DueRun(old(State(launched)), dailyQuota, search, now, draw);
              match after.failure
              case Some(e) => r == Err(e) && State(launched) == after.state
              case None => r.Ok? && State(r.value) == after.state
      ensures jobs.jobs != old(jobs.jobs) ==> IsMemory(old(jobs.jobs), jobs.results, search.id, 200, memory)
    {
      memory := [];
      var used := jobs.CountCreatedSince(search.userId, now - DAY);
      if used >= dailyQuota {
        recurring.MarkRan(search.id, now);
        return Ok(launched), memory;
      }
      memory := jobs.RecentApprovalKeys(search.id, SEEN_KEYS_LIMIT);
      var made := NewJob(search.userId, search.walletAddress, search.mode, Some(search.id), draw.id, draw.createdAt);
      if made.Err? {
        return Err(made.error), memory;
      }
      var job := new JobCopy(made.value);
      StoreAndDispatch(jobs, job, draw.failure);
      recurring.MarkRan(search.id, now);
      r := Ok(if draw.failure.Some? then launched else launched + 1);
    }

    /** `due` is the list that was walked; the result counts the dispatched jobs. An invalid wallet ends
        the tick where it stands: what was launched and marked before it stays. */
    method Execute(now: nat, draw: nat -> Draw) returns (r: Result<nat, JobError>, ghost due: seq<RecurringSearch>)
      requires Valid()
      modifies recurring, jobs`jobs
      ensures Valid() && IsDueList(old(recurring.searches), now, due)
      ensures var after := Tick(old(State(0)), dailyQuota, due, now, draw);
              match after.failure
              case Some(e) => r == Err(e) && State(after.state.launched) == after.state
              case None => r.Ok? && State(r.value) == after.state
    {
      var list := recurring.ListDue(now);
      due := list;
      var launched := 0;
      ghost var start := State(0);
      for i := 0 to |list|
        invariant Valid()
        invariant Tick(start, dailyQuota, list[..i], now, draw) == Ticked(State(launched), None)
      {
        TickNext(start, dailyQuota, list, now, draw, i);
        var one, memory := RunOne(list[i], now, draw(i), launched);
        if one.Err? {
          FailedTick(start, dailyQuota, list, now, draw, i + 1);
          return Err(one.error), due;
        }
        launched := one.value;
      }
      assert list[..|list|] == list;
      r := Ok(launched);
    }
  }

  lemma TickNext(s: Sched, quota: nat, due: seq<RecurringSearch>, now: nat, draw: nat -> Draw, i: nat)
    requires i < |due|
    ensures Tick(s, quota, due[..i + 1], now, draw)
            == var before := Tick(s, quota, due[..i], now, draw);
               if before.failure.Some? then before else DueRun(before.state, quota, due[i], now, draw(i))
  {
    assert due[..i + 1][..i] == due[..i];
  }

  /** After a scan with an invalid wallet the stores, the count and the error stay as they were when it
      was reached, whatever scans are still due. */
  lemma {:induction false} FailedTick(s: Sched, quota: nat, due: seq<RecurringSearch>, now: nat, draw: nat -> Draw,
                                      i: nat)
    requires i <= |due| && Tick(s, quota, due[..i], now, draw).failure.Some?
    ensures Tick(s, quota, due, now, draw) == Tick(s, quota, due[..i], now, draw)
  {
    if i == |due| {
      assert due[..i] == due;
    } else {
      var n := |due| - 1;
      assert due[..n][..i] == due[..i];
      FailedTick(s, quota, due[..n], now, draw, i);
    }
  }

  // ---------------------------------------------------------------- worker callbacks

  datatype DigestEntry = DigestEntry(tokenSymbol: string, spenderAddress: string, tier: RiskTier,
                                     status: RevocationStatus)

  datatype Digest = Digest(searchId: Uuid, jobId: Uuid, walletAddress: string, entries: seq<DigestEntry>)

  predicate IsNews(f: ApprovalFinding) { f.isNew }

  function Entries(news: seq<ApprovalFinding>): (entries: seq<DigestEntry>)
    ensures |entries| == |news|
  {
    seq(|news|, i requires 0 <= i < |news| =>
      DigestEntry(news[i].tokenSymbol, news[i].spenderAddress, news[i].tier, news[i].revocationStatus))
  }

  /** What is sent, and where: the new findings of a recurring run, to the webhook of a scan that still
      exists and has one. */
  function DigestFor(searches: SearchMap, job: ScanJob, results: seq<ApprovalFinding>): Option<(string, Digest)>
  {
    var news := Filter(IsNews, results);
    if job.recurringSearchId.None? || news == [] || job.recurringSearchId.value !in searches then None
    else match searches[job.recurringSearchId.value].webhookUrl
      case None => None
      case Some(url) => Some((url, Digest(job.recurringSearchId.value, job.id, job.walletAddress, Entries(news))))
  }

  /** What a webhook reader learns of a finding. */
  predicate Tells(entry: DigestEntry, f: ApprovalFinding)
  {
    && entry.tokenSymbol == f.tokenSymbol && entry.spenderAddress == f.spenderAddress && entry.tier == f.tier
    && entry.status == f.revocationStatus
  }

  /** The digest tells of every new finding and of nothing else. */
  ghost predicate TellsTheNews(entries: seq<DigestEntry>, results: seq<ApprovalFinding>)
  {
    && (forall f :: f in results && f.isNew ==> exists entry :: entry in entries && Tells(entry, f))
    && (forall entry :: entry in entries ==> exists f :: f in results && f.isNew && Tells(entry, f))
  }

  /** A digest goes out exactly when a recurring run brought something new and its scan still has a
      webhook, to that webhook. It names the scan, the job and its wallet, has one entry for each new
      finding, and tells of every new finding and of nothing else. */
  lemma DigestIff(searches: SearchMap, job: ScanJob, results: seq<ApprovalFinding>)
    ensures DigestFor(searches, job, results).Some?
            <==> && job.recurringSearchId.Some? && job.recurringSearchId.value in searches
                 && searches[job.recurringSearchId.value].webhookUrl.Some?
                 && exists f :: f in results && f.isNew
    ensures DigestFor(searches, job, results).Some? ==>
              var (url, digest) := DigestFor(searches, job, results).value;
              && searches[job.recurringSearchId.value].webhookUrl == Some(url)
              && job.recurringSearchId == Some(digest.searchId) && digest.jobId == job.id
              && digest.walletAddress == job.walletAddress
              && |digest.entries| == |Positions((f: ApprovalFinding) => f.isNew, results)|
              && TellsTheNews(digest.entries, results)
  {
    var news := Filter(IsNews, results);
    FilterElements(IsNews, results);
    FilterCounts(IsNews, results);
    assert Positions((f: ApprovalFinding) => f.isNew, results) == Positions(IsNews, results);
    if news != [] {
      assert news[0] in news;
    }
    EntriesTell(news, results);
  }

  lemma EntriesTell(news: seq<ApprovalFinding>, results: seq<ApprovalFinding>)
    requires forall f :: f in news <==> f in results && f.isNew
    ensures TellsTheNews(Entries(news), results)
  {
    forall f | f in results && f.isNew ensures exists entry :: entry in Entries(news) && Tells(entry, f) {
      var i :| 0 <= i < |news| && news[i] == f;
      assert Entries(news)[i] in Entries(news) && Tells(Entries(news)[i], f);
    }
    forall entry | entry in Entries(news) ensures exists f :: f in results && f.isNew && Tells(entry, f) {
      var i :| 0 <= i < |news| && Entries(news)[i] == entry;
      assert news[i] in news && Tells(entry, news[i]);
    }
  }

  class IngestResults {
    const jobs: JobRepository
    const recurring: RecurringRepository

    constructor (repository: JobRepository, searches: RecurringRepository)
      ensures jobs == repository && recurring == searches
    {
      jobs, recurring := repository, searches;
    }

    method Start(id: Uuid) returns (r: Result<(), CallError>)
      requires jobs.Valid()
      modifies jobs`jobs
      ensures jobs.Valid() && jobs.jobs == Transitioned(old(jobs.jobs), id, Act.Start)
      ensures r == if id in old(jobs.jobs) then Ok(()) else Err(NotFound)
    {
      var found := jobs.Find(id);
      if found.None? {
        return Err(NotFound);
      }
      var job := new JobCopy(found.value);
      job.Start();
      jobs.Update(job.Value());
      r := Ok(());
    }

    /** `digest` is what is handed to the sender, whose failure is ignored. */
    method Complete(id: Uuid, results: seq<ApprovalFinding>, now: nat)
      returns (r: Result<(), CallError>, digest: Option<(string, Digest)>)
      requires jobs.Valid()
      modifies jobs`jobs, jobs`results
      ensures jobs.Valid() && jobs.jobs == Transitioned(old(jobs.jobs), id, Act.Complete(now))
      ensures jobs.results == if id in old(jobs.jobs) then old(jobs.results)[id := results] else old(jobs.results)
      ensures r == if id in old(jobs.jobs) then Ok(()) else Err(NotFound)
      ensures digest == if id in old(jobs.jobs) then DigestFor(recurring.searches, old(jobs.jobs)[id], results)
              else None
    {
      var found := jobs.Find(id);
      if found.None? {
        return Err(NotFound), None;
      }
      var job := new JobCopy(found.value);
      jobs.StoreResults(id, results);
      job.Complete(now);
      jobs.Update(job.Value());
      digest := DigestFor(recurring.searches, job.Value(), results);
      r := Ok(());
    }

    method RecordStep(id: Uuid, step: AgentStep) returns (r: Result<(), CallError>)
      requires jobs.Valid()
      modifies jobs`steps
      ensures r == if id in jobs.jobs then Ok(()) else Err(NotFound)
      ensures jobs.steps == if r.Ok? then old(jobs.steps)[id := JournalWith(Journal(old(jobs.steps), id), step)]
              else old(jobs.steps)
    {
      var found := jobs.Find(id);
      if found.None? {
        return Err(NotFound);
      }
      jobs.AppendStep(id, step);
      r := Ok(());
    }

    method RequestInput(id: Uuid, question: string) returns (r: Result<(), CallError>)
      requires jobs.Valid()
      modifies jobs`jobs
      ensures jobs.Valid() && jobs.jobs == Transitioned(old(jobs.jobs), id, Act.Ask(question))
      ensures r == if id !in old(jobs.jobs) then Err(NotFound)
                   else if RustTrim(question) == [] then Err(Rejected(EmptyQuestion)) else Ok(())
    {
      var found := jobs.Find(id);
      if found.None? {
        return Err(NotFound);
      }
      var job := new JobCopy(found.value);
      var asked := job.RequestInput(question);
      if asked.Err? {
        return Err(Rejected(asked.error));
      }
      jobs.Update(job.Value());
      r := Ok(());
    }

    method RecordUsage(id: Uuid, usage: JobUsage) returns (r: Result<(), CallError>)
      requires jobs.Valid()
      modifies jobs`jobs
      ensures jobs.Valid() && jobs.jobs == UsageAdded(old(jobs.jobs), id, usage)
      ensures r == if id in old(jobs.jobs) then Ok(()) else Err(NotFound)
    {
      var found := jobs.Find(id);
      if found.None? {
        return Err(NotFound);
      }
      jobs.AddUsage(id, usage);
      r := Ok(());
    }

    method Fail(id: Uuid, reason: string, now: nat) returns (r: Result<(), CallError>)
      requires jobs.Valid()
      modifies jobs`jobs
      ensures jobs.Valid() && jobs.jobs == Transitioned(old(jobs.jobs), id, Act.Fail(reason, now))
      ensures r == if id in old(jobs.jobs) then Ok(()) else Err(NotFound)
    {
      var found := jobs.Find(id);
      if found.None? {
        return Err(NotFound);
      }
      var job := new JobCopy(found.value);
      job.Fail(reason, now);
      jobs.Update(job.Value());
      r := Ok(());
    }
  }

  // ---------------------------------------------------------------- the reaper

  /** `stamp` is the clock reading when a job is failed. */
  function Reaped(jobs: JobMap, cutoff: int, reason: string, stamp: Uuid -> nat): JobMap
  {
    map id | id in jobs :: if IsStale(jobs[id], cutoff) then jobs[id].Fail(reason, stamp(id)) else jobs[id]
  }

  class FailStaleJobs {
    const jobs: JobRepository
    const timeout: nat

    constructor (repository: JobRepository, limit: nat)
      ensures jobs == repository && timeout == limit
    {
      jobs, timeout := repository, limit;
    }

    /** The body of the loop. */
    method FailOne(stale: ScanJob, reason: string, now: nat)
      requires jobs.Valid()
      modifies jobs`jobs
      ensures jobs.Valid() && jobs.jobs == JobWritten(old(jobs.jobs), stale.Fail(reason, now))
    {
      var job := new JobCopy(stale);
      job.Fail(reason, now);
      jobs.Update(job.Value());
    }

    /** Takes a snapshot of the stale jobs, then fails and writes back each of them. */
    method Execute(now: nat, reason: string, stamp: Uuid -> nat) returns (reaped: nat)
      requires jobs.Valid()
      modifies jobs`jobs
      ensures jobs.Valid()
      ensures jobs.jobs == Reaped(old(jobs.jobs), now - timeout, reason, stamp)
      ensures reaped == |set id | id in old(jobs.jobs) && IsStale(old(jobs.jobs)[id], now - timeout)|
    {
      var stale := jobs.ListUnfinishedOlderThan(now - timeout);
      ghost var start := jobs.jobs;
      reaped := 0;
      for i := 0 to |stale|
        invariant jobs.Valid() && reaped == i
        invariant jobs.jobs == ReapedSome(start, Ids(stale[..i]), reason, stamp)
      {
        ReapOne(start, stale, i, reason, stamp);
        FailOne(stale[i], reason, stamp(stale[i].id));
        reaped := reaped + 1;
      }
      assert stale[..|stale|] == stale;
      ReapedAll(start, stale, now - timeout, reason, stamp);
    }
  }

  ghost function Ids(listed: seq<ScanJob>): set<Uuid>
  {
    set job | job in listed :: job.id
  }

  ghost function ReapedSome(jobs: JobMap, chosen: set<Uuid>, reason: string, stamp: Uuid -> nat): JobMap
  {
    map id | id in jobs :: if id in chosen then jobs[id].Fail(reason, stamp(id)) else jobs[id]
  }

  ghost predicate Copies(jobs: JobMap, listed: seq<ScanJob>)
  {
    && Distinct(listed)
    && forall i :: 0 <= i < |listed| ==> listed[i].id in jobs && jobs[listed[i].id] == listed[i]
  }

  lemma ReapOne(start: JobMap, stale: seq<ScanJob>, i: nat, reason: string, stamp: Uuid -> nat)
    requires i < |stale| && Copies(start, stale)
    ensures ReapedSome(start, Ids(stale[..i + 1]), reason, stamp)
            == JobWritten(ReapedSome(start, Ids(stale[..i]), reason, stamp), stale[i].Fail(reason, stamp(stale[i].id)))
  {
    assert stale[..i + 1] == stale[..i] + [stale[i]];
    var id := stale[i].id;
    assert forall k :: 0 <= k < i ==> start[stale[k].id] == stale[k] && stale[k] != stale[i];
    assert id !in Ids(stale[..i]);
    assert Ids(stale[..i + 1]) == Ids(stale[..i]) + {id};
  }

  lemma {:induction false} IdsCount(jobs: JobMap, listed: seq<ScanJob>)
    requires Copies(jobs, listed)
    ensures |Ids(listed)| == |listed|
  {
    if listed != [] {
      var n := |listed| - 1;
      var init := listed[..n];
      IdsCount(jobs, init);
      assert listed == init + [listed[n]];
      assert Ids(listed) == Ids(init) + {listed[n].id};
      assert forall k :: 0 <= k < n ==> jobs[listed[k].id] == listed[k] && listed[k] != listed[n];
      assert listed[n].id !in Ids(init);
    }
  }

  lemma ReapedAll(start: JobMap, stale: seq<ScanJob>, cutoff: int, reason: string, stamp: Uuid -> nat)
    requires Copies(start, stale) && (forall id :: id in start ==> start[id].id == id)
    requires forall i :: 0 <= i < |stale| ==> IsStale(stale[i], cutoff)
    requires forall id :: id in start && IsStale(start[id], cutoff) ==> start[id] in stale
    ensures ReapedSome(start, Ids(stale), reason, stamp) == Reaped(start, cutoff, reason, stamp)
    ensures |stale| == |set id | id in start && IsStale(start[id], cutoff)|
  {
    assert Ids(stale) == set id | id in start && IsStale(start[id], cutoff);
    IdsCount(start, stale);
  }

  // ---------------------------------------------------------------- the clarification answer

  function Answered(jobs: JobMap, user: Uuid, id: Uuid, text: string, failure: Option<(string, nat)>)
    : (JobMap, Result<ScanJob, CallError>)
  {
    if id !in jobs || jobs[id].userId != user then (jobs, Err(NotFound))
    else match jobs[id].ProvideAnswer(text)
      case Err(e) => (jobs, Err(Rejected(e)))
      case Ok(job) =>
        var resumed := JobWritten(jobs, job);
        match failure
        case None => (resumed, Ok(job))
        case Some(why) => (JobWritten(resumed, job.Fail("dispatch failed: " + why.0, why.1)), Err(NotDispatched))
  }

  class AnswerClarification {
    const jobs: JobRepository

    constructor (repository: JobRepository)
      ensures jobs == repository
    {
      jobs := repository;
    }

    /** `memory` is what the dispatcher is handed when the job belongs to a recurring scan. */
    method Execute(user: Uuid, id: Uuid, answer: string, failure: Option<(string, nat)>)
      returns (r: Result<ScanJob, CallError>, memory: seq<string>)
      requires jobs.Valid()
      modifies jobs`jobs, jobs`steps
      ensures jobs.Valid()
      ensures (jobs.jobs, r) == Answered(old(jobs.jobs), user, id, answer, failure)
      ensures jobs.steps == if r.Ok? || r.error == NotDispatched then old(jobs.steps) - {id} else old(jobs.steps)
      ensures r.Ok? && r.value.recurringSearchId.Some? ==>
                IsMemory(jobs.jobs, jobs.results, r.value.recurringSearchId.value, 200, memory)
    {
      memory := [];
      var found := jobs.Find(id);
      if found.None? || found.value.userId != user {
        return Err(NotFound), memory;
      }
      var job := new JobCopy(found.value);
      var told := job.ProvideAnswer(answer);
      if told.Err? {
        return Err(Rejected(told.error)), memory;
      }
      jobs.ClearSteps(id);
      jobs.Update(job.Value());
      if job.recurringSearchId.Some? {
        memory := jobs.RecentApprovalKeys(job.recurringSearchId.value, SEEN_KEYS_LIMIT);
      }
      if failure.Some? {
        job.Fail("dispatch failed: " + failure.value.0, failure.value.1);
        jobs.Update(job.Value());
        return Err(NotDispatched), memory;
      }
      r := Ok(job.Value());
    }
  }
}
