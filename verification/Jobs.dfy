/** Scan jobs, recurring scans and their stores: `job.rs`, `recurring.rs` and the job half of
    `in_memory.rs`. Instants are nanoseconds. */
module Jobs {
  import opened Common
  import opened StableSort
  import opened Findings

  type Uuid = nat

  const DAY: nat := 24 * 60 * 60 * 1_000_000_000
  const MINUTE: nat := 60 * 1_000_000_000

  /** `now_utc` keeps whole microseconds. */
  function Micros(now: nat): nat { now - now % 1000 }

  datatype JobStatus = Pending | Running | AwaitingInput | Completed | Failed

  datatype JobMode = Workflow | Agent

  datatype JobError =
    | EmptyWalletAddress | InvalidWalletAddress | InvalidInterval | InvalidWebhookUrl | WebhookUrlTooLong
    | EmptyQuestion | EmptyAnswer | AnswerTooLong | NotAwaitingInput

  /** Accumulated spend; the cost is in micro-dollars. */
  datatype JobUsage = JobUsage(llmCalls: int, inputTokens: int, outputTokens: int, searchCalls: int, costMicros: int)
  {
    function Add(other: JobUsage): JobUsage
    {
      JobUsage(llmCalls + other.llmCalls, inputTokens + other.inputTokens, outputTokens + other.outputTokens,
               searchCalls + other.searchCalls, costMicros + other.costMicros)
    }
  }

  const NO_USAGE := JobUsage(0, 0, 0, 0, 0)
  const MAX_ANSWER_LEN: nat := 2_000

  predicate IsHexDigit(c: char) { '0' <= c <= '9' || 'a' <= c <= 'f' || 'A' <= c <= 'F' }

  predicate IsValidEvmAddress(value: string)
  {
    "0x" <= value && |value| == 42 && forall i :: 2 <= i < |value| ==> IsHexDigit(value[i])
  }

  datatype ScanJob = ScanJob(
    id: Uuid, userId: Uuid, walletAddress: string, mode: JobMode, status: JobStatus,
    error: Option<string>, question: Option<string>, answer: Option<string>,
    recurringSearchId: Option<Uuid>, usage: JobUsage, createdAt: nat, completedAt: Option<nat>)
  {
    /** Pending becomes running; every other status stays. */
    function Start(): ScanJob
    {
      if status == JobStatus.Pending then this.(status := Running) else this
    }

    /** From any status; clears the error. */
    function Complete(now: nat): ScanJob
    {
      this.(status := Completed, error := None, completedAt := Some(Micros(now)))
    }

    /** From any status but completed. */
    function Fail(reason: string, now: nat): ScanJob
    {
      if status == Completed then this
      else this.(status := JobStatus.Failed, error := Some(reason), completedAt := Some(Micros(now)))
    }

    function RequestInput(text: string): Result<ScanJob, JobError>
    {
      var trimmed := RustTrim(text);
      if trimmed == [] then Err(EmptyQuestion)
      else if status == Running || status == JobStatus.Pending then
        Ok(this.(status := AwaitingInput, question := Some(trimmed)))
      else Ok(this)
    }

    function ProvideAnswer(text: string): Result<ScanJob, JobError>
    {
      var trimmed := RustTrim(text);
      if trimmed == [] then Err(EmptyAnswer)
      else if |trimmed| > MAX_ANSWER_LEN then Err(AnswerTooLong)
      else if status != AwaitingInput then Err(NotAwaitingInput)
      else Ok(this.(answer := Some(trimmed), status := JobStatus.Pending))
    }
  }

  /** A job as a use case holds it: a copy of the stored record, changed in place. */
  class JobCopy {
    const id: Uuid
    const userId: Uuid
    const walletAddress: string
    const mode: JobMode
    const recurringSearchId: Option<Uuid>
    const usage: JobUsage
    const createdAt: nat
    var status: JobStatus
    var error: Option<string>
    var question: Option<string>
    var answer: Option<string>
    var completedAt: Option<nat>

    function Value(): ScanJob
      reads this
    {
      ScanJob(id, userId, walletAddress, mode, status, error, question, answer, recurringSearchId, usage, createdAt,
              completedAt)
    }

    constructor (job: ScanJob)
      ensures Value() == job
    {
      id, userId, walletAddress, mode := job.id, job.userId, job.walletAddress, job.mode;
      recurringSearchId, usage, createdAt := job.recurringSearchId, job.usage, job.createdAt;
      status, error, question, answer, completedAt := job.status, job.error, job.question, job.answer, job.completedAt;
    }

    method Start()
      modifies this
      ensures Value() == old(Value()).Start()
    {
      if status == JobStatus.Pending {
        status := Running;
      }
    }

    method Complete(now: nat)
      modifies this
      ensures Value() == old(Value()).Complete(now)
    {
      status := Completed;
      error := None;
      completedAt := Some(Micros(now));
    }

    method Fail(reason: string, now: nat)
      modifies this
      ensures Value() == old(Value()).Fail(reason, now)
    {
      if status == Completed {
        return;
      }
      status := JobStatus.Failed;
      error := Some(reason);
      completedAt := Some(Micros(now));
    }

    method RequestInput(text: string) returns (r: Result<(), JobError>)
      modifies this
      ensures match old(Value()).RequestInput(text)
              case Err(e) => r == Err(e) && Value() == old(Value())
              case Ok(job) => r == Ok(()) && Value() == job
    {
      var trimmed := RustTrim(text);
      if trimmed == [] {
        return Err(EmptyQuestion);
      }
      if status == Running || status == JobStatus.Pending {
        status := AwaitingInput;
        question := Some(trimmed);
      }
      r := Ok(());
    }

    method ProvideAnswer(text: string) returns (r: Result<(), JobError>)
      modifies this
      ensures match old(Value()).ProvideAnswer(text)
              case Err(e) => r == Err(e) && Value() == old(Value())
              case Ok(job) => r == Ok(()) && Value() == job
    {
      var trimmed := RustTrim(text);
      if trimmed == [] {
        return Err(EmptyAnswer);
      }
      if |trimmed| > MAX_ANSWER_LEN {
        return Err(AnswerTooLong);
      }
      if status != AwaitingInput {
        return Err(NotAwaitingInput);
      }
      answer := Some(trimmed);
      status := JobStatus.Pending;
      r := Ok(());
    }
  }

  function NewJob(user: Uuid, wallet: string, mode: JobMode, recurring: Option<Uuid>, id: Uuid, now: nat)
    : Result<ScanJob, JobError>
  {
    var trimmed := RustTrim(wallet);
    if trimmed == [] then Err(EmptyWalletAddress)
    else if !IsValidEvmAddress(trimmed) then Err(InvalidWalletAddress)
    else Ok(ScanJob(id, user, trimmed, mode, JobStatus.Pending, None, None, None, recurring, NO_USAGE, Micros(now),
                    None))
  }

  // ---------------------------------------------------------------- recurring scans

  const MIN_INTERVAL_MINUTES: nat := 1
  const MAX_INTERVAL_MINUTES: nat := 7 * 24 * 60
  const MAX_WEBHOOK_URL_LEN: nat := 2_048

  datatype RecurringSearch = RecurringSearch(
    id: Uuid, userId: Uuid, walletAddress: string, mode: JobMode, intervalMinutes: nat,
    webhookUrl: Option<string>, createdAt: nat, lastRunAt: Option<nat>)
  {
    predicate IsDue(now: nat)
    {
      lastRunAt.None? || lastRunAt.value + intervalMinutes * MINUTE <= now
    }

    function MarkRan(at: nat): RecurringSearch { this.(lastRunAt := Some(at)) }
  }

  function WebhookTarget(url: Option<string>): Result<Option<string>, JobError>
  {
    match url
    case None => Ok(None)
    case Some(text) =>
      var trimmed := RustTrim(text);
      if trimmed == [] then Ok(None)
      else if |trimmed| > MAX_WEBHOOK_URL_LEN then Err(WebhookUrlTooLong)
      else if "https://" <= trimmed || "http://" <= trimmed then Ok(Some(trimmed))
      else Err(InvalidWebhookUrl)
  }

  function NewRecurring(user: Uuid, wallet: string, mode: JobMode, interval: nat, url: Option<string>, id: Uuid,
                        now: nat): Result<RecurringSearch, JobError>
  {
    var trimmed := RustTrim(wallet);
    if trimmed == [] then Err(EmptyWalletAddress)
    else if !IsValidEvmAddress(trimmed) then Err(InvalidWalletAddress)
    else if !(MIN_INTERVAL_MINUTES <= interval <= MAX_INTERVAL_MINUTES) then Err(InvalidInterval)
    else match WebhookTarget(url)
         case Err(e) => Err(e)
         case Ok(target) => Ok(RecurringSearch(id, user, trimmed, mode, interval, target, Micros(now), None))
  }

  /** An address that was accepted once, trimmed, is accepted again. */
  lemma AcceptedAddressStays(wallet: string)
    requires IsValidEvmAddress(wallet)
    ensures RustTrim(wallet) == wallet && wallet != []
  {
    TrimIdentity(wallet, IsWhiteSpace);
    assert wallet[0] == '0' && IsHexDigit(wallet[41]);
  }

  /** A launched job never fails validation for a wallet a recurring scan already holds. */
  lemma RecurringWalletLaunches(user: Uuid, wallet: string, mode: JobMode, interval: nat, url: Option<string>,
                                id: Uuid, now: nat,
                                owner: Uuid, jobMode: JobMode, recurring: Option<Uuid>, jobId: Uuid, at: nat)
    requires NewRecurring(user, wallet, mode, interval, url, id, now).Ok?
    ensures NewJob(owner, NewRecurring(user, wallet, mode, interval, url, id, now).value.walletAddress, jobMode,
                   recurring, jobId, at).Ok?
  {
    AcceptedAddressStays(RustTrim(wallet));
  }

  // ---------------------------------------------------------------- effects on the stores

  type JobMap = map<Uuid, ScanJob>
  type ResultMap = map<Uuid, seq<ApprovalFinding>>
  type StepMap = map<Uuid, seq<AgentStep>>
  type SearchMap = map<Uuid, RecurringSearch>

  /** A write-back keeps the stored spend. */
  function JobWritten(jobs: JobMap, job: ScanJob): JobMap
  {
    jobs[job.id := if job.id in jobs then job.(usage := jobs[job.id].usage) else job]
  }

  function UsageAdded(jobs: JobMap, id: Uuid, usage: JobUsage): JobMap
  {
    if id in jobs then jobs[id := jobs[id].(usage := jobs[id].usage.Add(usage))] else jobs
  }

  function CreatedSince(jobs: JobMap, user: Uuid, since: int): set<Uuid>
  {
    set id | id in jobs && jobs[id].userId == user && jobs[id].createdAt >= since
  }

  predicate IsStale(job: ScanJob, cutoff: int)
  {
    (job.status == JobStatus.Pending || job.status == Running) && job.createdAt < cutoff
  }

  function SeqNo(step: AgentStep): int { step.seqNo }

  predicate Recorded(journal: seq<AgentStep>, seqNo: int)
  {
    exists i :: 0 <= i < |journal| && journal[i].seqNo == seqNo
  }

  /** First arrival per number wins; the journal stays ordered. */
  function JournalWith(journal: seq<AgentStep>, step: AgentStep): seq<AgentStep>
  {
    if Recorded(journal, step.seqNo) then journal
    else SortBy(SeqNo, journal + [step])
  }

  function Journal(steps: StepMap, id: Uuid): seq<AgentStep>
  {
    if id in steps then steps[id] else []
  }

  function ResultsOf(results: ResultMap, id: Uuid): seq<ApprovalFinding>
  {
    if id in results then results[id] else []
  }

  // ---------------------------------------------------------------- recurring memory

  function NewestFirst(job: ScanJob): int { -(job.createdAt as int) }

  /** The runs of one recurring scan, newest first; `listing` is the order the map is walked in. */
  function RunsOf(jobs: JobMap, search: Uuid, listing: seq<Uuid>): seq<ScanJob>
  {
    SortBy(NewestFirst, Matching(jobs, search, listing))
  }

  function Matching(jobs: JobMap, search: Uuid, listing: seq<Uuid>): seq<ScanJob>
  {
    if listing == [] then []
    else
      var id := listing[|listing| - 1];
      Matching(jobs, search, listing[..|listing| - 1])
        + if id in jobs && jobs[id].recurringSearchId == Some(search) then [jobs[id]] else []
  }

  function RunKeys(results: ResultMap, runs: seq<ScanJob>): seq<string>
  {
    if runs == [] then [] else RunKeys(results, runs[..|runs| - 1]) + KeysOf(ResultsOf(results, runs[|runs| - 1].id))
  }

  /** The cap is tested after a push, so a cap of zero still returns one key. */
  function Capped(keys: seq<string>, limit: nat): seq<string>
  {
    var n := if limit == 0 then 1 else limit;
    if |keys| <= n then keys else keys[..n]
  }

  predicate ListsKeys(jobs: JobMap, listing: seq<Uuid>)
  {
    Distinct(listing) && jobs.Keys == set id | id in listing
  }

  class JobRepository {
    var jobs: JobMap
    var results: ResultMap
    var steps: StepMap

    ghost predicate Valid()
      reads this
    {
      forall id :: id in jobs ==> jobs[id].id == id
    }

    method Insert(job: ScanJob)
      requires Valid()
      modifies this`jobs
      ensures Valid() && jobs == old(jobs)[job.id := job]
    {
      jobs := jobs[job.id := job];
    }

    method Update(job: ScanJob)
      requires Valid()
      modifies this`jobs
      ensures Valid() && jobs == JobWritten(old(jobs), job)
    {
      var updated := job;
      if job.id in jobs {
        updated := updated.(usage := jobs[job.id].usage);
      }
      jobs := jobs[job.id := updated];
    }

    method Find(id: Uuid) returns (job: Option<ScanJob>)
      ensures job == if id in jobs then Some(jobs[id]) else None
    {
      job := if id in jobs then Some(jobs[id]) else None;
    }

    method CountCreatedSince(user: Uuid, since: int) returns (count: nat)
      ensures count == |CreatedSince(jobs, user, since)|
    {
      var created := set id | id in jobs && jobs[id].userId == user && jobs[id].createdAt >= since;
      assert created == CreatedSince(jobs, user, since);
      count := |created|;
    }

    /** A copy of every stale job, in some order. */
    method ListUnfinishedOlderThan(cutoff: int) returns (stale: seq<ScanJob>)
      requires Valid()
      ensures forall i :: 0 <= i < |stale| ==>
                stale[i].id in jobs && jobs[stale[i].id] == stale[i] && IsStale(stale[i], cutoff)
      ensures forall id :: id in jobs && IsStale(jobs[id], cutoff) ==> jobs[id] in stale
      ensures Distinct(stale)
    {
      stale := [];
      var pending := jobs.Keys;
      while pending != {}
        invariant pending <= jobs.Keys
        invariant forall i :: 0 <= i < |stale| ==>
                    stale[i].id in jobs && stale[i].id !in pending && jobs[stale[i].id] == stale[i]
                    && IsStale(stale[i], cutoff)
        invariant forall id :: id in jobs && id !in pending && IsStale(jobs[id], cutoff) ==> jobs[id] in stale
        invariant Distinct(stale)
        decreases |pending|
      {
        var id :| id in pending;
        pending := pending - {id};
        if IsStale(jobs[id], cutoff) {
          stale := stale + [jobs[id]];
        }
      }
    }

    method StoreResults(id: Uuid, found: seq<ApprovalFinding>)
      modifies this`results
      ensures results == old(results)[id := found]
    {
      results := results[id := found];
    }

    method AppendStep(id: Uuid, step: AgentStep)
      modifies this`steps
      ensures steps == old(steps)[id := JournalWith(Journal(old(steps), id), step)]
    {
      var journal := if id in steps then steps[id] else [];
      if !Recorded(journal, step.seqNo) {
        journal := SortBy(SeqNo, journal + [step]);
      }
      steps := steps[id := journal];
    }

    method ClearSteps(id: Uuid)
      modifies this`steps
      ensures steps == old(steps) - {id}
    {
      steps := steps - {id};
    }

    method AddUsage(id: Uuid, usage: JobUsage)
      requires Valid()
      modifies this`jobs
      ensures Valid() && jobs == UsageAdded(old(jobs), id, usage)
    {
      if id in jobs {
        var job := jobs[id];
        jobs := jobs[id := job.(usage := job.usage.Add(usage))];
      }
    }

    /** The memory of a recurring scan; the job map is walked in some order. */
    method RecentApprovalKeys(search: Uuid, limit: nat) returns (keys: seq<string>)
      ensures IsMemory(jobs, results, search, limit, keys)
    {
      var listing: seq<Uuid> := [];
      var pending := jobs.Keys;
      while pending != {}
        invariant pending <= jobs.Keys && Distinct(listing)
        invariant forall id :: id in listing <==> id in jobs && id !in pending
        decreases |pending|
      {
        var id :| id in pending;
        pending := pending - {id};
        listing := listing + [id];
      }
      keys := CollectKeys(results, RunsOf(jobs, search, listing), limit);
      assert ListsKeys(jobs, listing);
    }
  }

  /** What the recurring memory may answer: the first distinct keys, newest run first. */
  ghost predicate IsMemory(jobs: JobMap, results: ResultMap, search: Uuid, limit: nat, keys: seq<string>)
  {
    exists listing :: ListsKeys(jobs, listing)
                      && keys == Capped(FirstOccurrences(RunKeys(results, RunsOf(jobs, search, listing))), limit)
  }

  /** The outer loop over the runs. */
  method CollectKeys(results: ResultMap, runs: seq<ScanJob>, limit: nat) returns (keys: seq<string>)
    ensures keys == Capped(FirstOccurrences(RunKeys(results, runs)), limit)
  {
    keys := [];
    ghost var walked: seq<string> := [];
    for i := 0 to |runs|
      invariant walked == RunKeys(results, runs[..i])
      invariant keys == FirstOccurrences(walked)
      invariant |keys| < limit || keys == []
    {
      var found := if runs[i].id in results then results[runs[i].id] else [];
      var full;
      keys, full := AddKeys(keys, found, limit, walked);
      walked := walked + KeysOf(found);
      RunKeysNext(results, runs, i);
      if full {
        KeysSoFar(results, runs, i);
        CapReached(keys, walked, RunKeys(results, runs), limit);
        return;
      }
    }
    assert runs[..|runs|] == runs;
  }

  lemma CapReached(keys: seq<string>, walked: seq<string>, all: seq<string>, limit: nat)
    requires keys <= FirstOccurrences(walked) <= FirstOccurrences(all)
    requires |keys| == if limit == 0 then 1 else limit
    ensures keys == Capped(FirstOccurrences(all), limit)
  {
  }

  lemma KeysSoFar(results: ResultMap, runs: seq<ScanJob>, i: nat)
    requires i < |runs|
    ensures FirstOccurrences(RunKeys(results, runs[..i + 1])) <= FirstOccurrences(RunKeys(results, runs))
  {
    RunKeysPrefix(results, runs, i + 1);
    FirstOccurrencesPrefix(RunKeys(results, runs[..i + 1]), RunKeys(results, runs));
  }

  /** The inner loop over one run's findings; `full` means the cap was reached. */
  method AddKeys(known: seq<string>, found: seq<ApprovalFinding>, limit: nat, ghost before: seq<string>)
    returns (keys: seq<string>, full: bool)
    requires known == FirstOccurrences(before) && (|known| < limit || known == [])
    ensures full ==> keys <= FirstOccurrences(before + KeysOf(found)) && |keys| == if limit == 0 then 1 else limit
    ensures !full ==> keys == FirstOccurrences(before + KeysOf(found)) && (|keys| < limit || keys == [])
  {
    keys := known;
    assert before + KeysOf(found[..0]) == before;
    for j := 0 to |found|
      invariant keys == FirstOccurrences(before + KeysOf(found[..j]))
      invariant |keys| < limit || keys == []
    {
      var key := found[j].Key();
      NextKey(before, found, j);
      if key !in keys {
        keys := keys + [key];
        if |keys| >= limit {
          KeysPrefix(found, j + 1);
          FirstOccurrencesPrefix(before + KeysOf(found[..j + 1]), before + KeysOf(found));
          return keys, true;
        }
      }
    }
    assert found[..|found|] == found;
    full := false;
  }

  lemma NextKey(before: seq<string>, found: seq<ApprovalFinding>, j: nat)
    requires j < |found|
    ensures FirstOccurrences(before + KeysOf(found[..j + 1]))
            == var kept := FirstOccurrences(before + KeysOf(found[..j]));
               if found[j].Key() in kept then kept else kept + [found[j].Key()]
  {
    KeysOfNext(found, j);
    ConcatAssociative(before, KeysOf(found[..j]), [found[j].Key()]);
  }

  lemma RunKeysNext(results: ResultMap, runs: seq<ScanJob>, i: nat)
    requires i < |runs|
    ensures RunKeys(results, runs[..i + 1]) == RunKeys(results, runs[..i]) + KeysOf(ResultsOf(results, runs[i].id))
  {
    assert runs[..i + 1][..i] == runs[..i];
  }

  lemma {:induction false} KeysPrefix(found: seq<ApprovalFinding>, j: nat)
    requires j <= |found|
    ensures KeysOf(found[..j]) <= KeysOf(found)
  {
    if j == |found| {
      assert found[..j] == found;
    } else {
      KeysPrefix(found[..|found| - 1], j);
      assert found[..|found| - 1][..j] == found[..j];
    }
  }

  lemma {:induction false} RunKeysPrefix(results: ResultMap, runs: seq<ScanJob>, i: nat)
    requires i <= |runs|
    ensures RunKeys(results, runs[..i]) <= RunKeys(results, runs)
  {
    if i == |runs| {
      assert runs[..i] == runs;
    } else {
      RunKeysPrefix(results, runs[..|runs| - 1], i);
      assert runs[..|runs| - 1][..i] == runs[..i];
    }
  }

  class RecurringRepository {
    var searches: SearchMap

    ghost predicate Valid()
      reads this
    {
      forall id :: id in searches ==> searches[id].id == id
    }

    method Insert(search: RecurringSearch)
      requires Valid()
      modifies this
      ensures Valid() && searches == old(searches)[search.id := search]
    {
      searches := searches[search.id := search];
    }

    /** A scan of another user is left alone. */
    method Delete(user: Uuid, id: Uuid) returns (deleted: bool)
      requires Valid()
      modifies this
      ensures Valid() && deleted == (id in old(searches) && old(searches)[id].userId == user)
      ensures searches == if deleted then old(searches) - {id} else old(searches)
    {
      deleted := id in searches && searches[id].userId == user;
      if deleted {
        searches := searches - {id};
      }
    }

    /** Every due scan once, in some order. */
    method ListDue(now: nat) returns (due: seq<RecurringSearch>)
      requires Valid()
      ensures IsDueList(searches, now, due)
    {
      due := [];
      var pending := searches.Keys;
      while pending != {}
        invariant pending <= searches.Keys
        invariant forall i :: 0 <= i < |due| ==>
                    due[i].id in searches && due[i].id !in pending && searches[due[i].id] == due[i] && due[i].IsDue(now)
        invariant forall id :: id in searches && id !in pending && searches[id].IsDue(now) ==> searches[id] in due
        invariant forall i, j :: 0 <= i < j < |due| ==> due[i].id != due[j].id
        decreases |pending|
      {
        var id :| id in pending;
        pending := pending - {id};
        if searches[id].IsDue(now) {
          due := due + [searches[id]];
        }
      }
    }

    method MarkRan(id: Uuid, at: nat)
      requires Valid()
      modifies this
      ensures Valid() && searches == Ran(old(searches), id, at)
    {
      if id in searches {
        searches := searches[id := searches[id].MarkRan(at)];
      }
    }
  }

  function Ran(searches: SearchMap, id: Uuid, at: nat): SearchMap
  {
    if id in searches then searches[id := searches[id].MarkRan(at)] else searches
  }

  predicate IsDueList(searches: SearchMap, now: nat, due: seq<RecurringSearch>)
  {
    && (forall i :: 0 <= i < |due| ==> due[i].id in searches && searches[due[i].id] == due[i] && due[i].IsDue(now))
    && (forall id :: id in searches && searches[id].IsDue(now) ==> searches[id] in due)
    && (forall i, j :: 0 <= i < j < |due| ==> due[i].id != due[j].id)
  }
}
