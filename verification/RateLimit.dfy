/** The fixed-window limiter of `rate_limit.rs`: the in-memory map with its global
    eviction, and the bucket counters of the Redis variant. Instants are integers. */
module RateLimit {
  import opened Common

  datatype Window = Window(start: int, count: nat)
  datatype Hit = Hit(key: string, at: int)

  type Hits = map<string, Window>

  /** `Instant::duration_since` saturates at zero. */
  function Elapsed(now: int, start: int): nat
  {
    if now >= start then now - start else 0
  }

  function Lookup(hits: Hits, key: string): Option<Window>
  {
    if key in hits then Some(hits[key]) else None
  }

  /** One key on its own, never evicted: a hit joins the window it falls in or anchors a new one. */
  function Reference(previous: Option<Window>, now: int, window: nat): Window
  {
    if previous.None? || Elapsed(now, previous.value.start) >= window
    then Window(now, 1)
    else Window(previous.value.start, previous.value.count + 1)
  }

  /** The whole map after one hit: expired windows gone, the hit key charged. */
  function Charged(hits: Hits, key: string, now: int, window: nat): Hits
  {
    (map k | k in hits && Elapsed(now, hits[k].start) < window :: hits[k])
      [key := Reference(Lookup(hits, key), now, window)]
  }

  class FixedWindowLimiter {
    const maxPerWindow: nat
    const window: nat
    var hits: Hits

    constructor PerMinute(max: nat)
      ensures maxPerWindow == max && window == 60 && hits == map[]
    {
      maxPerWindow := max;
      window := 60;
      hits := map[];
    }

    /** Records a hit and says whether it is allowed. The re-anchor branch is dead:
        what survives the eviction is younger than the window. */
    method AllowAt(key: string, now: int) returns (allowed: bool)
      modifies this
      ensures hits == Charged(old(hits), key, now, window)
      ensures allowed <==> hits[key].count <= maxPerWindow
      ensures window > 0 ==> forall k :: k in hits ==> Elapsed(now, hits[k].start) < window
    {
      hits := map k | k in hits && Elapsed(now, hits[k].start) < window :: hits[k];
      if key !in hits {
        hits := hits[key := Window(now, 0)];
      }
      assert window > 0 ==> Elapsed(now, hits[key].start) < window;
      if Elapsed(now, hits[key].start) >= window {
        hits := hits[key := Window(now, 0)];
      }
      hits := hits[key := Window(hits[key].start, hits[key].count + 1)];
      allowed := hits[key].count <= maxPerWindow;
    }
  }

  // ---------------------------------------------------------------- runs

  predicate Monotone(run: seq<Hit>)
  {
    forall i, j :: 0 <= i <= j < |run| ==> run[i].at <= run[j].at
  }

  /** The map after a whole run from the empty limiter. */
  function After(run: seq<Hit>, window: nat): Hits
  {
    if run == [] then map[]
    else
      var last := run[|run| - 1];
      Charged(After(run[..|run| - 1], window), last.key, last.at, window)
  }

  /** The answer to hit `i` of the run. */
  predicate Allowed(run: seq<Hit>, i: nat, max: nat, window: nat)
    requires i < |run|
  {
    After(run[..i + 1], window)[run[i].key].count <= max
  }

  /** How many hits of `key` inside the closed interval [lo, hi] were allowed. */
  function AllowedIn(run: seq<Hit>, key: string, max: nat, window: nat, lo: int, hi: int): nat
  {
    if run == [] then 0
    else
      var i := |run| - 1;
      AllowedIn(run[..i], key, max, window, lo, hi)
        + if run[i].key == key && lo <= run[i].at <= hi && Allowed(run, i, max, window) then 1 else 0
  }

  /** The times at which one key hit, other keys dropped. */
  function TimesOf(run: seq<Hit>, key: string): seq<int>
  {
    if run == [] then []
    else
      var i := |run| - 1;
      if run[i].key == key then TimesOf(run[..i], key) + [run[i].at] else TimesOf(run[..i], key)
  }

  /** The never-evicting reference limiter on one key's times. */
  function RefAfter(times: seq<int>, window: nat): Option<Window>
  {
    if times == [] then None
    else Some(Reference(RefAfter(times[..|times| - 1], window), times[|times| - 1], window))
  }

  function RefAllowedIn(times: seq<int>, max: nat, window: nat, lo: int, hi: int): nat
  {
    if times == [] then 0
    else
      var i := |times| - 1;
      RefAllowedIn(times[..i], max, window, lo, hi)
        + if lo <= times[i] <= hi && RefAfter(times, window).value.count <= max then 1 else 0
  }

  /** How many of the times lie in the half-open interval [lo, lo + window). */
  function HitsWithin(times: seq<int>, lo: int, window: nat): nat
  {
    if times == [] then 0
    else
      var i := |times| - 1;
      HitsWithin(times[..i], lo, window) + if lo <= times[i] < lo + window then 1 else 0
  }

  predicate Ascending(times: seq<int>)
  {
    forall i, j :: 0 <= i <= j < |times| ==> times[i] <= times[j]
  }

  // ---------------------------------------------------------------- eviction is invisible

  lemma {:induction false} TimesAscend(run: seq<Hit>, key: string)
    requires Monotone(run)
    ensures Ascending(TimesOf(run, key))
    ensures forall i :: 0 <= i < |TimesOf(run, key)| ==> TimesOf(run, key)[i] <= run[|run| - 1].at
  {
    if run != [] {
      TimesAscend(run[..|run| - 1], key);
    }
  }

  /** Whatever the other keys did, a stored window is the reference window, and a missing
      one is absent or expired in the reference too. */
  lemma {:induction false} StoredIsReference(run: seq<Hit>, key: string, window: nat)
    requires run != [] && Monotone(run)
    ensures match Lookup(After(run, window), key)
            case Some(w) => RefAfter(TimesOf(run, key), window) == Some(w)
            case None =>
              var r := RefAfter(TimesOf(run, key), window);
              r.None? || Elapsed(run[|run| - 1].at, r.value.start) >= window
  {
    var i := |run| - 1;
    var before := run[..i];
    if before != [] {
      StoredIsReference(before, key, window);
      assert before[i - 1].at <= run[i].at;
    }
    if run[i].key == key {
      assert TimesOf(run, key)[..|TimesOf(run, key)| - 1] == TimesOf(before, key);
    }
  }

  /** Eviction and other keys are invisible: the answer to a hit is the answer of a limiter
      that sees this key alone and never evicts. */
  lemma EvictionInvisible(run: seq<Hit>, i: nat, max: nat, window: nat)
    requires i < |run| && Monotone(run)
    ensures Allowed(run, i, max, window)
            <==> RefAfter(TimesOf(run[..i + 1], run[i].key), window).value.count <= max
  {
    StoredIsReference(run[..i + 1], run[i].key, window);
  }

  lemma {:induction false} AllowedIsReference(run: seq<Hit>, key: string, max: nat, window: nat, lo: int, hi: int)
    requires Monotone(run)
    ensures AllowedIn(run, key, max, window, lo, hi)
            == RefAllowedIn(TimesOf(run, key), max, window, lo, hi)
  {
    if run != [] {
      var i := |run| - 1;
      AllowedIsReference(run[..i], key, max, window, lo, hi);
      if run[i].key == key {
        assert run[..i + 1] == run;
        EvictionInvisible(run, i, max, window);
        assert TimesOf(run, key)[..|TimesOf(run, key)| - 1] == TimesOf(run[..i], key);
      }
    }
  }

  // ---------------------------------------------------------------- the sliding-window bound

  /** Inside [lo, lo + window]: at most one window can start before or at `lo`, one after it. */
  lemma {:induction false} RefBound(times: seq<int>, max: nat, window: nat, lo: int)
    requires Ascending(times) && window > 0
    ensures times != [] ==>
              var w := RefAfter(times, window).value;
              var last := times[|times| - 1];
              var n := RefAllowedIn(times, max, window, lo, lo + window);
              && w.start <= last < w.start + window
              && (last < lo ==> n == 0)
              && (w.start <= lo ==> n <= Min(w.count, max))
              && (lo < w.start <= lo + window ==> n <= max + Min(w.count, max))
    ensures RefAllowedIn(times, max, window, lo, lo + window) <= 2 * max
  {
    if times != [] {
      var before := times[..|times| - 1];
      RefBound(before, max, window, lo);
      if before != [] {
        assert before[|before| - 1] <= times[|times| - 1];
      }
    }
  }

  /** Any closed interval one window long holds at most twice the limit of allowed hits. */
  lemma SlidingWindowBound(run: seq<Hit>, key: string, max: nat, window: nat, lo: int)
    requires Monotone(run) && window > 0
    ensures AllowedIn(run, key, max, window, lo, lo + window) <= 2 * max
  {
    AllowedIsReference(run, key, max, window, lo, lo + window);
    TimesAscend(run, key);
    RefBound(TimesOf(run, key), max, window, lo);
  }

  lemma {:induction false} RefCounts(times: seq<int>, window: nat)
    requires Ascending(times) && times != [] && window > 0
    ensures var w := RefAfter(times, window).value;
            w.start <= times[|times| - 1] < w.start + window
            && w.count <= HitsWithin(times, w.start, window)
  {
    var before := times[..|times| - 1];
    if before != [] {
      RefCounts(before, window);
      assert before[|before| - 1] <= times[|times| - 1];
    }
  }

  /** A refusal proves that more than `max` hits of that key fell inside one window-long interval. */
  lemma RefusalNeedsABurst(run: seq<Hit>, i: nat, max: nat, window: nat)
    requires i < |run| && Monotone(run) && window > 0
    requires !Allowed(run, i, max, window)
    ensures var times := TimesOf(run[..i + 1], run[i].key);
            exists lo :: HitsWithin(times, lo, window) > max
  {
    EvictionInvisible(run, i, max, window);
    var upTo := run[..i + 1];
    var times := TimesOf(upTo, run[i].key);
    TimesAscend(upTo, run[i].key);
    RefCounts(times, window);
    var lo := RefAfter(times, window).value.start;
    assert HitsWithin(times, lo, window) > max;
  }

  lemma {:induction false} HitsWithinGrows(run: seq<Hit>, i: nat, key: string, lo: int, window: nat)
    requires i <= |run|
    ensures HitsWithin(TimesOf(run[..i], key), lo, window) <= HitsWithin(TimesOf(run, key), lo, window)
  {
    if i == |run| {
      assert run[..i] == run;
    } else {
      var n := |run| - 1;
      HitsWithinGrows(run[..n], i, key, lo, window);
      assert run[..n][..i] == run[..i];
      if run[n].key == key {
        assert TimesOf(run, key)[..|TimesOf(run, key)| - 1] == TimesOf(run[..n], key);
      }
    }
  }

  /** A key that stays within the limit in every window-long interval is never refused. */
  lemma PoliteKeyNeverRefused(run: seq<Hit>, key: string, max: nat, window: nat)
    requires Monotone(run) && window > 0
    requires forall lo :: HitsWithin(TimesOf(run, key), lo, window) <= max
    ensures forall i :: 0 <= i < |run| && run[i].key == key ==> Allowed(run, i, max, window)
  {
    forall i | 0 <= i < |run| && run[i].key == key
      ensures Allowed(run, i, max, window)
    {
      if !Allowed(run, i, max, window) {
        RefusalNeedsABurst(run, i, max, window);
        var times := TimesOf(run[..i + 1], key);
        var lo :| HitsWithin(times, lo, window) > max;
        HitsWithinGrows(run, i + 1, key, lo, window);
      }
    }
  }

  // ---------------------------------------------------------------- the bound is attained

  /** One key hitting at the given times. */
  function HitsAt(key: string, times: seq<int>): (hits: seq<Hit>)
    ensures |hits| == |times| && forall i :: 0 <= i < |hits| ==> hits[i] == Hit(key, times[i])
  {
    if times == [] then [] else HitsAt(key, times[..|times| - 1]) + [Hit(key, times[|times| - 1])]
  }

  lemma {:induction false} TimesOfHitsAt(key: string, times: seq<int>)
    ensures TimesOf(HitsAt(key, times), key) == times
  {
    if times != [] {
      var hits := HitsAt(key, times);
      assert hits[..|hits| - 1] == HitsAt(key, times[..|times| - 1]);
      TimesOfHitsAt(key, times[..|times| - 1]);
    }
  }

  function Copies(n: nat, at: int): (times: seq<int>)
    ensures |times| == n && forall i :: 0 <= i < n ==> times[i] == at
  {
    if n == 0 then [] else Copies(n - 1, at) + [at]
  }

  lemma RefSnoc(times: seq<int>, at: int, max: nat, window: nat, lo: int)
    requires lo <= at <= lo + window
    ensures var w := Reference(RefAfter(times, window), at, window);
            && RefAfter(times + [at], window) == Some(w)
            && RefAllowedIn(times + [at], max, window, lo, lo + window)
               == RefAllowedIn(times, max, window, lo, lo + window) + if w.count <= max then 1 else 0
  {
    assert (times + [at])[..|times|] == times;
  }

  /** A full burst that opens a window is allowed in full. */
  lemma {:induction false} BurstAllowed(before: seq<int>, n: nat, at: int, max: nat, window: nat, lo: int)
    requires window > 0 && n <= max && lo <= at <= lo + window
    requires var w := RefAfter(before, window); w.None? || Elapsed(at, w.value.start) >= window
    ensures var times := before + Copies(n, at);
            && RefAfter(times, window) == (if n == 0 then RefAfter(before, window) else Some(Window(at, n)))
            && RefAllowedIn(times, max, window, lo, lo + window)
               == RefAllowedIn(before, max, window, lo, lo + window) + n
  {
    if n == 0 {
      assert before + Copies(0, at) == before;
    } else {
      var times := before + Copies(n - 1, at);
      BurstAllowed(before, n - 1, at, max, window, lo);
      assert Reference(RefAfter(times, window), at, window) == Window(at, n);
      RefSnoc(times, at, max, window, lo);
      ConcatAssociative(before, Copies(n - 1, at), [at]);
    }
  }

  /** Twice the limit is reached: a full burst at `lo` and another one window later. */
  lemma BoundIsTight(key: string, max: nat, window: nat, lo: int) returns (run: seq<Hit>)
    requires window > 0
    ensures Monotone(run) && AllowedIn(run, key, max, window, lo, lo + window) == 2 * max
  {
    var times := Copies(max, lo) + Copies(max, lo + window);
    TwoBursts(max, window, lo);
    run := RunAt(key, times);
    AllowedByTimes(run, key, times, max, window, lo);
  }

  lemma RunAt(key: string, times: seq<int>) returns (run: seq<Hit>)
    requires Ascending(times)
    ensures Monotone(run) && TimesOf(run, key) == times
  {
    run := HitsAt(key, times);
    TimesOfHitsAt(key, times);
  }

  lemma AllowedByTimes(run: seq<Hit>, key: string, times: seq<int>, max: nat, window: nat, lo: int)
    requires Monotone(run) && TimesOf(run, key) == times
    ensures AllowedIn(run, key, max, window, lo, lo + window) == RefAllowedIn(times, max, window, lo, lo + window)
  {
    AllowedIsReference(run, key, max, window, lo, lo + window);
  }

  lemma FirstBurst(n: nat, at: int, max: nat, window: nat)
    requires window > 0 && n <= max
    ensures RefAfter(Copies(n, at), window) == if n == 0 then None else Some(Window(at, n))
    ensures RefAllowedIn(Copies(n, at), max, window, at, at + window) == n
  {
    BurstAllowed([], n, at, max, window, at);
    assert [] + Copies(n, at) == Copies(n, at);
  }

  lemma TwoBursts(max: nat, window: nat, lo: int)
    requires window > 0
    ensures RefAllowedIn(Copies(max, lo) + Copies(max, lo + window), max, window, lo, lo + window) == 2 * max
  {
    FirstBurst(max, lo, max, window);
    BurstAllowed(Copies(max, lo), max, lo + window, max, window, lo);
  }

  // ---------------------------------------------------------------- Redis buckets

  datatype Counter = Counter(count: nat, expiresAt: nat)

  type Counters = map<(string, nat), Counter>

  /** What Redis still holds at `now`. */
  function Live(counters: Counters, now: nat): Counters
  {
    map b | b in counters && now < counters[b].expiresAt :: counters[b]
  }

  /** Redis drops what has expired, INCR charges the bucket, EXPIRE renews it. */
  function BucketCharged(counters: Counters, key: string, now: nat, windowSecs: nat): Counters
    requires windowSecs > 0
  {
    var live := Live(counters, now);
    var bucket := (key, now / windowSecs);
    var count := if bucket in live then live[bucket].count else 0;
    live[bucket := Counter(count + 1, now + windowSecs + 1)]
  }

  /** What becomes of a request to Redis: charged and answered, charged with the reply lost, or not
      even charged. */
  datatype Link = Answered | ReplyLost | Down

  function Requested(counters: Counters, key: string, now: nat, windowSecs: nat, link: Link): Counters
    requires windowSecs > 0
  {
    if link == Down then counters else BucketCharged(counters, key, now, windowSecs)
  }

  class RedisWindowLimiter {
    const maxPerWindow: nat
    const windowSecs: nat
    var counters: Counters

    constructor PerMinute(max: nat)
      ensures maxPerWindow == max && windowSecs == 60 && counters == map[]
    {
      maxPerWindow := max;
      windowSecs := 60;
      counters := map[];
    }

    /** `None` is a Redis error: the request never got there, or the reply never came back. */
    method TryAllow(key: string, now: nat, link: Link) returns (allowed: Option<bool>)
      requires windowSecs > 0
      modifies this
      ensures counters == Requested(old(counters), key, now, windowSecs, link)
      ensures allowed == if link == Answered then Some(counters[(key, now / windowSecs)].count <= maxPerWindow)
              else None
    {
      if link == Down {
        return None;
      }
      counters := Live(counters, now);
      var bucket := (key, now / windowSecs);
      var count := 1;
      if bucket in counters {
        count := counters[bucket].count + 1;
      }
      counters := counters[bucket := Counter(count, now + windowSecs + 1)];
      allowed := if link == Answered then Some(count <= maxPerWindow) else None;
    }

    /** An error lets the request in. */
    method Allow(key: string, now: nat, link: Link) returns (allowed: bool)
      requires windowSecs > 0
      modifies this
      ensures counters == Requested(old(counters), key, now, windowSecs, link)
      ensures allowed <==> link != Answered || counters[(key, now / windowSecs)].count <= maxPerWindow
    {
      var answer := TryAllow(key, now, link);
      allowed := answer.None? || answer.value;
    }
  }

  datatype Request = Request(key: string, at: nat, link: Link)

  predicate RequestsAscend(run: seq<Request>)
  {
    forall i, j :: 0 <= i <= j < |run| ==> run[i].at <= run[j].at
  }

  predicate AllAnswered(run: seq<Request>)
  {
    forall i :: 0 <= i < |run| ==> run[i].link == Answered
  }

  function RedisAfter(run: seq<Request>, windowSecs: nat): Counters
    requires windowSecs > 0
  {
    if run == [] then map[]
    else
      var last := run[|run| - 1];
      Requested(RedisAfter(run[..|run| - 1], windowSecs), last.key, last.at, windowSecs, last.link)
  }

  /** The last request of the run fits the maximum by its counter. */
  predicate Fits(run: seq<Request>, max: nat, windowSecs: nat)
    requires windowSecs > 0 && run != []
  {
    var last := run[|run| - 1];
    last.link == Answered && RedisAfter(run, windowSecs)[(last.key, last.at / windowSecs)].count <= max
  }

  /** How many requests of a key inside [lo, hi] were let in. */
  function RedisAllowedIn(run: seq<Request>, key: string, max: nat, windowSecs: nat, lo: nat, hi: nat): nat
    requires windowSecs > 0
  {
    if run == [] then 0
    else
      var i := |run| - 1;
      RedisAllowedIn(run[..i], key, max, windowSecs, lo, hi)
        + if run[i].key == key && lo <= run[i].at <= hi && (run[i].link != Answered || Fits(run, max, windowSecs))
        then 1 else 0
  }

  /** How many of them met an error. */
  function UnansweredIn(run: seq<Request>, key: string, lo: nat, hi: nat): nat
  {
    if run == [] then 0
    else
      var i := |run| - 1;
      UnansweredIn(run[..i], key, lo, hi)
        + if run[i].key == key && lo <= run[i].at <= hi && run[i].link != Answered then 1 else 0
  }

  /** Requests of one key in one bucket that its counter allowed. */
  function BucketAllowed(run: seq<Request>, key: string, max: nat, windowSecs: nat, bucket: nat): nat
    requires windowSecs > 0
  {
    if run == [] then 0
    else
      var i := |run| - 1;
      BucketAllowed(run[..i], key, max, windowSecs, bucket)
        + if run[i].key == key && run[i].at / windowSecs == bucket && Fits(run, max, windowSecs) then 1 else 0
  }

  lemma ProductMonotone(a: nat, b: nat, w: nat)
    requires a <= b
    ensures a * w <= b * w
  {
    assert b * w == a * w + (b - a) * w;
  }

  lemma BucketEnds(at: nat, now: nat, w: nat)
    requires w > 0 && at + w + 1 <= now
    ensures at / w < now / w
  {
    assert (at / w + 1) * w == at / w * w + w;
    if now / w <= at / w {
      ProductMonotone(now / w + 1, at / w + 1, w);
    }
  }

  lemma QuotientMonotone(a: nat, b: nat, w: nat)
    requires w > 0 && a <= b
    ensures a / w <= b / w
  {
    if b / w + 1 <= a / w {
      ProductMonotone(b / w + 1, a / w, w);
    }
  }

  /** Every counter was last renewed by a request in its own bucket, no later than `now`. */
  ghost predicate Renewed(counters: Counters, now: nat, windowSecs: nat)
    requires windowSecs > 0
  {
    forall b :: b in counters ==> RenewedAt(b.1, counters[b].expiresAt, now, windowSecs)
  }

  ghost predicate RenewedAt(bucket: nat, expiresAt: nat, now: nat, windowSecs: nat)
    requires windowSecs > 0
  {
    exists at: nat :: at <= now && bucket == at / windowSecs && expiresAt == at + windowSecs + 1
  }

  lemma LaterRenewed(bucket: nat, expiresAt: nat, before: nat, now: nat, windowSecs: nat)
    requires windowSecs > 0 && before <= now && RenewedAt(bucket, expiresAt, before, windowSecs)
    ensures RenewedAt(bucket, expiresAt, now, windowSecs)
    ensures expiresAt <= now ==> bucket < now / windowSecs
    ensures bucket <= now / windowSecs
  {
    var at: nat :| at <= before && bucket == at / windowSecs && expiresAt == at + windowSecs + 1;
    QuotientMonotone(at, now, windowSecs);
    if expiresAt <= now {
      BucketEnds(at, now, windowSecs);
    }
  }

  lemma RequestRenews(counters: Counters, before: nat, r: Request, windowSecs: nat)
    requires windowSecs > 0 && before <= r.at && Renewed(counters, before, windowSecs)
    ensures Renewed(Requested(counters, r.key, r.at, windowSecs, r.link), r.at, windowSecs)
  {
    var after := Requested(counters, r.key, r.at, windowSecs, r.link);
    forall b | b in after ensures RenewedAt(b.1, after[b].expiresAt, r.at, windowSecs) {
      if b in counters && after[b] == counters[b] {
        LaterRenewed(b.1, counters[b].expiresAt, before, r.at, windowSecs);
      }
    }
  }

  /** `n` requests of the bucket were allowed; `all` tells that none met an error. */
  ghost predicate Counted(counters: Counters, b: (string, nat), n: nat, max: nat, now: nat, windowSecs: nat, all: bool)
    requires windowSecs > 0
  {
    && n <= max
    && (if b in counters then n <= Min(counters[b].count, max) && (all ==> n == Min(counters[b].count, max))
        else n == 0 || b.1 < now / windowSecs)
  }

  /** A request to another bucket leaves the count; one that is over loses its counter at most. */
  lemma OthersCounted(counters: Counters, b: (string, nat), n: nat, max: nat, before: nat, r: Request, windowSecs: nat,
                      all: bool)
    requires windowSecs > 0 && before <= r.at && Renewed(counters, before, windowSecs)
    requires Counted(counters, b, n, max, before, windowSecs, all)
    requires r.link == Down || b != (r.key, r.at / windowSecs)
    ensures Counted(Requested(counters, r.key, r.at, windowSecs, r.link), b, n, max, r.at, windowSecs,
                    all && r.link == Answered)
  {
    QuotientMonotone(before, r.at, windowSecs);
    if b in counters {
      LaterRenewed(b.1, counters[b].expiresAt, before, r.at, windowSecs);
    }
  }

  lemma OwnCounted(counters: Counters, b: (string, nat), n: nat, max: nat, before: nat, r: Request, windowSecs: nat,
                   all: bool)
    requires windowSecs > 0 && before <= r.at && Renewed(counters, before, windowSecs)
    requires Counted(counters, b, n, max, before, windowSecs, all)
    requires r.link != Down && b == (r.key, r.at / windowSecs)
    ensures var after := Requested(counters, r.key, r.at, windowSecs, r.link);
            b in after && Counted(after, b, n + if r.link == Answered && after[b].count <= max then 1 else 0, max, r.at,
                                  windowSecs, all && r.link == Answered)
  {
    QuotientMonotone(before, r.at, windowSecs);
    if b in counters {
      LaterRenewed(b.1, counters[b].expiresAt, before, r.at, windowSecs);
    }
  }

  lemma AllAnsweredNext(before: seq<Request>, r: Request)
    ensures AllAnswered(before + [r]) <==> AllAnswered(before) && r.link == Answered
  {
    var run := before + [r];
    assert run[|before|] == r && forall i :: 0 <= i < |before| ==> run[i] == before[i];
  }

  lemma BucketNext(before: seq<Request>, r: Request, key: string, max: nat, windowSecs: nat, bucket: nat)
    requires windowSecs > 0
    ensures var after := Requested(RedisAfter(before, windowSecs), r.key, r.at, windowSecs, r.link);
            && RedisAfter(before + [r], windowSecs) == after
            && BucketAllowed(before + [r], key, max, windowSecs, bucket)
               == BucketAllowed(before, key, max, windowSecs, bucket)
                  + if r.key == key && r.at / windowSecs == bucket && r.link == Answered
                       && after[(key, bucket)].count <= max then 1 else 0
  {
    assert (before + [r])[..|before|] == before && (before + [r])[|before|] == r;
  }

  /** What one more request keeps. */
  lemma NextInvariant(before: seq<Request>, r: Request, earlier: nat, key: string, max: nat, windowSecs: nat,
                      bucket: nat)
    requires windowSecs > 0 && earlier <= r.at && Renewed(RedisAfter(before, windowSecs), earlier, windowSecs)
    requires Counted(RedisAfter(before, windowSecs), (key, bucket), BucketAllowed(before, key, max, windowSecs, bucket),
                     max, earlier, windowSecs, AllAnswered(before))
    ensures Renewed(RedisAfter(before + [r], windowSecs), r.at, windowSecs)
    ensures Counted(RedisAfter(before + [r], windowSecs), (key, bucket),
                    BucketAllowed(before + [r], key, max, windowSecs, bucket), max, r.at, windowSecs,
                    AllAnswered(before + [r]))
  {
    var prior, n := RedisAfter(before, windowSecs), BucketAllowed(before, key, max, windowSecs, bucket);
    AllAnsweredNext(before, r);
    BucketNext(before, r, key, max, windowSecs, bucket);
    RequestRenews(prior, earlier, r, windowSecs);
    if r.link == Down || (key, bucket) != (r.key, r.at / windowSecs) {
      OthersCounted(prior, (key, bucket), n, max, earlier, r, windowSecs, AllAnswered(before));
    } else {
      OwnCounted(prior, (key, bucket), n, max, earlier, r, windowSecs, AllAnswered(before));
    }
  }

  /** Expiry never loses a count: a bucket's counter outlives the bucket. */
  lemma {:induction false} RedisInvariant(run: seq<Request>, key: string, max: nat, windowSecs: nat, bucket: nat)
    requires windowSecs > 0 && run != [] && RequestsAscend(run)
    ensures var counters, now := RedisAfter(run, windowSecs), run[|run| - 1].at;
            && Renewed(counters, now, windowSecs)
            && Counted(counters, (key, bucket), BucketAllowed(run, key, max, windowSecs, bucket), max, now, windowSecs,
                       AllAnswered(run))
  {
    var before, r := run[..|run| - 1], run[|run| - 1];
    assert run == before + [r];
    if before == [] {
      NextInvariant(before, r, 0, key, max, windowSecs, bucket);
    } else {
      RedisInvariant(before, key, max, windowSecs, bucket);
      assert before[|before| - 1].at <= r.at;
      NextInvariant(before, r, before[|before| - 1].at, key, max, windowSecs, bucket);
    }
  }

  /** The bucket form meets the same bound, because a window-long interval meets two buckets; only what
      an error lets in comes on top. */
  lemma RedisSlidingWindowBound(run: seq<Request>, key: string, max: nat, windowSecs: nat, lo: nat)
    requires windowSecs > 0 && RequestsAscend(run)
    ensures RedisAllowedIn(run, key, max, windowSecs, lo, lo + windowSecs)
            <= 2 * max + UnansweredIn(run, key, lo, lo + windowSecs)
  {
    var b := lo / windowSecs;
    TwoBuckets(run, key, max, windowSecs, lo);
    BucketBound(run, key, max, windowSecs, b);
    BucketBound(run, key, max, windowSecs, b + 1);
  }

  lemma BucketBound(run: seq<Request>, key: string, max: nat, windowSecs: nat, bucket: nat)
    requires windowSecs > 0 && RequestsAscend(run)
    ensures BucketAllowed(run, key, max, windowSecs, bucket) <= max
  {
    if run != [] {
      RedisInvariant(run, key, max, windowSecs, bucket);
    }
  }

  lemma NextBucketAtMost(lo: nat, at: nat, w: nat)
    requires w > 0 && lo <= at <= lo + w
    ensures at / w == lo / w || at / w == lo / w + 1
  {
    QuotientMonotone(lo, at, w);
    assert (lo / w + 2) * w == (lo / w + 1) * w + w;
    if lo / w + 2 <= at / w {
      ProductMonotone(lo / w + 2, at / w, w);
    }
  }

  lemma {:induction false} TwoBuckets(run: seq<Request>, key: string, max: nat, windowSecs: nat, lo: nat)
    requires windowSecs > 0
    ensures RedisAllowedIn(run, key, max, windowSecs, lo, lo + windowSecs)
            <= BucketAllowed(run, key, max, windowSecs, lo / windowSecs)
               + BucketAllowed(run, key, max, windowSecs, lo / windowSecs + 1)
               + UnansweredIn(run, key, lo, lo + windowSecs)
  {
    if run != [] {
      var i := |run| - 1;
      TwoBuckets(run[..i], key, max, windowSecs, lo);
      var at := run[i].at;
      if lo <= at <= lo + windowSecs {
        NextBucketAtMost(lo, at, windowSecs);
      }
    }
  }
}
