/**
 The sliding-window rate limiter: one queue of admission times per client, pruned from the
 front and appended to at the back.
 */
module RateLimit {
  /** Admissions of `times` in the closed interval from `lo` to `hi`. */
  function Within(times: seq<real>, lo: real, hi: real): nat {
    if times == [] then 0
    else Within(times[..|times| - 1], lo, hi) + (if lo <= times[|times| - 1] <= hi then 1 else 0)
  }

  /** It is a count of positions, both ends of the interval included. */
  lemma {:induction false} WithinCounts(times: seq<real>, lo: real, hi: real)
    ensures Within(times, lo, hi) == |set i | 0 <= i < |times| && lo <= times[i] && times[i] <= hi|
  {
    var all := set i | 0 <= i < |times| && lo <= times[i] && times[i] <= hi;
    if times == [] {
      assert all == {};
    } else {
      var n := |times| - 1;
      var front := times[..n];
      WithinCounts(front, lo, hi);
      var early := set i | 0 <= i < |front| && lo <= front[i] && front[i] <= hi;
      assert all == early + (if lo <= times[n] <= hi then {n} else {});
    }
  }

  predicate Sorted(times: seq<real>) {
    forall i, j :: 0 <= i < j < |times| ==> times[i] <= times[j]
  }

  /** Any `requests + 1` consecutive admissions span more than the window. */
  ghost predicate Spaced(times: seq<real>, requests: nat, window: real) {
    forall i, j :: 0 <= i <= j < |times| && j == i + requests ==> times[j] - times[i] > window
  }

  /** The closed interval of the window's length from `lo` on holds at most the limit. */
  predicate WindowHolds(times: seq<real>, requests: nat, window: real, lo: real) {
    Within(times, lo, lo + window) <= requests
  }

  lemma {:induction false} WithinLate(times: seq<real>, lo: real, hi: real)
    requires forall i :: 0 <= i < |times| ==> times[i] < lo
    ensures Within(times, lo, hi) == 0
  {
    if times != [] {
      WithinLate(times[..|times| - 1], lo, hi);
    }
  }

  lemma {:induction false} WithinAll(times: seq<real>, lo: real, hi: real)
    requires forall i :: 0 <= i < |times| ==> lo <= times[i] <= hi
    ensures Within(times, lo, hi) == |times|
  {
    if times != [] {
      WithinAll(times[..|times| - 1], lo, hi);
    }
  }

  /** Cutting off the last element and cutting at `k` commute. */
  lemma CutLast(times: seq<real>, k: nat)
    requires k < |times|
    ensures var n := |times| - 1;
            && times[..n][..k] == times[..k]
            && times[..n][k..] == times[k..][..n - k]
            && |times[k..]| - 1 == n - k && times[k..][n - k] == times[n]
  {
  }

  lemma {:induction false} WithinSplits(times: seq<real>, k: nat, lo: real, hi: real)
    requires k <= |times|
    ensures Within(times, lo, hi) == Within(times[..k], lo, hi) + Within(times[k..], lo, hi)
    decreases |times|
  {
    if k == |times| {
      assert times[..k] == times;
    } else {
      var n := |times| - 1;
      WithinSplits(times[..n], k, lo, hi);
      CutLast(times, k);
    }
  }

  lemma {:induction false} WithinAtMost(times: seq<real>, lo: real, hi: real)
    ensures Within(times, lo, hi) <= |times|
  {
    if times != [] {
      WithinAtMost(times[..|times| - 1], lo, hi);
    }
  }

  /** If the last admission is inside the interval, all but the last `requests` are too old. */
  lemma OnlyLastCount(times: seq<real>, k: nat, requests: nat, window: real, lo: real)
    requires Sorted(times) && Spaced(times, requests, window)
    requires k >= 1 && k + requests == |times| && times[|times| - 1] <= lo + window
    ensures Within(times, lo, lo + window) <= requests
  {
    assert times[k - 1 + requests] - times[k - 1] > window;
    WithinSplits(times, k, lo, lo + window);
    WithinLate(times[..k], lo, lo + window);
    WithinAtMost(times[k..], lo, lo + window);
  }

  /** No closed interval as long as the window holds more than `requests` admissions. */
  lemma {:induction false} WindowBound(times: seq<real>, requests: nat, window: real, lo: real)
    requires Sorted(times) && Spaced(times, requests, window)
    ensures WindowHolds(times, requests, window, lo)
  {
    if |times| > 0 {
      var n := |times| - 1;
      if !(lo <= times[n] <= lo + window) {
        WindowBound(times[..n], requests, window, lo);
      } else if n >= requests {
        OnlyLastCount(times, n + 1 - requests, requests, window, lo);
      } else {
        WithinAtMost(times, lo, lo + window);
      }
    }
  }

  /** A bucket is the recent end of its history; `clock` is the time of the last request. */
  ghost predicate BucketOk(past: seq<real>, bucket: seq<real>, requests: nat, window: real, clock: real) {
    && Sorted(past)
    && Spaced(past, requests, window)
    && (forall i :: 0 <= i < |past| ==> past[i] <= clock)
    && |bucket| <= |past|
    && bucket == past[|past| - |bucket|..]
    && (forall i :: 0 <= i < |past| - |bucket| ==> past[i] < clock - window)
    && |bucket| <= requests
  }

  function Extended(past: seq<real>, admitted: bool, now: real): seq<real> {
    if admitted then past + [now] else past
  }

  lemma TimePasses(past: seq<real>, bucket: seq<real>, requests: nat, window: real, clock: real, now: real)
    requires BucketOk(past, bucket, requests, window, clock) && clock <= now
    ensures BucketOk(past, bucket, requests, window, now)
  {
  }

  lemma PruneKeepsOk(past: seq<real>, bucket: seq<real>, requests: nat, window: real, now: real)
    requires BucketOk(past, bucket, requests, window, now) && bucket != [] && bucket[0] < now - window
    ensures BucketOk(past, bucket[1..], requests, window, now)
  {
    assert bucket[0] == past[|past| - |bucket|];
  }

  /** An absent key stands for an empty queue. */
  function Times(m: map<string, seq<real>>, key: string): seq<real> {
    if key in m then m[key] else []
  }

  ghost predicate BucketsOk(
    buckets: map<string, seq<real>>, history: map<string, seq<real>>, requests: nat, window: real, clock: real)
  {
    forall key :: BucketOk(Times(history, key), Times(buckets, key), requests, window, clock)
  }

  lemma BucketsWait(
    buckets: map<string, seq<real>>, history: map<string, seq<real>>, key: string,
    requests: nat, window: real, clock: real, now: real)
    requires BucketsOk(buckets, history, requests, window, clock) && clock <= now
    ensures BucketOk(Times(history, key), Times(buckets, key), requests, window, now)
  {
    TimePasses(Times(history, key), Times(buckets, key), requests, window, clock, now);
  }

  lemma OtherKeyOk(
    buckets: map<string, seq<real>>, history: map<string, seq<real>>, key: string, bucket: seq<real>, past: seq<real>,
    requests: nat, window: real, now: real, k: string)
    requires k != key && BucketOk(Times(history, k), Times(buckets, k), requests, window, now)
    ensures BucketOk(Times(history[key := past], k), Times(buckets[key := bucket], k), requests, window, now)
  {
    assert Times(history[key := past], k) == Times(history, k) && Times(buckets[key := bucket], k) == Times(buckets, k);
  }

  lemma StoreKeepsOk(
    buckets: map<string, seq<real>>, history: map<string, seq<real>>, key: string, bucket: seq<real>, past: seq<real>,
    requests: nat, window: real, clock: real, now: real)
    requires BucketsOk(buckets, history, requests, window, clock) && clock <= now
    requires BucketOk(past, bucket, requests, window, now)
    ensures BucketsOk(buckets[key := bucket], history[key := past], requests, window, now)
  {
    var buckets', history' := buckets[key := bucket], history[key := past];
    assert Times(history', key) == past && Times(buckets', key) == bucket;
    forall k | k != key
      ensures BucketOk(Times(history', k), Times(buckets', k), requests, window, now)
    {
      BucketsWait(buckets, history, k, requests, window, clock, now);
      OtherKeyOk(buckets, history, key, bucket, past, requests, window, now, k);
    }
  }

  /** The admissions of a client are exactly those of its requests, asked in order. */
  ghost predicate KeyAsked(asked: seq<real>, past: seq<real>, requests: nat, window: real, clock: real) {
    Sorted(asked) && UpTo(asked, clock) && past == Admissions([], asked, requests, window)
  }

  predicate UpTo(times: seq<real>, clock: real) {
    forall i :: 0 <= i < |times| ==> times[i] <= clock
  }

  ghost predicate AskedOk(
    asked: map<string, seq<real>>, history: map<string, seq<real>>, requests: nat, window: real, clock: real)
  {
    forall key :: KeyAsked(Times(asked, key), Times(history, key), requests, window, clock)
  }

  /** What holds between requests. */
  ghost predicate StateOk(
    buckets: map<string, seq<real>>, asked: map<string, seq<real>>, history: map<string, seq<real>>,
    requests: nat, window: real, clock: real)
  {
    BucketsOk(buckets, history, requests, window, clock) && AskedOk(asked, history, requests, window, clock)
  }

  /** For every client, no closed interval of the window's length holds more than the limit. */
  ghost predicate AllWindowsHold(history: map<string, seq<real>>, requests: nat, window: real) {
    forall key, lo :: WindowHolds(Times(history, key), requests, window, lo)
  }

  lemma AskedMeansBounded(
    asked: map<string, seq<real>>, history: map<string, seq<real>>, requests: nat, window: real, clock: real)
    requires AskedOk(asked, history, requests, window, clock)
    ensures AllWindowsHold(history, requests, window)
  {
    forall key, lo
      ensures WindowHolds(Times(history, key), requests, window, lo)
    {
      assert KeyAsked(Times(asked, key), Times(history, key), requests, window, clock);
      EveryWindowIsBounded(Times(asked, key), requests, window, lo);
    }
  }

  lemma KeyAsksAgain(asked: seq<real>, past: seq<real>, requests: nat, window: real, clock: real, now: real)
    requires KeyAsked(asked, past, requests, window, clock) && clock <= now
    ensures KeyAsked(asked + [now], AfterRequest(past, now, requests, window), requests, window, now)
  {
    AdmissionsAppend([], asked, [now], requests, window);
    OneRequest(past, now, requests, window);
  }

  lemma AskKeepsOk(
    asked: map<string, seq<real>>, history: map<string, seq<real>>, key: string, more: seq<real>,
    requests: nat, window: real, clock: real, now: real)
    requires AskedOk(asked, history, requests, window, clock) && clock <= now
    requires more == AfterRequest(Times(history, key), now, requests, window)
    ensures AskedOk(asked[key := Times(asked, key) + [now]], history[key := more], requests, window, now)
  {
    var asked', history' := asked[key := Times(asked, key) + [now]], history[key := more];
    assert KeyAsked(Times(asked, key), Times(history, key), requests, window, clock);
    KeyAsksAgain(Times(asked, key), Times(history, key), requests, window, clock, now);
    assert Times(asked', key) == Times(asked, key) + [now] && Times(history', key) == more;
    forall k | k != key
      ensures KeyAsked(Times(asked', k), Times(history', k), requests, window, now)
    {
      assert KeyAsked(Times(asked, k), Times(history, k), requests, window, clock);
      assert Times(asked', k) == Times(asked, k) && Times(history', k) == Times(history, k);
    }
  }

  /** One request of one client keeps the state in order. */
  lemma RequestKeepsOk(
    buckets: map<string, seq<real>>, asked: map<string, seq<real>>, history: map<string, seq<real>>,
    key: string, bucket: seq<real>, more: seq<real>, requests: nat, window: real, clock: real, now: real)
    requires StateOk(buckets, asked, history, requests, window, clock) && clock <= now
    requires more == AfterRequest(Times(history, key), now, requests, window)
    requires BucketOk(more, bucket, requests, window, now)
    ensures StateOk(buckets[key := bucket], asked[key := Times(asked, key) + [now]], history[key := more],
                    requests, window, now)
    ensures AllWindowsHold(history[key := more], requests, window)
  {
    StoreKeepsOk(buckets, history, key, bucket, more, requests, window, clock, now);
    AskKeepsOk(asked, history, key, more, requests, window, clock, now);
    AskedMeansBounded(asked[key := Times(asked, key) + [now]], history[key := more], requests, window, now);
  }

  class RateLimiter {
    const requests: nat
    const window: real
    var buckets: map<string, seq<real>>

    /** Every request and every admission so far, and the time of the last request. */
    ghost var asked: map<string, seq<real>>
    ghost var history: map<string, seq<real>>
    ghost var clock: real

    ghost function Past(key: string): seq<real>
      reads this
    {
      Times(history, key)
    }

    ghost predicate Valid()
      reads this
    {
      StateOk(buckets, asked, history, requests, window, clock)
    }

    constructor (requests: nat, window: real, start: real)
      ensures Valid() && asked == map[] && history == map[] && clock == start
      ensures this.requests == requests && this.window == window
    {
      this.requests, this.window := requests, window;
      buckets, asked, history, clock := map[], map[], map[], start;
    }

    /** Whatever was asked so far, the admissions of a client are those of its request times,
        so no closed interval of the window's length holds more than the limit; and no bucket
        exceeds it. */
    lemma EveryWindowHolds(key: string, lo: real)
      requires Valid()
      ensures Past(key) == Admissions([], Times(asked, key), requests, window)
      ensures WindowHolds(Past(key), requests, window, lo) && |Times(buckets, key)| <= requests
    {
      assert BucketOk(Times(history, key), Times(buckets, key), requests, window, clock);
      assert KeyAsked(Times(asked, key), Times(history, key), requests, window, clock);
      AskedMeansBounded(asked, history, requests, window, clock);
    }

    /** Drop admissions that are older than the window. */
    method Prune(ghost past: seq<real>, full: seq<real>, now: real) returns (bucket: seq<real>)
      requires BucketOk(past, full, requests, window, now)
      ensures BucketOk(past, bucket, requests, window, now)
      ensures Within(past, now - window, now) == |bucket|
    {
      bucket := full;
      while bucket != [] && bucket[0] < now - window
        invariant BucketOk(past, bucket, requests, window, now)
        decreases |bucket|
      {
        PruneKeepsOk(past, bucket, requests, window, now);
        bucket := bucket[1..];
      }
      RecentEnd(past, bucket, requests, window, now);
    }

    /** One bucket: prune, then admit if there is room. */
    method Admit(ghost past: seq<real>, full: seq<real>, now: real) returns (admitted: bool, bucket: seq<real>)
      requires BucketOk(past, full, requests, window, now)
      ensures admitted <==> Within(past, now - window, now) < requests
      ensures BucketOk(Extended(past, admitted, now), bucket, requests, window, now)
    {
      bucket := Prune(past, full, now);
      admitted := |bucket| < requests;
      if admitted {
        AppendKeepsOk(past, bucket, requests, window, now);
        bucket := bucket + [now];
      }
    }

    method AdmitKey(key: string, now: real) returns (admitted: bool, bucket: seq<real>, ghost more: seq<real>)
      requires Valid() && clock <= now
      ensures admitted <==> Within(Past(key), now - window, now) < requests
      ensures more == Extended(Past(key), admitted, now)
      ensures StateOk(buckets[key := bucket], asked[key := Times(asked, key) + [now]], history[key := more],
                      requests, window, now)
      ensures AllWindowsHold(history[key := more], requests, window)
    {
      assert BucketOk(Past(key), Times(buckets, key), requests, window, now) by {
        BucketsWait(buckets, history, key, requests, window, clock, now);
      }
      admitted, bucket := Admit(Past(key), Times(buckets, key), now);
      more := Extended(Past(key), admitted, now);
      RequestKeepsOk(buckets, asked, history, key, bucket, more, requests, window, clock, now);
    }

    /** Admit a request, or refuse it because the window ending now is full. */
    method Dispatch(key: string, now: real) returns (admitted: bool)
      requires Valid() && clock <= now
      modifies this
      ensures Valid() && clock == now
      ensures admitted <==> Within(old(Past(key)), now - window, now) < requests
      ensures asked == old(asked)[key := Times(old(asked), key) + [now]]
      ensures history == old(history)[key := if admitted then old(Past(key)) + [now] else old(Past(key))]
      ensures AllWindowsHold(history, requests, window)
    {
      var bucket;
      ghost var more;
      admitted, bucket, more := AdmitKey(key, now);
      buckets, history := buckets[key := bucket], history[key := more];
      asked, clock := asked[key := Times(asked, key) + [now]], now;
    }
  }

  /** A pruned bucket holds exactly the admissions of the window ending now. */
  lemma RecentEnd(past: seq<real>, bucket: seq<real>, requests: nat, window: real, now: real)
    requires BucketOk(past, bucket, requests, window, now) && (bucket == [] || bucket[0] >= now - window)
    ensures Within(past, now - window, now) == |bucket|
  {
    var k := |past| - |bucket|;
    WithinSplits(past, k, now - window, now);
    WithinLate(past[..k], now - window, now);
    WithinAll(past[k..], now - window, now);
  }

  lemma AppendKeepsOk(past: seq<real>, bucket: seq<real>, requests: nat, window: real, now: real)
    requires BucketOk(past, bucket, requests, window, now) && |bucket| < requests
    ensures BucketOk(past + [now], bucket + [now], requests, window, now)
  {
  }

  // ----- whole runs -----

  /** The admissions after one more request: it is admitted if the window has room. */
  function AfterRequest(past: seq<real>, now: real, requests: nat, window: real): seq<real> {
    Extended(past, Within(past, now - window, now) < requests, now)
  }

  /** The admissions of one client after requests at the given times. */
  function Admissions(past: seq<real>, times: seq<real>, requests: nat, window: real): seq<real>
    decreases |times|
  {
    if times == [] then past
    else Admissions(AfterRequest(past, times[0], requests, window), times[1..], requests, window)
  }

  lemma OneRequest(past: seq<real>, now: real, requests: nat, window: real)
    ensures Admissions(past, [now], requests, window) == AfterRequest(past, now, requests, window)
  {
  }

  /** Requests one after the other add up. */
  lemma {:induction false} AdmissionsAppend(
    past: seq<real>, times: seq<real>, more: seq<real>, requests: nat, window: real)
    ensures Admissions(past, times + more, requests, window)
            == Admissions(Admissions(past, times, requests, window), more, requests, window)
    decreases |times|
  {
    if times == [] {
      assert times + more == more;
    } else {
      assert (times + more)[1..] == times[1..] + more;
      AdmissionsAppend(AfterRequest(past, times[0], requests, window), times[1..], more, requests, window);
    }
  }

  /** Admitting only while the window is not full keeps admissions spaced out. */
  lemma RoomKeepsSpacing(past: seq<real>, requests: nat, window: real, now: real)
    requires Sorted(past) && Spaced(past, requests, window) && forall i :: 0 <= i < |past| ==> past[i] <= now
    requires Within(past, now - window, now) < requests
    ensures Sorted(past + [now]) && Spaced(past + [now], requests, window)
  {
    var all := past + [now];
    forall i, j | 0 <= i <= j < |all| && j == i + requests
      ensures all[j] - all[i] > window
    {
      if j == |past| && past[i] >= now - window {
        WithinSplits(past, i, now - window, now);
        WithinAll(past[i..], now - window, now);
      }
    }
  }

  lemma {:induction false} AdmissionsAreSpaced(past: seq<real>, times: seq<real>, requests: nat, window: real)
    requires Sorted(times) && Sorted(past) && Spaced(past, requests, window)
    requires forall i, j :: 0 <= i < |past| && 0 <= j < |times| ==> past[i] <= times[j]
    ensures Sorted(Admissions(past, times, requests, window))
    ensures Spaced(Admissions(past, times, requests, window), requests, window)
    decreases |times|
  {
    if times != [] {
      if Within(past, times[0] - window, times[0]) < requests {
        RoomKeepsSpacing(past, requests, window, times[0]);
      }
      AdmissionsAreSpaced(AfterRequest(past, times[0], requests, window), times[1..], requests, window);
    }
  }

  /** Over any run of requests, no closed interval of the window's length contains more
      admissions than the limit. */
  lemma EveryWindowIsBounded(times: seq<real>, requests: nat, window: real, lo: real)
    requires Sorted(times)
    ensures WindowHolds(Admissions([], times, requests, window), requests, window, lo)
  {
    AdmissionsAreSpaced([], times, requests, window);
    WindowBound(Admissions([], times, requests, window), requests, window, lo);
  }
}
