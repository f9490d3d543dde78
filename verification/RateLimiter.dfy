/** The sliding-window rate limiter: a deque of accepted times per key. The clock is read
    before the lock is taken, so a deque need not be sorted; the bounds below say what
    holds all the same. */
module RateLimiter {
  import opened FiniteSets

  datatype Verdict = Admitted | Refused(retryAfter: int)

  /** A positive request budget per window. */
  datatype Limit = Limit(requests: nat, window: real) {
    ghost predicate Valid() { requests >= 1 && window > 0.0 }
  }

  /** Pops expired entries from the head only. */
  function DropExpired(times: seq<real>, cutoff: real): (rest: seq<real>)
    ensures rest != [] ==> rest[0] > cutoff
    ensures |rest| <= |times|
  {
    if times != [] && times[0] <= cutoff then DropExpired(times[1..], cutoff) else times
  }

  /** Truncation towards zero of a positive wait, and at least one second. */
  function RetryAfter(wait: real): int {
    if wait.Floor < 1 then 1 else wait.Floor
  }

  function CheckTimes(limit: Limit, times: seq<real>, now: real): (seq<real>, Verdict)
    requires limit.requests >= 1
  {
    var live := DropExpired(times, now - limit.window);
    if |live| >= limit.requests then (live, Refused(RetryAfter(limit.window - (now - live[0]))))
    else (live + [now], Admitted)
  }

  class SlidingWindowRateLimiter {
    const limit: Limit
    var requestLog: map<string, seq<real>>

    function Times(key: string): seq<real>
      reads this
    {
      if key in requestLog then requestLog[key] else []
    }

    constructor (limit: Limit)
      requires limit.Valid()
      ensures this.limit == limit && forall key :: Times(key) == []
    {
      this.limit, requestLog := limit, map[];
    }

    method Check(key: string, now: real) returns (v: Verdict)
      requires limit.Valid()
      modifies this
      ensures (Times(key), v) == CheckTimes(limit, old(Times(key)), now)
      ensures forall k :: k != key ==> Times(k) == old(Times(k))
    {
      var times := Times(key);
      while times != [] && times[0] <= now - limit.window
        invariant DropExpired(times, now - limit.window) == DropExpired(old(Times(key)), now - limit.window)
      {
        times := times[1..];
      }
      if |times| >= limit.requests {
        v := Refused(RetryAfter(limit.window - (now - times[0])));
      } else {
        times, v := times + [now], Admitted;
      }
      requestLog := requestLog[key := times];
    }

    method Clear()
      modifies this
      ensures forall key :: Times(key) == []
    {
      requestLog := map[];
    }
  }

  // ----- Runs: calls in the order in which they take the lock -----

  datatype Call = Call(key: string, now: real, lockedAt: real)

  /** The deque of `key` after the calls, starting empty. */
  function TimesAfter(limit: Limit, calls: seq<Call>, key: string): seq<real>
    requires limit.requests >= 1
  {
    if calls == [] then []
    else
      var before, c := TimesAfter(limit, calls[..|calls| - 1], key), calls[|calls| - 1];
      if c.key == key then CheckTimes(limit, before, c.now).0 else before
  }

  predicate Accepted(limit: Limit, calls: seq<Call>, i: int)
    requires limit.requests >= 1
  {
    0 <= i < |calls| && CheckTimes(limit, TimesAfter(limit, calls[..i], calls[i].key), calls[i].now).1 == Admitted
  }

  /** Every caller takes the lock within `skew` seconds of reading the clock. */
  ghost predicate WithinSkew(calls: seq<Call>, skew: real) {
    && skew >= 0.0
    && (forall i :: 0 <= i < |calls| ==> calls[i].now <= calls[i].lockedAt <= calls[i].now + skew)
    && (forall i, j :: 0 <= i < j < |calls| ==> calls[i].lockedAt <= calls[j].lockedAt)
  }

  // ----- The deque, with the call each entry comes from -----

  datatype Entry = Entry(index: nat, now: real)

  function Unexpired(live: seq<Entry>, cutoff: real): seq<Entry> {
    if live != [] && live[0].now <= cutoff then Unexpired(live[1..], cutoff) else live
  }

  /** One call with index n, on the deque of its key. */
  function AddCall(limit: Limit, live: seq<Entry>, n: nat, now: real): seq<Entry> {
    var kept := Unexpired(live, now - limit.window);
    if |kept| >= limit.requests then kept else kept + [Entry(n, now)]
  }

  function Live(limit: Limit, calls: seq<Call>, key: string): seq<Entry> {
    if calls == [] then []
    else
      var n := |calls| - 1;
      var before := Live(limit, calls[..n], key);
      if calls[n].key == key then AddCall(limit, before, n, calls[n].now) else before
  }

  function TimesOf(live: seq<Entry>): (times: seq<real>)
    ensures |times| == |live| && forall k :: 0 <= k < |live| ==> times[k] == live[k].now
  {
    seq(|live|, k requires 0 <= k < |live| => live[k].now)
  }

  lemma {:induction false} UnexpiredTimes(live: seq<Entry>, cutoff: real)
    ensures TimesOf(Unexpired(live, cutoff)) == DropExpired(TimesOf(live), cutoff)
    ensures forall e :: e in Unexpired(live, cutoff) ==> e in live
    ensures forall e :: e in live && e.now > cutoff ==> e in Unexpired(live, cutoff)
  {
    if live != [] {
      assert TimesOf(live)[1..] == TimesOf(live[1..]);
      UnexpiredTimes(live[1..], cutoff);
      assert forall e :: e in live <==> e == live[0] || e in live[1..];
    }
  }

  lemma {:induction false} LiveHoldsTheDeque(limit: Limit, calls: seq<Call>, key: string)
    requires limit.requests >= 1
    ensures TimesOf(Live(limit, calls, key)) == TimesAfter(limit, calls, key)
  {
    if calls != [] {
      var n := |calls| - 1;
      LiveHoldsTheDeque(limit, calls[..n], key);
      UnexpiredTimes(Live(limit, calls[..n], key), calls[n].now - limit.window);
    }
  }

  /** What call i finds in the deque of its key once expired entries are gone. */
  function Found(limit: Limit, calls: seq<Call>, i: nat): seq<Entry>
    requires i < |calls|
  {
    Unexpired(Live(limit, calls[..i], calls[i].key), calls[i].now - limit.window)
  }

  lemma AcceptedByRoom(limit: Limit, calls: seq<Call>, i: nat)
    requires limit.requests >= 1 && i < |calls|
    ensures Accepted(limit, calls, i) <==> |Found(limit, calls, i)| < limit.requests
  {
    LiveHoldsTheDeque(limit, calls[..i], calls[i].key);
    UnexpiredTimes(Live(limit, calls[..i], calls[i].key), calls[i].now - limit.window);
  }

  // ----- The skewed window bound -----

  /** An accepted call stays in the deque while no later call is a full window ahead of it. */
  lemma {:induction false} StaysLive(limit: Limit, calls: seq<Call>, i: nat, m: nat)
    requires limit.Valid() && Accepted(limit, calls, i) && i < m <= |calls|
    requires forall f :: i < f < m ==> calls[f].now - limit.window < calls[i].now
    ensures Entry(i, calls[i].now) in Live(limit, calls[..m], calls[i].key)
    decreases m
  {
    var key, n := calls[i].key, m - 1;
    assert calls[..m][..n] == calls[..n];
    if i == n {
      AcceptedByRoom(limit, calls, i);
    } else {
      StaysLive(limit, calls, i, n);
      CallKeepsEntry(limit, Live(limit, calls[..n], key), n, calls[n].now, Entry(i, calls[i].now));
    }
  }

  lemma CallKeepsEntry(limit: Limit, live: seq<Entry>, n: nat, now: real, e: Entry)
    requires e in live && now - limit.window < e.now
    ensures e in AddCall(limit, live, n, now)
  {
    UnexpiredTimes(live, now - limit.window);
  }

  ghost predicate Listed(listed: seq<Entry>, i: nat) { exists k :: 0 <= k < |listed| && listed[k].index == i }

  lemma {:induction false} FewElements(s: set<nat>, listed: seq<Entry>)
    requires forall i :: i in s ==> Listed(listed, i)
    ensures |s| <= |listed|
  {
    if listed == [] {
      assert s == {};
    } else {
      var rest := s - {listed[0].index};
      forall i | i in rest ensures Listed(listed[1..], i) {
        var k :| 0 <= k < |listed| && listed[k].index == i;
        assert listed[1..][k - 1].index == i;
      }
      FewElements(rest, listed[1..]);
    }
  }

  /** Accepted calls of `key` whose clock reading lies in [from, from + length). */
  ghost function AcceptedIn(limit: Limit, calls: seq<Call>, key: string, from: real, length: real): set<nat>
    requires limit.requests >= 1
  {
    set i: nat | i < |calls| && Accepted(limit, calls, i) && calls[i].key == key && from <= calls[i].now < from + length
  }

  /** An accepted call less than window - skew older than a later one is found by that one. */
  lemma StaysFound(limit: Limit, calls: seq<Call>, skew: real, i: nat, e: nat)
    requires limit.Valid() && WithinSkew(calls, skew)
    requires i < e < |calls| && Accepted(limit, calls, i) && calls[i].key == calls[e].key
    requires calls[e].now < calls[i].now + limit.window - skew
    ensures Listed(Found(limit, calls, e), i)
  {
    StaysLive(limit, calls, i, e);
    UnexpiredTimes(Live(limit, calls[..e], calls[e].key), calls[e].now - limit.window);
    assert Entry(i, calls[i].now) in Found(limit, calls, e);
  }

  /** In every run, every half-open interval of length window - skew holds at most
      `requests` accepted times of a key, although the deque may be out of order. */
  lemma {:induction false} SkewedWindowBound(limit: Limit, calls: seq<Call>, skew: real, key: string, from: real)
    requires limit.Valid() && WithinSkew(calls, skew)
    ensures |AcceptedIn(limit, calls, key, from, limit.window - skew)| <= limit.requests
  {
    var s := AcceptedIn(limit, calls, key, from, limit.window - skew);
    if s != {} {
      var e := LastOf(s);
      AcceptedByRoom(limit, calls, e);
      forall i | i in s - {e} ensures Listed(Found(limit, calls, e), i) {
        StaysFound(limit, calls, skew, i, e);
      }
      FewElements(s - {e}, Found(limit, calls, e));
      assert |s - {e}| == |s| - 1;
    }
  }

  // ----- Without skew the deque is exact -----

  ghost predicate ClockOrdered(calls: seq<Call>) {
    forall i, j :: 0 <= i < j < |calls| ==> calls[i].now <= calls[j].now
  }

  ghost predicate Genuine(limit: Limit, calls: seq<Call>, key: string, e: Entry)
    requires limit.requests >= 1
  {
    e.index < |calls| && e.now == calls[e.index].now && calls[e.index].key == key && Accepted(limit, calls, e.index)
  }

  lemma {:induction false} LiveIsGenuine(limit: Limit, calls: seq<Call>, key: string, e: Entry)
    requires limit.requests >= 1 && e in Live(limit, calls, key)
    ensures Genuine(limit, calls, key, e)
  {
    var n := |calls| - 1;
    var before := Live(limit, calls[..n], key);
    UnexpiredTimes(before, calls[n].now - limit.window);
    if e in before {
      LiveIsGenuine(limit, calls[..n], key, e);
      assert calls[..n][..e.index] == calls[..e.index];
    } else {
      AcceptedByRoom(limit, calls, n);
    }
  }

  ghost predicate Ascending(live: seq<Entry>) {
    forall j, k :: 0 <= j < k < |live| ==> live[j].now <= live[k].now && live[j].index < live[k].index
  }

  lemma {:induction false} UnexpiredAscending(live: seq<Entry>, cutoff: real)
    requires Ascending(live)
    ensures Ascending(Unexpired(live, cutoff))
    ensures forall e :: e in Unexpired(live, cutoff) <==> e in live && e.now > cutoff
  {
    UnexpiredTimes(live, cutoff);
    if live != [] {
      if live[0].now <= cutoff {
        UnexpiredAscending(live[1..], cutoff);
        assert forall e :: e in live <==> e == live[0] || e in live[1..];
      }
    }
  }

  lemma AddCallAscending(limit: Limit, live: seq<Entry>, n: nat, now: real)
    requires Ascending(live) && forall e :: e in live ==> e.index < n && e.now <= now
    ensures Ascending(AddCall(limit, live, n, now))
  {
    var kept := Unexpired(live, now - limit.window);
    UnexpiredAscending(live, now - limit.window);
    if |kept| < limit.requests { AppendAscending(kept, Entry(n, now)); }
  }

  lemma AppendAscending(live: seq<Entry>, last: Entry)
    requires Ascending(live) && forall e :: e in live ==> e.index < last.index && e.now <= last.now
    ensures Ascending(live + [last])
  {
    var all := live + [last];
    forall j, k | 0 <= j < k < |all| ensures all[j].now <= all[k].now && all[j].index < all[k].index {
      assert all[j] == live[j] && live[j] in live;
    }
  }

  lemma {:induction false} LiveAscending(limit: Limit, calls: seq<Call>, key: string)
    requires limit.requests >= 1 && ClockOrdered(calls)
    ensures Ascending(Live(limit, calls, key))
  {
    if calls != [] {
      var n := |calls| - 1;
      LiveAscending(limit, calls[..n], key);
      forall e | e in Live(limit, calls[..n], key) ensures e.index < n && e.now <= calls[n].now {
        LiveIsGenuine(limit, calls[..n], key, e);
      }
      AddCallAscending(limit, Live(limit, calls[..n], key), n, calls[n].now);
    }
  }

  /** With the clock read under the lock, a call finds exactly the accepted calls of its
      key that are still inside its window, oldest first. */
  lemma {:induction false} DequeIsExact(limit: Limit, calls: seq<Call>, n: nat)
    requires limit.Valid() && ClockOrdered(calls) && n < |calls|
    ensures Ascending(Found(limit, calls, n))
    ensures forall i: nat, t :: Entry(i, t) in Found(limit, calls, n) <==> StillInside(limit, calls, n, i, t)
  {
    LiveAscending(limit, calls[..n], calls[n].key);
    UnexpiredAscending(Live(limit, calls[..n], calls[n].key), calls[n].now - limit.window);
    forall i: nat, t ensures Entry(i, t) in Found(limit, calls, n) <==> StillInside(limit, calls, n, i, t) {
      EntryIsExact(limit, calls, n, i, t);
    }
  }

  ghost predicate StillInside(limit: Limit, calls: seq<Call>, n: nat, i: nat, t: real)
    requires limit.requests >= 1 && n < |calls|
  {
    && i < n && t == calls[i].now && Accepted(limit, calls, i) && calls[i].key == calls[n].key
    && calls[i].now > calls[n].now - limit.window
  }

  lemma EntryIsExact(limit: Limit, calls: seq<Call>, n: nat, i: nat, t: real)
    requires limit.Valid() && ClockOrdered(calls) && n < |calls|
    ensures Entry(i, t) in Found(limit, calls, n) <==> StillInside(limit, calls, n, i, t)
  {
    var live := Live(limit, calls[..n], calls[n].key);
    LiveAscending(limit, calls[..n], calls[n].key);
    UnexpiredAscending(live, calls[n].now - limit.window);
    if Entry(i, t) in live {
      LiveIsGenuine(limit, calls[..n], calls[n].key, Entry(i, t));
      assert calls[..n][..i] == calls[..i];
    } else if StillInside(limit, calls, n, i, t) {
      StaysLive(limit, calls, i, n);
    }
  }

  // ----- Refusals and retries -----

  /** A refusal has a full deque whose head expires in a positive wait, and announces that
      wait to within a second. */
  lemma {:induction false} RefusalAnnouncesTheWait(limit: Limit, times: seq<real>, now: real)
    requires limit.Valid() && CheckTimes(limit, times, now).1.Refused?
    ensures var (live, v) := CheckTimes(limit, times, now);
            && |live| >= limit.requests && live == DropExpired(times, now - limit.window)
            && var wait := live[0] + limit.window - now;
               wait > 0.0 && v.retryAfter >= 1 && -1.0 < v.retryAfter as real - wait < 1.0
  {}

  lemma {:induction false} DequeNeverOverflows(limit: Limit, calls: seq<Call>, key: string)
    requires limit.requests >= 1
    ensures |TimesAfter(limit, calls, key)| <= limit.requests
  {
    if calls != [] { DequeNeverOverflows(limit, calls[..|calls| - 1], key); }
  }

  /** After a refusal with nothing else accepted, a retry is admitted exactly when the head
      has expired. */
  lemma {:induction false} RetryAdmittedIffHeadExpired(limit: Limit, times: seq<real>, now: real, later: real)
    requires limit.Valid() && |times| <= limit.requests && CheckTimes(limit, times, now).1.Refused?
    ensures var live := CheckTimes(limit, times, now).0;
            CheckTimes(limit, live, later).1 == Admitted <==> live[0] + limit.window <= later
  {}

  /** Waiting exactly retry_after seconds is enough if and only if the true wait is at most
      one second or a whole number of seconds: otherwise truncation cuts the wait short. */
  lemma {:induction false} RetryAfterSufficesIff(limit: Limit, times: seq<real>, now: real)
    requires limit.Valid() && |times| <= limit.requests && CheckTimes(limit, times, now).1.Refused?
    ensures var (live, v) := CheckTimes(limit, times, now);
            var wait := live[0] + limit.window - now;
            CheckTimes(limit, live, now + v.retryAfter as real).1 == Admitted <==>
            wait <= 1.0 || wait == wait.Floor as real
  {
    RefusalAnnouncesTheWait(limit, times, now);
    var (live, v) := CheckTimes(limit, times, now);
    RetryAdmittedIffHeadExpired(limit, times, now, now + v.retryAfter as real);
  }
}
