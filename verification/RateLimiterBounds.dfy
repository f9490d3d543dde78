/** Which bounds the rate limiter gives, exactly: over which windows its budget holds in
    every run, and for which limits the announced retry can be too early. */
module RateLimiterBounds {
  import opened FiniteSets
  import opened RateLimiter

  /** In every run within the skew, no interval of the length holds more accepted times of a
      key than the budget. */
  ghost predicate Bounds(limit: Limit, skew: real, length: real)
    requires limit.Valid()
  {
    forall calls, key, from :: WithinSkew(calls, skew) ==> HoldsBudget(limit, calls, key, from, length)
  }

  ghost predicate HoldsBudget(limit: Limit, calls: seq<Call>, key: string, from: real, length: real)
    requires limit.Valid()
  {
    |AcceptedIn(limit, calls, key, from, length)| <= limit.requests
  }

  // ----- A budget of one spaces accepted times by a window, in any order of clocks -----

  /** After an accepted call the deque holds one entry, no older than that call. */
  lemma {:induction false} SingleEntry(limit: Limit, calls: seq<Call>, i: nat, m: nat)
    requires limit.Valid() && limit.requests == 1 && Accepted(limit, calls, i) && i < m <= |calls|
    ensures var live := Live(limit, calls[..m], calls[i].key); |live| == 1 && live[0].now >= calls[i].now
    decreases m
  {
    var key, n := calls[i].key, m - 1;
    assert calls[..m][..n] == calls[..n];
    if i == n {
      AcceptedByRoom(limit, calls, i);
      assert Unexpired([], calls[n].now - limit.window) == [];
    } else {
      SingleEntry(limit, calls, i, n);
      var live := Live(limit, calls[..n], key);
      AddToSingle(limit, live, n, calls[n].now);
    }
  }

  /** A call finds the one entry live, and is refused, or replaces it by a later one. */
  lemma {:induction false} AddToSingle(limit: Limit, live: seq<Entry>, n: nat, now: real)
    requires limit.Valid() && limit.requests == 1 && |live| == 1
    ensures var next := AddCall(limit, live, n, now); |next| == 1 && next[0].now >= live[0].now
  {
    assert live[1..] == [] && Unexpired([], now - limit.window) == [];
  }

  lemma {:induction false} SingleBudgetSpaces(limit: Limit, calls: seq<Call>, i: nat, j: nat)
    requires limit.Valid() && limit.requests == 1 && i < j
    requires Accepted(limit, calls, i) && Accepted(limit, calls, j) && calls[i].key == calls[j].key
    ensures calls[j].now >= calls[i].now + limit.window
  {
    SingleEntry(limit, calls, i, j);
    AcceptedByRoom(limit, calls, j);
  }

  lemma {:induction false} SingleBudgetHolds(limit: Limit, calls: seq<Call>, key: string, from: real, length: real)
    requires limit.Valid() && limit.requests == 1 && length <= limit.window
    ensures HoldsBudget(limit, calls, key, from, length)
  {
    var s := AcceptedIn(limit, calls, key, from, length);
    if s != {} {
      var last := LastOf(s);
      forall i | i in s ensures i == last {
        if i < last { SingleBudgetSpaces(limit, calls, i, last); }
      }
      NarrowSetIsSmall(s, last, 1);
    }
  }

  lemma {:induction false} ShorterHolds(
    limit: Limit, calls: seq<Call>, key: string, from: real, length: real, longer: real)
    requires limit.Valid() && length <= longer && HoldsBudget(limit, calls, key, from, longer)
    ensures HoldsBudget(limit, calls, key, from, length)
  {
    SubsetIsSmaller(AcceptedIn(limit, calls, key, from, length), AcceptedIn(limit, calls, key, from, longer));
  }

  // ----- A burst that exceeds every longer window -----

  /** `n` calls at time 0. */
  function Filling(n: nat): (calls: seq<Call>)
    ensures |calls| == n && forall k :: 0 <= k < n ==> calls[k] == Call("k", 0.0, 0.0)
  {
    seq(n, _ => Call("k", 0.0, 0.0))
  }

  function Zeros(n: nat): (times: seq<real>)
    ensures |times| == n && forall k :: 0 <= k < n ==> times[k] == 0.0
  {
    seq(n, _ => 0.0)
  }

  /** The budget is used up at 0, one call comes a window later, and one that read the clock
      `early` seconds before takes the lock last. */
  function Burst(limit: Limit, early: real): seq<Call> {
    Filling(limit.requests) + [Call("k", limit.window, limit.window), Call("k", limit.window - early, limit.window)]
  }

  lemma {:induction false} FillingFills(limit: Limit, calls: seq<Call>, n: nat)
    requires limit.Valid() && n <= limit.requests && n <= |calls| && calls[..n] == Filling(n)
    ensures TimesAfter(limit, calls[..n], "k") == Zeros(n)
    ensures forall i :: 0 <= i < n ==> Accepted(limit, calls, i)
  {
    if n > 0 {
      var front := calls[..n - 1];
      assert calls[..n][..n - 1] == front && front == Filling(n - 1);
      FillingFills(limit, calls, n - 1);
      assert calls[n - 1] == calls[..n][n - 1];
      assert Zeros(n) == Zeros(n - 1) + [0.0];
    }
  }

  lemma {:induction false} ZerosExpire(n: nat)
    ensures DropExpired(Zeros(n), 0.0) == []
  {
    if n > 0 {
      assert Zeros(n)[1..] == Zeros(n - 1);
      ZerosExpire(n - 1);
    }
  }

  lemma {:induction false} BurstIsAccepted(limit: Limit, early: real)
    requires limit.Valid() && 0.0 <= early <= limit.window
    ensures var calls, n := Burst(limit, early), limit.requests;
            && (forall i :: 0 <= i <= n ==> Accepted(limit, calls, i))
            && (n >= 2 ==> Accepted(limit, calls, n + 1))
  {
    var calls, n := Burst(limit, early), limit.requests;
    assert calls[..n] == Filling(n);
    FillingFills(limit, calls, n);
    ZerosExpire(n);
    assert calls[..n + 1][..n] == calls[..n];
    assert TimesAfter(limit, calls[..n + 1], "k") == [limit.window];
  }

  lemma {:induction false} BurstIsWithinSkew(limit: Limit, early: real, skew: real)
    requires limit.Valid() && 0.0 <= early <= skew
    ensures WithinSkew(Burst(limit, early), skew)
  {}

  lemma BurstCounts(limit: Limit, early: real, length: real, i: nat)
    requires limit.Valid() && 0.0 <= early <= limit.window
    requires i <= limit.requests || (i == limit.requests + 1 && limit.requests >= 2)
    requires Burst(limit, early)[i].now < length
    ensures i in AcceptedIn(limit, Burst(limit, early), "k", 0.0, length)
  {
    BurstIsAccepted(limit, early);
  }

  /** The burst has one accepted time too many in [0, length). */
  lemma {:induction false} BurstIsTooMany(limit: Limit, early: real, length: real, extra: nat)
    requires limit.Valid() && 0.0 <= early <= limit.window && length > 0.0
    requires limit.requests <= extra <= limit.requests + 1 && Burst(limit, early)[extra].now < length
    requires extra == limit.requests || limit.requests >= 2
    ensures !HoldsBudget(limit, Burst(limit, early), "k", 0.0, length)
  {
    var inside := Below(limit.requests) + {extra};
    var counted := AcceptedIn(limit, Burst(limit, early), "k", 0.0, length);
    forall i | i in inside ensures i in counted { BurstCounts(limit, early, length, i); }
    SubsetIsSmaller(inside, counted);
  }

  lemma {:induction false} BurstExceeds(limit: Limit, skew: real, length: real)
    requires limit.Valid() && skew >= 0.0
    requires length > limit.window || (limit.requests >= 2 && length > 0.0 && length > limit.window - skew)
    ensures !Bounds(limit, skew, length)
  {
    var n, early := limit.requests, if skew <= limit.window then skew else limit.window;
    BurstIsWithinSkew(limit, early, skew);
    BurstIsTooMany(limit, early, length, if length > limit.window then n else n + 1);
  }

  // ----- Exactly when -----

  /** The lengths over which the budget holds in every run: up to the window less the skew,
      and with a budget of one up to the whole window. */
  lemma {:induction false} BoundedLengths(limit: Limit, skew: real, length: real)
    requires limit.Valid() && skew >= 0.0 && length > 0.0
    ensures Bounds(limit, skew, length) <==>
            length <= limit.window - skew || (limit.requests == 1 && length <= limit.window)
  {
    forall calls, key, from | WithinSkew(calls, skew)
      ensures length <= limit.window - skew ==> HoldsBudget(limit, calls, key, from, length)
      ensures limit.requests == 1 && length <= limit.window ==> HoldsBudget(limit, calls, key, from, length)
    {
      if length <= limit.window - skew {
        SkewedWindowBound(limit, calls, skew, key, from);
        ShorterHolds(limit, calls, key, from, length, limit.window - skew);
      }
      if limit.requests == 1 && length <= limit.window { SingleBudgetHolds(limit, calls, key, from, length); }
    }
    if !(length <= limit.window - skew || (limit.requests == 1 && length <= limit.window)) {
      BurstExceeds(limit, skew, length);
    }
  }

  /** The budget holds over every full window if and only if there is no skew or the budget
      is one. */
  lemma {:induction false} FullWindowBoundIff(limit: Limit, skew: real)
    requires limit.Valid() && skew >= 0.0
    ensures Bounds(limit, skew, limit.window) <==> skew == 0.0 || limit.requests == 1
  {
    BoundedLengths(limit, skew, limit.window);
  }

  // ----- Retries that come exactly when they were announced -----

  /** Call n - 2 is refused, the last call retries after exactly the announced time, nothing
      came between, and it is refused again. */
  ghost predicate PromisedRetryIsRefused(limit: Limit, calls: seq<Call>)
    requires limit.Valid()
  {
    && |calls| >= 2
    && var n := |calls| - 2;
       var v := CheckTimes(limit, TimesAfter(limit, calls[..n], calls[n].key), calls[n].now).1;
       && v.Refused? && calls[n + 1].key == calls[n].key
       && calls[n + 1].now == calls[n].now + v.retryAfter as real
       && !Accepted(limit, calls, n + 1)
  }

  /** The budget is used up at 0; one more call at `at`, and its retry as announced. */
  function Retried(limit: Limit, at: real): seq<Call> {
    var later := at + RetryAfter(limit.window - at) as real;
    Filling(limit.requests) + [Call("k", at, at), Call("k", later, later)]
  }

  lemma FullDequeRefuses(limit: Limit, at: real)
    requires limit.Valid() && at < limit.window
    ensures CheckTimes(limit, Zeros(limit.requests), at) ==
            (Zeros(limit.requests), Refused(RetryAfter(limit.window - at)))
  {
    var times := Zeros(limit.requests);
    assert times[0] == 0.0 && DropExpired(times, at - limit.window) == times;
    assert limit.window - (at - 0.0) == limit.window - at;
  }

  /** The deque that each of the last two calls of a retried run finds. */
  lemma RetriedFinds(limit: Limit, at: real)
    requires limit.Valid() && at < limit.window
    ensures var calls, n := Retried(limit, at), limit.requests;
            TimesAfter(limit, calls[..n], "k") == Zeros(n) && TimesAfter(limit, calls[..n + 1], "k") == Zeros(n)
  {
    var calls, n := Retried(limit, at), limit.requests;
    assert calls[..n] == Filling(n);
    FillingFills(limit, calls, n);
    FullDequeRefuses(limit, at);
    assert calls[..n + 1][..n] == calls[..n] && calls[..n + 1][n] == Call("k", at, at);
  }

  lemma {:induction false} RetriedIsRefused(limit: Limit, at: real)
    requires limit.Valid() && 0.0 <= at && limit.window - at > 1.0
    requires limit.window - at != (limit.window - at).Floor as real
    ensures ClockOrdered(Retried(limit, at)) && PromisedRetryIsRefused(limit, Retried(limit, at))
  {
    RetriedFinds(limit, at);
    FullDequeRefuses(limit, at);
    RetryAfterSufficesIff(limit, Zeros(limit.requests), at);
  }

  lemma {:induction false} ShortWindowRetryIsAdmitted(limit: Limit, calls: seq<Call>)
    requires limit.Valid() && limit.window <= 1.0 && ClockOrdered(calls)
    ensures !PromisedRetryIsRefused(limit, calls)
  {
    var n := |calls| - 2;
    if n >= 0 && calls[n + 1].key == calls[n].key {
      var times := TimesAfter(limit, calls[..n], calls[n].key);
      DequeNeverOverflows(limit, calls[..n], calls[n].key);
      HeadIsPast(limit, calls, n);
      assert calls[..n + 1][..n] == calls[..n];
      if CheckTimes(limit, times, calls[n].now).1.Refused? { RetryAfterSufficesIff(limit, times, calls[n].now); }
    }
  }

  /** With ordered clocks the head of the deque was read no later than the call at hand. */
  lemma {:induction false} HeadIsPast(limit: Limit, calls: seq<Call>, n: nat)
    requires limit.Valid() && ClockOrdered(calls) && n < |calls|
    ensures var found := DropExpired(TimesAfter(limit, calls[..n], calls[n].key), calls[n].now - limit.window);
            found != [] ==> found[0] <= calls[n].now
  {
    var live := Live(limit, calls[..n], calls[n].key);
    LiveHoldsTheDeque(limit, calls[..n], calls[n].key);
    UnexpiredTimes(live, calls[n].now - limit.window);
    var found := Found(limit, calls, n);
    if found != [] {
      assert found[0] in live;
      LiveIsGenuine(limit, calls[..n], calls[n].key, found[0]);
    }
  }

  ghost predicate RetryCanFail(limit: Limit)
    requires limit.Valid()
  {
    exists calls :: ClockOrdered(calls) && PromisedRetryIsRefused(limit, calls)
  }

  /** Even with ordered clocks, a caller that retries exactly as announced can be refused
      again, if and only if the window is longer than a second. */
  lemma {:induction false} RetryCanFailIff(limit: Limit)
    requires limit.Valid()
    ensures RetryCanFail(limit) <==> limit.window > 1.0
  {
    if limit.window > 1.0 {
      var at := if limit.window == limit.window.Floor as real then 0.5 else 0.0;
      RetriedIsRefused(limit, at);
    } else {
      forall calls | ClockOrdered(calls) ensures !PromisedRetryIsRefused(limit, calls) {
        ShortWindowRetryIsAdmitted(limit, calls);
      }
    }
  }
}
