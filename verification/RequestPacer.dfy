/** The pacing of MCP requests: a lock-protected stamp of the last request. Of the clock only
    this is assumed: it never goes back, and sleeping advances it by at least the time asked
    for. How much further it advances at each point is arbitrary. */
module RequestPacer {
  import opened FiniteSets

  /** A monotonic clock. `passed` is the time that happens to pass meanwhile. */
  class Clock {
    var now: real

    constructor (start: real)
      ensures now == start
    {
      now := start;
    }

    method Read(passed: real) returns (t: real)
      requires passed >= 0.0
      modifies this
      ensures t == now == old(now) + passed
    {
      now := now + passed;
      t := now;
    }

    method Sleep(seconds: real, passed: real)
      requires seconds >= 0.0 && passed >= 0.0
      modifies this
      ensures now == old(now) + seconds + passed
    {
      now := now + seconds + passed;
    }
  }

  /** The time that passes before a critical section reads the clock, beyond its sleep, and
      before it reads the clock again. */
  datatype Drift = Drift(before: real, oversleep: real, after: real) {
    ghost predicate Valid() { before >= 0.0 && oversleep >= 0.0 && after >= 0.0 }
  }

  /** One critical section: its first and its second clock reading. */
  datatype Section = Section(entered: real, left: real)

  class Pacer {
    const clock: Clock
    var lastAt: real

    constructor (clock: Clock)
      ensures this.clock == clock && lastAt == 0.0
    {
      this.clock, lastAt := clock, 0.0;
    }

    /** Waits until the interval since the last stamp is over, and stamps. */
    method StampInTurn(interval: real, d: Drift) returns (s: Section)
      requires interval > 0.0 && d.Valid()
      modifies this`lastAt, clock
      ensures lastAt == clock.now == s.left
      ensures s.entered >= old(clock.now) && s.left >= s.entered
      ensures s.left - old(lastAt) >= interval
      ensures s.left == d.after + if s.entered - old(lastAt) >= interval then s.entered
                                  else old(lastAt) + interval + d.oversleep
    {
      var now := clock.Read(d.before);
      var wait := interval - (now - lastAt);
      if wait > 0.0 { clock.Sleep(wait, d.oversleep); }
      lastAt := clock.Read(d.after);
      s := Section(now, lastAt);
    }

    /** A non-positive interval switches pacing off. */
    method Pace(interval: real, d: Drift) returns (paced: bool)
      requires d.Valid()
      modifies this`lastAt, clock
      ensures paced <==> interval > 0.0
      ensures paced ==> lastAt - old(lastAt) >= interval
      ensures !paced ==> lastAt == old(lastAt) && clock.now == old(clock.now)
    {
      paced := interval > 0.0;
      if paced { var _ := StampInTurn(interval, d); }
    }

    /** Any number of threads: the lock puts their critical sections in some order, and any
        time may pass between them. */
    method PaceAll(interval: real, drifts: seq<Drift>) returns (sections: seq<Section>)
      requires interval > 0.0 && forall k :: 0 <= k < |drifts| ==> drifts[k].Valid()
      modifies this`lastAt, clock
      ensures |sections| == |drifts| && IsRun(interval, old(lastAt), sections)
      ensures forall from, length :: length >= 0.0 ==>
                |PacedIn(sections, from, length)| <= (length / interval).Floor + 1
    {
      sections := [];
      for k := 0 to |drifts|
        invariant |sections| == k && IsRun(interval, old(lastAt), sections)
        invariant lastAt == StampBefore(old(lastAt), sections, k)
      {
        var s := StampInTurn(interval, drifts[k]);
        RunGrows(interval, old(lastAt), sections, s);
        sections := sections + [s];
      }
      forall from, length | length >= 0.0
        ensures |PacedIn(sections, from, length)| <= (length / interval).Floor + 1
      {
        PacedRequestsAreBounded(interval, old(lastAt), sections, from, length);
      }
    }
  }

  /** Each section stamps at least the interval after the stamp it started from. */
  ghost predicate IsRun(interval: real, start: real, sections: seq<Section>) {
    forall k :: 0 <= k < |sections| ==> sections[k].left - StampBefore(start, sections, k) >= interval
  }

  /** The stamp that section k starts from. */
  function StampBefore(start: real, sections: seq<Section>, k: nat): real
    requires k <= |sections|
  {
    if k == 0 then start else sections[k - 1].left
  }

  lemma RunGrows(interval: real, start: real, sections: seq<Section>, s: Section)
    requires IsRun(interval, start, sections)
    requires s.left - StampBefore(start, sections, |sections|) >= interval
    ensures IsRun(interval, start, sections + [s])
  {
    var n, all := |sections|, sections + [s];
    forall k | 0 <= k < |all| ensures all[k].left - StampBefore(start, all, k) >= interval {
      assert StampBefore(start, all, k) == StampBefore(start, sections, k);
      if k < n { assert all[k] == sections[k]; }
    }
  }

  lemma {:induction false} StampsAreSpaced(interval: real, start: real, sections: seq<Section>, i: nat, j: nat)
    requires interval > 0.0 && IsRun(interval, start, sections) && i <= j < |sections|
    ensures sections[j].left - sections[i].left >= interval * (j - i) as real
    decreases j
  {
    if i < j {
      StampsAreSpaced(interval, start, sections, i, j - 1);
      assert interval * (j - i) as real == interval * (j - 1 - i) as real + interval;
    }
  }

  lemma EndpointsAreClose(
    interval: real, start: real, sections: seq<Section>, from: real, length: real, i: nat, j: nat)
    requires interval > 0.0 && IsRun(interval, start, sections) && i <= j < |sections|
    requires from <= sections[i].left && sections[j].left <= from + length
    ensures j - i <= (length / interval).Floor
  {
    StampsAreSpaced(interval, start, sections, i, j);
    var n := (j - i) as real;
    assert interval * (length / interval) == length;
    AtMostQuotient(interval, n, length / interval);
  }

  ghost function PacedIn(sections: seq<Section>, from: real, length: real): set<nat> {
    set k: nat | k < |sections| && from <= sections[k].left <= from + length
  }

  /** Any closed interval of length T holds at most floor(T / interval) + 1 paced requests,
      with any number of threads. */
  lemma {:induction false} PacedRequestsAreBounded(
    interval: real, start: real, sections: seq<Section>, from: real, length: real)
    requires interval > 0.0 && length >= 0.0 && IsRun(interval, start, sections)
    ensures |PacedIn(sections, from, length)| <= (length / interval).Floor + 1
  {
    var s, limit := PacedIn(sections, from, length), (length / interval).Floor;
    assert limit >= 0;
    if s != {} {
      var last := LastOf(s);
      forall k | k in s ensures last - limit <= k < last - limit + (limit + 1) {
        EndpointsAreClose(interval, start, sections, from, length, k, last);
      }
      NarrowSetIsSmall(s, last - limit, limit + 1);
    }
  }

  lemma AtMostQuotient(interval: real, n: real, q: real)
    requires interval > 0.0 && interval * n <= interval * q
    ensures n <= q
  {}
}
