/** The metric panel of one company device: the in-place merge that keeps, per metric
    name, the reading with the newest timestamp, under a cap of eight names. */
module MetricMerge {

  const MAX_DISPLAY_METRICS: nat := 8

  datatype Metric = Metric(name: string, value: string)

  /** What one telemetry row offers a device: its metrics and the row's timestamp. */
  datatype Sample = Sample(metrics: seq<Metric>, stamp: int)

  /** `metrics` is the displayed list; `stamps` remembers every name ever seen, also
      names that the cap has cut from the list. */
  datatype Panel = Panel(metrics: seq<Metric>, stamps: map<string, int>)

  const EMPTY_PANEL := Panel([], map[])

  /** Position of the first metric called `name`, or |ms| when there is none. */
  function IndexOf(ms: seq<Metric>, name: string): (i: nat)
    ensures i <= |ms|
    ensures forall k :: 0 <= k < i ==> ms[k].name != name
    ensures i < |ms| ==> ms[i].name == name
  {
    if ms == [] then 0
    else if ms[0].name == name then 0
    else 1 + IndexOf(ms[1..], name)
  }

  function MergeOne(p: Panel, m: Metric, stamp: int): Panel {
    if m.name == "" || (m.name in p.stamps && p.stamps[m.name] >= stamp) then p
    else
      var i := IndexOf(p.metrics, m.name);
      Panel(if i < |p.metrics| then p.metrics[i := m] else p.metrics + [m],
            p.stamps[m.name := stamp])
  }

  function MergeAll(p: Panel, ms: seq<Metric>, stamp: int): Panel {
    if ms == [] then p else MergeOne(MergeAll(p, ms[..|ms| - 1], stamp), ms[|ms| - 1], stamp)
  }

  function Cap(ms: seq<Metric>): seq<Metric> {
    if |ms| <= MAX_DISPLAY_METRICS then ms else ms[..MAX_DISPLAY_METRICS]
  }

  /** One row: merge every metric, then truncate the list. */
  function MergeSample(p: Panel, s: Sample): Panel {
    var q := MergeAll(p, s.metrics, s.stamp);
    Panel(Cap(q.metrics), q.stamps)
  }

  function MergeSamples(p: Panel, samples: seq<Sample>): Panel {
    if samples == [] then p
    else MergeSample(MergeSamples(p, samples[..|samples| - 1]), samples[|samples| - 1])
  }

  // ----- Reference: what the panel should show -----

  datatype Observation = Observation(metric: Metric, stamp: int)

  function ObservationsOf(ms: seq<Metric>, stamp: int): seq<Observation> {
    if ms == [] then []
    else
      var m := ms[|ms| - 1];
      ObservationsOf(ms[..|ms| - 1], stamp) + if m.name == "" then [] else [Observation(m, stamp)]
  }

  /** Every named metric of every row, in processing order. */
  function Observations(samples: seq<Sample>): seq<Observation> {
    if samples == [] then []
    else
      var s := samples[|samples| - 1];
      Observations(samples[..|samples| - 1]) + ObservationsOf(s.metrics, s.stamp)
  }

  /** obs[i] is the first observation of its name. */
  ghost predicate Introduces(obs: seq<Observation>, i: int) {
    0 <= i < |obs| && forall j :: 0 <= j < i ==> obs[j].metric.name != obs[i].metric.name
  }

  /** obs[i] has the greatest timestamp of its name, and is the earliest one that has. */
  ghost predicate Newest(obs: seq<Observation>, i: int) {
    && 0 <= i < |obs|
    && forall j :: 0 <= j < |obs| && obs[j].metric.name == obs[i].metric.name ==>
         obs[j].stamp <= obs[i].stamp && (j < i ==> obs[j].stamp < obs[i].stamp)
  }

  ghost predicate IsNewestReading(obs: seq<Observation>, m: Metric) {
    exists i :: Newest(obs, i) && obs[i].metric == m
  }

  /** `firsts` lists, in increasing order, exactly the positions that introduce a name. */
  ghost predicate NamesInOrder(obs: seq<Observation>, firsts: seq<int>) {
    && (forall k :: 0 <= k < |firsts| ==> Introduces(obs, firsts[k]))
    && (forall k, l :: 0 <= k < l < |firsts| ==> firsts[k] < firsts[l])
    && (forall i :: Introduces(obs, i) ==> i in firsts)
  }

  /** Observation k is the named metric at[k].1 of row at[k].0; rows in processing order, the
      metrics of a row in its own order, none left out. */
  ghost predicate ObservedAt(samples: seq<Sample>, obs: seq<Observation>, at: seq<(nat, nat)>) {
    AllObserved(samples, obs, at) && InReadingOrder(at) && NoneLeftOut(samples, at)
  }

  ghost predicate AllObserved(samples: seq<Sample>, obs: seq<Observation>, at: seq<(nat, nat)>) {
    |at| == |obs| && forall k :: 0 <= k < |at| ==> Observed(samples, at[k], obs[k])
  }

  ghost predicate InReadingOrder(at: seq<(nat, nat)>) {
    forall k, l :: 0 <= k < l < |at| ==> at[k].0 < at[l].0 || (at[k].0 == at[l].0 && at[k].1 < at[l].1)
  }

  ghost predicate NoneLeftOut(samples: seq<Sample>, at: seq<(nat, nat)>) {
    forall i, j :: 0 <= i < |samples| && 0 <= j < |samples[i].metrics| && samples[i].metrics[j].name != "" ==>
      (i, j) in at
  }

  ghost predicate Observed(samples: seq<Sample>, at: (nat, nat), o: Observation) {
    && at.0 < |samples| && at.1 < |samples[at.0].metrics|
    && o.metric == samples[at.0].metrics[at.1] && o.metric.name != "" && o.stamp == samples[at.0].stamp
  }

  /** The same for one row. */
  ghost predicate ObservedIn(ms: seq<Metric>, stamp: int, obs: seq<Observation>, at: seq<nat>) {
    && |at| == |obs|
    && (forall k :: 0 <= k < |at| ==> at[k] < |ms| && obs[k] == Observation(ms[at[k]], stamp) && ms[at[k]].name != "")
    && (forall k, l :: 0 <= k < l < |at| ==> at[k] < at[l])
    && forall j :: 0 <= j < |ms| && ms[j].name != "" ==> j in at
  }

  lemma {:induction false} RowObservationsInOrder(ms: seq<Metric>, stamp: int) returns (at: seq<nat>)
    ensures ObservedIn(ms, stamp, ObservationsOf(ms, stamp), at)
  {
    at := [];
    if ms != [] {
      var n := |ms| - 1;
      var front := RowObservationsInOrder(ms[..n], stamp);
      at := front + if ms[n].name == "" then [] else [n];
      forall j | 0 <= j < |ms| && ms[j].name != "" ensures j in at {
        if j < n { assert ms[..n][j] == ms[j] && j in front; } else { assert at[|front|] == n; }
      }
    }
  }

  /** What the panel is compared with is every named reading of every row, in order. */
  lemma {:induction false} ObservationsInOrder(samples: seq<Sample>) returns (at: seq<(nat, nat)>)
    ensures ObservedAt(samples, Observations(samples), at)
  {
    at := [];
    if samples != [] {
      var n := |samples| - 1;
      var front := ObservationsInOrder(samples[..n]);
      var last := RowObservationsInOrder(samples[n].metrics, samples[n].stamp);
      var more := ObservationsOf(samples[n].metrics, samples[n].stamp);
      at := AddRow(samples, Observations(samples[..n]), front, more, last);
    }
  }

  lemma AddRow(
    samples: seq<Sample>, obs: seq<Observation>, front: seq<(nat, nat)>, more: seq<Observation>, last: seq<nat>)
    returns (at: seq<(nat, nat)>)
    requires samples != [] && ObservedAt(samples[..|samples| - 1], obs, front)
    requires var s := samples[|samples| - 1]; ObservedIn(s.metrics, s.stamp, more, last)
    ensures ObservedAt(samples, obs + more, at)
  {
    at := front + InRow(|samples| - 1, last);
    AddRowObserved(samples, obs, front, more, last);
    AddRowInOrder(samples, obs, front, last);
    AddRowComplete(samples, front, last);
  }

  function InRow(n: nat, last: seq<nat>): (at: seq<(nat, nat)>)
    ensures |at| == |last| && forall k :: 0 <= k < |last| ==> at[k] == (n, last[k])
  {
    seq(|last|, k requires 0 <= k < |last| => (n, last[k]))
  }

  lemma AddRowObserved(
    samples: seq<Sample>, obs: seq<Observation>, front: seq<(nat, nat)>, more: seq<Observation>, last: seq<nat>)
    requires samples != [] && AllObserved(samples[..|samples| - 1], obs, front)
    requires var s := samples[|samples| - 1]; ObservedIn(s.metrics, s.stamp, more, last)
    ensures AllObserved(samples, obs + more, front + InRow(|samples| - 1, last))
  {
    var n := |samples| - 1;
    var at, all := front + InRow(n, last), obs + more;
    forall k | 0 <= k < |at| ensures Observed(samples, at[k], all[k]) {
      if k < |front| {
        assert Observed(samples[..n], front[k], obs[k]) && at[k] == front[k] && all[k] == obs[k];
      } else {
        var j := k - |front|;
        assert at[k] == (n, last[j]) && all[k] == more[j];
      }
    }
  }

  lemma AddRowInOrder(samples: seq<Sample>, obs: seq<Observation>, front: seq<(nat, nat)>, last: seq<nat>)
    requires samples != [] && AllObserved(samples[..|samples| - 1], obs, front) && InReadingOrder(front)
    requires forall k, l :: 0 <= k < l < |last| ==> last[k] < last[l]
    ensures InReadingOrder(front + InRow(|samples| - 1, last))
  {
    var n := |samples| - 1;
    forall k | 0 <= k < |front| ensures front[k].0 < n {
      assert Observed(samples[..n], front[k], obs[k]);
    }
  }

  lemma AddRowComplete(samples: seq<Sample>, front: seq<(nat, nat)>, last: seq<nat>)
    requires samples != [] && NoneLeftOut(samples[..|samples| - 1], front)
    requires var ms := samples[|samples| - 1].metrics; forall j :: 0 <= j < |ms| && ms[j].name != "" ==> j in last
    ensures NoneLeftOut(samples, front + InRow(|samples| - 1, last))
  {
    var n := |samples| - 1;
    var at := front + InRow(n, last);
    forall i, j | 0 <= i < |samples| && 0 <= j < |samples[i].metrics| && samples[i].metrics[j].name != ""
      ensures (i, j) in at
    {
      if i < n {
        assert samples[..n][i] == samples[i] && (i, j) in front;
      } else {
        var k :| 0 <= k < |last| && last[k] == j;
        assert at[|front| + k] == (i, j);
      }
    }
  }

  // ----- The merge without the cap -----

  function Uncapped(obs: seq<Observation>): Panel {
    if obs == [] then EMPTY_PANEL
    else MergeOne(Uncapped(obs[..|obs| - 1]), obs[|obs| - 1].metric, obs[|obs| - 1].stamp)
  }

  /** Index of the newest observation of `name`, or -1 when there is none. */
  function NewestAt(obs: seq<Observation>, name: string): (i: int)
    ensures -1 <= i < |obs|
    ensures i >= 0 ==> obs[i].metric.name == name && Newest(obs, i)
    ensures i < 0 ==> forall j :: 0 <= j < |obs| ==> obs[j].metric.name != name
  {
    if obs == [] then -1
    else
      var n := |obs| - 1;
      var i := NewestAt(obs[..n], name);
      assert forall j :: 0 <= j < n ==> obs[..n][j] == obs[j];
      if obs[n].metric.name == name && (i < 0 || obs[i].stamp < obs[n].stamp) then n else i
  }

  function FirstPositions(obs: seq<Observation>): (firsts: seq<int>)
    ensures forall k :: 0 <= k < |firsts| ==> 0 <= firsts[k] < |obs|
  {
    if obs == [] then []
    else
      var n := |obs| - 1;
      FirstPositions(obs[..n]) + if NewestAt(obs[..n], obs[n].metric.name) >= 0 then [] else [n]
  }

  lemma {:induction false} FirstPositionsAreInOrder(obs: seq<Observation>)
    ensures NamesInOrder(obs, FirstPositions(obs))
  {
    if obs != [] {
      var n := |obs| - 1;
      var front := obs[..n];
      FirstPositionsAreInOrder(front);
      forall i | Introduces(obs, i) ensures i in FirstPositions(obs) {
        if i < n { assert Introduces(front, i); }
      }
      forall k | 0 <= k < |FirstPositions(obs)| ensures Introduces(obs, FirstPositions(obs)[k]) {
        if k < |FirstPositions(front)| { assert Introduces(front, FirstPositions(front)[k]); }
      }
    }
  }

  /** The uncapped panel as a function of all observations at once. */
  ghost predicate Faithful(obs: seq<Observation>, p: Panel) {
    var firsts := FirstPositions(obs);
    && |p.metrics| == |firsts|
    && (forall k :: 0 <= k < |firsts| ==> EntryFaithful(obs, firsts, p, k))
    && (forall name :: StampFaithful(obs, p, name))
  }

  ghost predicate AllNamed(obs: seq<Observation>) {
    forall i :: 0 <= i < |obs| ==> obs[i].metric.name != ""
  }

  lemma {:induction false} UncappedIsFaithful(obs: seq<Observation>)
    requires AllNamed(obs)
    ensures Faithful(obs, Uncapped(obs))
  {
    if obs != [] {
      var front, o := obs[..|obs| - 1], obs[|obs| - 1];
      UncappedIsFaithful(front);
      IndexOfSeenName(front, Uncapped(front), o.metric.name);
      assert obs == front + [o];
      MergeKeepsFaithful(front, o, Uncapped(front));
    }
  }

  /** A name seen before is displayed exactly once. */
  lemma IndexOfSeenName(obs: seq<Observation>, p: Panel, name: string)
    requires Faithful(obs, p)
    ensures ShownOnce(p, name)
  {
    FirstPositionsAreInOrder(obs);
    var firsts, f := FirstPositions(obs), IndexOf(p.metrics, name);
    assert StampFaithful(obs, p, name);
    if name in p.stamps {
      var i := FirstOccurrence(obs, NewestAt(obs, name));
      var k :| 0 <= k < |firsts| && firsts[k] == i;
      assert EntryFaithful(obs, firsts, p, k);
    }
    if f < |p.metrics| { assert EntryFaithful(obs, firsts, p, f); }
    forall k | 0 <= k < |p.metrics| && p.metrics[k].name == name ensures k == f {
      assert EntryFaithful(obs, firsts, p, k);
      assert Introduces(obs, firsts[k]) && Introduces(obs, firsts[f]);
    }
  }

  lemma FirstOccurrence(obs: seq<Observation>, j: int) returns (i: int)
    requires 0 <= j < |obs|
    ensures Introduces(obs, i) && obs[i].metric.name == obs[j].metric.name
    decreases j
  {
    i := j;
    if !Introduces(obs, j) {
      var h :| 0 <= h < j && obs[h].metric.name == obs[j].metric.name;
      i := FirstOccurrence(obs, h);
    }
  }

  lemma NewestAtStep(front: seq<Observation>, o: Observation, name: string)
    ensures NewestAt(front + [o], name) ==
      if o.metric.name == name && (NewestAt(front, name) < 0 || front[NewestAt(front, name)].stamp < o.stamp)
      then |front| else NewestAt(front, name)
  {
    assert (front + [o])[..|front|] == front;
  }

  lemma FirstPositionsStep(front: seq<Observation>, o: Observation)
    ensures FirstPositions(front + [o]) ==
            FirstPositions(front) + if NewestAt(front, o.metric.name) >= 0 then [] else [|front|]
  {
    assert (front + [o])[..|front|] == front;
  }

  ghost predicate EntryFaithful(obs: seq<Observation>, firsts: seq<int>, p: Panel, k: int) {
    && 0 <= k < |p.metrics| == |firsts|
    && 0 <= firsts[k] < |obs|
    && p.metrics[k].name == obs[firsts[k]].metric.name
    && 0 <= NewestAt(obs, p.metrics[k].name)
    && p.metrics[k] == obs[NewestAt(obs, p.metrics[k].name)].metric
  }

  ghost predicate StampFaithful(obs: seq<Observation>, p: Panel, name: string) {
    && (name in p.stamps <==> NewestAt(obs, name) >= 0)
    && (name in p.stamps ==> p.stamps[name] == obs[NewestAt(obs, name)].stamp)
  }

  /** `name` is displayed at most once, and exactly when it has been seen. */
  ghost predicate ShownOnce(p: Panel, name: string) {
    && (IndexOf(p.metrics, name) < |p.metrics| <==> name in p.stamps)
    && forall k :: 0 <= k < |p.metrics| && p.metrics[k].name == name ==> k == IndexOf(p.metrics, name)
  }

  lemma MergeKeepsStamp(front: seq<Observation>, o: Observation, p: Panel, name: string)
    requires o.metric.name != "" && StampFaithful(front, p, name)
    ensures StampFaithful(front + [o], MergeOne(p, o.metric, o.stamp), name)
  {
    NewestAtStep(front, o, name);
  }

  lemma MergeKeepsEntry(front: seq<Observation>, o: Observation, p: Panel, k: int)
    requires o.metric.name != "" && ShownOnce(p, o.metric.name) && StampFaithful(front, p, o.metric.name)
    requires |p.metrics| == |FirstPositions(front)|
    requires k < |p.metrics| ==> EntryFaithful(front, FirstPositions(front), p, k)
    requires 0 <= k < |MergeOne(p, o.metric, o.stamp).metrics|
    ensures EntryFaithful(front + [o], FirstPositions(front + [o]), MergeOne(p, o.metric, o.stamp), k)
  {
    var name := MergeOne(p, o.metric, o.stamp).metrics[k].name;
    FirstPositionsStep(front, o);
    NewestAtStep(front, o, name);
  }

  lemma MergeKeepsFaithful(front: seq<Observation>, o: Observation, p: Panel)
    requires o.metric.name != "" && Faithful(front, p) && ShownOnce(p, o.metric.name)
    ensures Faithful(front + [o], MergeOne(p, o.metric, o.stamp))
  {
    var q := MergeOne(p, o.metric, o.stamp);
    FirstPositionsStep(front, o);
    assert StampFaithful(front, p, o.metric.name);
    forall k | 0 <= k < |q.metrics| ensures EntryFaithful(front + [o], FirstPositions(front + [o]), q, k) {
      assert k < |p.metrics| ==> EntryFaithful(front, FirstPositions(front), p, k);
      MergeKeepsEntry(front, o, p, k);
    }
    forall name ensures StampFaithful(front + [o], q, name) {
      assert StampFaithful(front, p, name);
      MergeKeepsStamp(front, o, p, name);
    }
  }

  // ----- The cap never disturbs the first eight -----

  lemma {:induction false} CapIgnoresTheTail(p: Panel, u: Panel, m: Metric, stamp: int)
    requires Cap(p.metrics) == Cap(u.metrics) && p.stamps == u.stamps
    ensures Cap(MergeOne(p, m, stamp).metrics) == Cap(MergeOne(u, m, stamp).metrics)
    ensures MergeOne(p, m, stamp).stamps == MergeOne(u, m, stamp).stamps
  {
    var c := Cap(u.metrics);
    if |c| < MAX_DISPLAY_METRICS {
      assert p.metrics == u.metrics;
    } else {
      var i, j := IndexOf(p.metrics, m.name), IndexOf(u.metrics, m.name);
      assert forall k :: 0 <= k < |c| ==> p.metrics[k] == c[k] && u.metrics[k] == c[k];
      assert (i < |c| || j < |c|) ==> i == j;
    }
  }

  lemma {:induction false} MergeAllTracksUncapped(p: Panel, obs: seq<Observation>, ms: seq<Metric>, stamp: int)
    requires Cap(p.metrics) == Cap(Uncapped(obs).metrics) && p.stamps == Uncapped(obs).stamps
    ensures var q, u := MergeAll(p, ms, stamp), Uncapped(obs + ObservationsOf(ms, stamp));
            Cap(q.metrics) == Cap(u.metrics) && q.stamps == u.stamps
  {
    if ms == [] {
      assert obs + ObservationsOf(ms, stamp) == obs;
    } else {
      var front, m := ms[..|ms| - 1], ms[|ms| - 1];
      MergeAllTracksUncapped(p, obs, front, stamp);
      var before := obs + ObservationsOf(front, stamp);
      CapIgnoresTheTail(MergeAll(p, front, stamp), Uncapped(before), m, stamp);
      if m.name == "" {
        assert obs + ObservationsOf(ms, stamp) == before;
      } else {
        var all := obs + ObservationsOf(ms, stamp);
        assert all == before + [Observation(m, stamp)];
        assert all[..|all| - 1] == before;
      }
    }
  }

  lemma {:induction false} MergeSamplesTracksUncapped(samples: seq<Sample>)
    ensures var q, u := MergeSamples(EMPTY_PANEL, samples), Uncapped(Observations(samples));
            q.metrics == Cap(u.metrics) && q.stamps == u.stamps
  {
    if samples != [] {
      var front, s := samples[..|samples| - 1], samples[|samples| - 1];
      MergeSamplesTracksUncapped(front);
      MergeAllTracksUncapped(MergeSamples(EMPTY_PANEL, front), Observations(front), s.metrics, s.stamp);
    }
  }

  lemma {:induction false} ObservationsAreNamed(samples: seq<Sample>)
    ensures AllNamed(Observations(samples))
  {
    if samples != [] {
      ObservationsAreNamed(samples[..|samples| - 1]);
      RowObservationsAreNamed(samples[|samples| - 1].metrics, samples[|samples| - 1].stamp);
    }
  }

  lemma {:induction false} RowObservationsAreNamed(ms: seq<Metric>, stamp: int)
    ensures AllNamed(ObservationsOf(ms, stamp))
  {
    if ms != [] { RowObservationsAreNamed(ms[..|ms| - 1], stamp); }
  }

  /** After any rows, the displayed list is exactly the first eight names in order of
      first appearance, each with the newest reading of its name (the earlier one on a
      tie), although truncation and replacement happen in place, row by row. */
  lemma {:induction false} PanelShowsNewestPerName(samples: seq<Sample>) returns (firsts: seq<int>)
    ensures var obs := Observations(samples);
            var shown := MergeSamples(EMPTY_PANEL, samples).metrics;
            && NamesInOrder(obs, firsts)
            && |shown| == (if |firsts| < 8 then |firsts| else 8)
            && forall k :: 0 <= k < |shown| ==>
                 shown[k].name == obs[firsts[k]].metric.name && IsNewestReading(obs, shown[k])
  {
    var obs := Observations(samples);
    ObservationsAreNamed(samples);
    UncappedIsFaithful(obs);
    FirstPositionsAreInOrder(obs);
    MergeSamplesTracksUncapped(samples);
    firsts := FirstPositions(obs);
    var u, shown := Uncapped(obs), MergeSamples(EMPTY_PANEL, samples).metrics;
    forall k | 0 <= k < |shown|
      ensures shown[k].name == obs[firsts[k]].metric.name && IsNewestReading(obs, shown[k])
    {
      assert EntryFaithful(obs, firsts, u, k);
      var i := NewestAt(obs, u.metrics[k].name);
      assert Newest(obs, i) && obs[i].metric == shown[k];
    }
  }

  // ----- The loops of the source -----

  method FindMetric(ms: seq<Metric>, name: string) returns (index: nat)
    ensures index == IndexOf(ms, name)
  {
    index := 0;
    while index < |ms|
      invariant index <= |ms|
      invariant forall k :: 0 <= k < index ==> ms[k].name != name
    {
      if ms[index].name == name { return; }
      index := index + 1;
    }
  }
}
