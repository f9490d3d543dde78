/** The Loki log query: one query over the full window, and after its failure a search back
    through single hours. */
module LokiFallback {
  import opened Options

  const HOUR: int := 3600
  const DEFAULT_HOURS: nat := 6
  const MAX_HOURS: nat := 72
  const DEFAULT_CHUNKS: nat := 2

  /** A value that does not parse as an integer is None; its default is not clamped. */
  function CoercePositive(value: Option<int>, default: nat, maximum: nat): (n: nat)
    requires default >= 1 && maximum >= 1
    ensures n >= 1
    ensures value.Some? ==> n <= maximum && (1 <= value.value <= maximum ==> n == value.value)
    ensures value.Some? && value.value < 1 ==> n == 1
    ensures value.Some? && value.value > maximum ==> n == maximum
    ensures value.None? ==> n == default
  {
    match value
    case None => default
    case Some(x) => if x < 1 then 1 else if x > maximum then maximum else x
  }

  /** A query fails, or returns log entries. */
  datatype Reply = Failed(error: string) | Entries(logs: seq<string>)

  datatype Window = Window(start: int, end: int)

  datatype Discovery = DiscoveryFailed | NoDatasource | Datasource

  datatype Answer =
    | Unavailable
    | FullWindow(logs: seq<string>)
    | Recent(chunk: nat, logs: seq<string>)
    | NothingRecent

  datatype Query = Query(hoursBack: Option<int>, configuredChunks: Option<int>, now: int)

  function SafeHours(q: Query): (n: nat)
    ensures 1 <= n <= 72 && (q.hoursBack.None? ==> n == 6)
  {
    CoercePositive(q.hoursBack, DEFAULT_HOURS, MAX_HOURS)
  }

  function ChunkCount(q: Query): (n: nat)
    ensures n >= 1 && (q.configuredChunks.None? ==> n == 2)
    ensures q.configuredChunks.Some? ==> n <= SafeHours(q)
  {
    CoercePositive(q.configuredChunks, DEFAULT_CHUNKS, SafeHours(q))
  }

  /** The k-th hour back from now. */
  function Chunk(q: Query, k: nat): Window {
    Window(q.now - k * HOUR - HOUR, q.now - k * HOUR)
  }

  function Requested(q: Query): Window { Window(q.now - SafeHours(q) * HOUR, q.now) }

  predicate Inside(w: Window, outer: Window) { outer.start <= w.start && w.end <= outer.end }

  /** The windows queried after the full one: the first n hours back. */
  ghost predicate SearchesBack(q: Query, windows: seq<Window>, n: nat) {
    |windows| == n && forall k :: 0 <= k < n ==> windows[k] == Chunk(q, k)
  }

  predicate HasLogs(r: Reply) { r.Entries? && r.logs != [] }

  method QueryLogs(q: Query, discovery: Discovery, full: Reply, chunks: nat -> Reply)
    returns (answer: Answer, searched: seq<Window>)
    ensures answer.Unavailable? <==>
              discovery != Datasource || (full.Failed? && forall k: nat :: k < ChunkCount(q) ==> chunks(k).Failed?)
    ensures answer.FullWindow? <==> discovery == Datasource && full.Entries?
    ensures answer.FullWindow? ==> answer.logs == full.logs && searched == []
    ensures answer.Recent? ==>
              && discovery == Datasource && full.Failed? && answer.chunk < ChunkCount(q)
              && chunks(answer.chunk) == Entries(answer.logs) && answer.logs != []
              && (forall k: nat :: k < answer.chunk ==> !HasLogs(chunks(k)))
              && SearchesBack(q, searched, answer.chunk + 1)
    ensures discovery == Datasource && full.Failed? && !answer.Recent? ==> SearchesBack(q, searched, ChunkCount(q))
    ensures discovery == Datasource && full.Failed? ==>
              (answer.Recent? <==> exists k: nat :: k < ChunkCount(q) && HasLogs(chunks(k)))
  {
    searched := [];
    if discovery != Datasource { return Unavailable, []; }
    if full.Entries? { return FullWindow(full.logs), []; }
    var hadSuccess := false;
    for k := 0 to ChunkCount(q)
      invariant SearchesBack(q, searched, k)
      invariant forall i: nat :: i < k ==> !HasLogs(chunks(i))
      invariant hadSuccess <==> exists i: nat :: i < k && chunks(i).Entries?
    {
      searched := searched + [Chunk(q, k)];
      match chunks(k)
      case Failed(_) =>
      case Entries(logs) =>
        hadSuccess := true;
        if logs != [] { return Recent(k, logs), searched; }
    }
    answer := if hadSuccess then NothingRecent else Unavailable;
    assert hadSuccess ==> exists i: nat :: i < ChunkCount(q) && chunks(i).Entries?;
  }

  /** The hours searched are adjacent and do not overlap, the first ends now, and together
      they cover exactly the last n hours. */
  lemma {:induction false} SearchedHoursTile(q: Query, windows: seq<Window>, n: nat, t: int)
    requires SearchesBack(q, windows, n) && n > 0
    ensures windows[0].end == q.now && windows[n - 1].start == q.now - n * HOUR
    ensures forall k :: 0 < k < n ==> windows[k].end == windows[k - 1].start
    ensures (exists k :: 0 <= k < n && windows[k].start < t <= windows[k].end) <==> q.now - n * HOUR < t <= q.now
  {
    if q.now - n * HOUR < t <= q.now {
      var k := (q.now - t) / HOUR;
      assert 0 <= k < n && windows[k] == Chunk(q, k);
      assert windows[k].start < t <= windows[k].end;
    }
  }

  /** Hour k lies in the requested window exactly when it is one of its hours. */
  lemma {:induction false} ChunkInsideIff(q: Query, k: nat)
    ensures Inside(Chunk(q, k), Requested(q)) <==> k < SafeHours(q)
  {}

  /** Every hour that may be searched lies in the requested window if and only if the chunk
      count is configured, or at least two hours were requested: the default of two chunks
      is not clamped to a one-hour window. */
  lemma {:induction false} SearchStaysInsideIff(q: Query)
    ensures (forall k: nat :: k < ChunkCount(q) ==> Inside(Chunk(q, k), Requested(q)))
            <==> q.configuredChunks.Some? || SafeHours(q) >= 2
    ensures SafeHours(q) >= 2 <==> q.hoursBack.None? || q.hoursBack.value >= 2
  {
    forall k: nat ensures Inside(Chunk(q, k), Requested(q)) <==> k < SafeHours(q) { ChunkInsideIff(q, k); }
    if q.configuredChunks.None? && SafeHours(q) < 2 {
      assert 1 < ChunkCount(q) && !Inside(Chunk(q, 1), Requested(q));
    }
  }

  /** A one-hour request with no configured chunk count that does search outside its window. */
  method OneHourSearchLeavesWindow() returns (searched: seq<Window>, q: Query)
    ensures q == Query(Some(1), None, 7200)
    ensures |searched| == 2 && !Inside(searched[1], Requested(q))
  {
    q := Query(Some(1), None, 7200);
    var answer;
    answer, searched := QueryLogs(q, Datasource, Failed("timeout"), _ => Entries([]));
    ChunkInsideIff(q, 1);
  }
}
