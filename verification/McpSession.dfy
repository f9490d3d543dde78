/** The synchronous MCP tool session: callers put requests on a queue, one worker thread
    takes them, completes their futures, and leaves at the first shutdown sentinel. Steps of
    callers and worker interleave arbitrarily. */
module McpSession {
  import opened Options

  /** A queued request carries the number of its future. */
  datatype Item = Request(future: nat) | Sentinel

  datatype Worker = Waiting | Calling(future: nat) | Exited

  /** A completed future with the result or exception it was given. */
  datatype Completion = Completion(future: nat, outcome: string)

  datatype Session = Session(queue: seq<Item>, worker: Worker, completed: seq<Completion>)

  /** Put is a caller's step; Take and Finish are the worker's. */
  datatype Step = Put(item: Item) | Take | Finish

  /** The outcome of each call, whatever the server does. */
  type Server = nat -> string

  predicate Enabled(s: Session, step: Step) {
    match step
    case Put(_) => true
    case Take => s.worker == Waiting && s.queue != []
    case Finish => s.worker.Calling?
  }

  function Next(server: Server, s: Session, step: Step): Session
    requires Enabled(s, step)
  {
    match step
    case Put(item) => s.(queue := s.queue + [item])
    case Take =>
      var worker := match s.queue[0] case Request(f) => Calling(f) case Sentinel => Exited;
      s.(queue := s.queue[1..], worker := worker)
    case Finish =>
      s.(worker := Waiting, completed := s.completed + [Completion(s.worker.future, server(s.worker.future))])
  }

  /** The state after the steps, or None when a step was not enabled. */
  function Run(server: Server, start: Session, steps: seq<Step>): Option<Session> {
    if steps == [] then Some(start)
    else
      match Run(server, start, steps[..|steps| - 1])
      case None => None
      case Some(mid) =>
        var last := steps[|steps| - 1];
        if Enabled(mid, last) then Some(Next(server, mid, last)) else None
  }

  ghost predicate IsRun(server: Server, start: Session, steps: seq<Step>, end: Session) {
    Run(server, start, steps) == Some(end)
  }

  function ItemsPut(steps: seq<Step>): seq<Item> {
    if steps == [] then []
    else
      var last := steps[|steps| - 1];
      ItemsPut(steps[..|steps| - 1]) + if last.Put? then [last.item] else []
  }

  function WorkerSteps(steps: seq<Step>): nat {
    if steps == [] then 0
    else WorkerSteps(steps[..|steps| - 1]) + if steps[|steps| - 1].Put? then 0 else 1
  }

  // ----- What a queue entitles to -----

  /** The futures queued before the first sentinel, in order. */
  function Served(items: seq<Item>): seq<nat> {
    if items == [] || items[0] == Sentinel then [] else [items[0].future] + Served(items[1..])
  }

  predicate Closed(items: seq<Item>) { Sentinel in items }

  function Futures(done: seq<Completion>): (fs: seq<nat>)
    ensures |fs| == |done| && forall k :: 0 <= k < |done| ==> fs[k] == done[k].future
  {
    seq(|done|, k requires 0 <= k < |done| => done[k].future)
  }

  lemma {:induction false} ServedAppend(a: seq<Item>, b: seq<Item>)
    ensures Served(a + b) == Served(a) + if Closed(a) then [] else Served(b)
    ensures Closed(a + b) <==> Closed(a) || Closed(b)
  {
    if a == [] {
      assert a + b == b;
    } else {
      ServedAppend(a[1..], b);
      ServedTail(a);
      TailOfAppend(a, b);
      ServedTail(a + b);
      if a[0] != Sentinel { Regroup([a[0].future], Served(a[1..]), if Closed(a[1..]) then [] else Served(b)); }
    }
  }

  lemma ServedTail(items: seq<Item>)
    requires items != []
    ensures Served(items) == if items[0] == Sentinel then [] else [items[0].future] + Served(items[1..])
    ensures Closed(items) <==> items[0] == Sentinel || Closed(items[1..])
  {}

  lemma TailOfAppend(a: seq<Item>, b: seq<Item>)
    requires a != []
    ensures (a + b)[0] == a[0] && (a + b)[1..] == a[1..] + b
  {}

  lemma Regroup(a: seq<nat>, b: seq<nat>, c: seq<nat>)
    ensures a + (b + c) == a + b + c
  {}

  /** Completed futures, the one being called, and those still queued before a sentinel add
      up to what everything ever put entitles to. */
  ghost predicate Accounts(server: Server, all: seq<Item>, s: Session) {
    && (forall c :: c in s.completed ==> c.outcome == server(c.future))
    && match s.worker
       case Waiting => Served(all) == Futures(s.completed) + Served(s.queue) && (Closed(all) <==> Closed(s.queue))
       case Calling(f) =>
         Served(all) == Futures(s.completed) + [f] + Served(s.queue) && (Closed(all) <==> Closed(s.queue))
       case Exited => Served(all) == Futures(s.completed) && Closed(all)
  }

  lemma PutKeepsAccounts(server: Server, all: seq<Item>, s: Session, item: Item)
    requires Accounts(server, all, s)
    ensures Accounts(server, all + [item], Next(server, s, Put(item)))
  {
    ServedAppend(all, [item]);
    ServedAppend(s.queue, [item]);
  }

  lemma TakeKeepsAccounts(server: Server, all: seq<Item>, s: Session)
    requires Accounts(server, all, s) && Enabled(s, Take)
    ensures Accounts(server, all, Next(server, s, Take))
  {
    assert forall x :: x in s.queue <==> x == s.queue[0] || x in s.queue[1..];
  }

  lemma FinishKeepsAccounts(server: Server, all: seq<Item>, s: Session)
    requires Accounts(server, all, s) && Enabled(s, Finish)
    ensures Accounts(server, all, Next(server, s, Finish))
  {
    assert Futures(Next(server, s, Finish).completed) == Futures(s.completed) + [s.worker.future];
  }

  lemma StepKeepsAccounts(server: Server, all: seq<Item>, s: Session, step: Step)
    requires Accounts(server, all, s) && Enabled(s, step)
    ensures Accounts(server, if step.Put? then all + [step.item] else all, Next(server, s, step))
  {
    match step
    case Put(item) => PutKeepsAccounts(server, all, s, item);
    case Take => TakeKeepsAccounts(server, all, s);
    case Finish => FinishKeepsAccounts(server, all, s);
  }

  lemma ItemsPutOneMore(steps: seq<Step>, step: Step)
    ensures ItemsPut(steps + [step]) == ItemsPut(steps) + if step.Put? then [step.item] else []
  {
    assert (steps + [step])[..|steps|] == steps;
  }

  lemma RunOneMore(server: Server, start: Session, steps: seq<Step>, step: Step)
    requires Run(server, start, steps).Some?
    ensures var mid := Run(server, start, steps).value;
            Enabled(mid, step) ==> IsRun(server, start, steps + [step], Next(server, mid, step))
  {
    assert (steps + [step])[..|steps|] == steps;
  }

  /** A session as __enter__ leaves it: a worker that is ready, and whatever is in the queue. */
  function Opened(queue: seq<Item>): Session { Session(queue, Waiting, []) }

  lemma {:induction false} EveryRunAccounts(server: Server, q0: seq<Item>, steps: seq<Step>, end: Session)
    requires IsRun(server, Opened(q0), steps, end)
    ensures Accounts(server, q0 + ItemsPut(steps), end)
  {
    if steps == [] {
      assert q0 + [] == q0;
    } else {
      var front, last := steps[..|steps| - 1], steps[|steps| - 1];
      var mid := Run(server, Opened(q0), front).value;
      EveryRunAccounts(server, q0, front, mid);
      StepKeepsAccounts(server, q0 + ItemsPut(front), mid, last);
      if last.Put? {
        assert q0 + ItemsPut(steps) == q0 + ItemsPut(front) + [last.item];
      } else {
        assert ItemsPut(steps) == ItemsPut(front);
      }
    }
  }

  // ----- Main results, for every interleaving -----

  /** At every point, the completed futures are an initial part, in FIFO order, of those put
      before the first sentinel, each with its own outcome. */
  lemma {:induction false} CompletionsAreFifo(server: Server, q0: seq<Item>, steps: seq<Step>, end: Session)
    requires IsRun(server, Opened(q0), steps, end)
    ensures Futures(end.completed) <= Served(q0 + ItemsPut(steps))
    ensures forall c :: c in end.completed ==> c.outcome == server(c.future)
    ensures Distinct(Served(q0 + ItemsPut(steps))) ==> Distinct(Futures(end.completed))
  {
    EveryRunAccounts(server, q0, steps, end);
    var all := Served(q0 + ItemsPut(steps));
    assert forall k :: 0 <= k < |end.completed| ==> all[k] == Futures(end.completed)[k];
  }

  ghost predicate Distinct(fs: seq<nat>) { forall i, j :: 0 <= i < j < |fs| ==> fs[i] != fs[j] }

  /** Once the session is closed and the worker can do nothing more, every future put before
      the sentinel is complete and the worker has exited. */
  lemma {:induction false} QuiescentMeansServed(server: Server, q0: seq<Item>, steps: seq<Step>, end: Session)
    requires IsRun(server, Opened(q0), steps, end) && Closed(q0 + ItemsPut(steps))
    requires !Enabled(end, Take) && !Enabled(end, Finish)
    ensures end.worker == Exited && Futures(end.completed) == Served(q0 + ItemsPut(steps))
  {
    EveryRunAccounts(server, q0, steps, end);
  }

  lemma {:induction false} WorkerProgress(server: Server, q0: seq<Item>, steps: seq<Step>, end: Session)
    requires IsRun(server, Opened(q0), steps, end)
    ensures WorkerSteps(steps) == 2 * |end.completed| + if end.worker == Waiting then 0 else 1
  {
    if steps != [] {
      var front, last := steps[..|steps| - 1], steps[|steps| - 1];
      var mid := Run(server, Opened(q0), front).value;
      WorkerProgress(server, q0, front, mid);
    }
  }

  /** The worker cannot run for ever: in a closed session it has exited after at most two
      steps for each future it owes and one for the sentinel. */
  lemma {:induction false} WorkerExits(server: Server, q0: seq<Item>, steps: seq<Step>, end: Session)
    requires IsRun(server, Opened(q0), steps, end)
    ensures WorkerSteps(steps) <= 2 * |Served(q0 + ItemsPut(steps))| + 1
    ensures WorkerSteps(steps) == 2 * |Served(q0 + ItemsPut(steps))| + 1 ==> end.worker == Exited
  {
    EveryRunAccounts(server, q0, steps, end);
    WorkerProgress(server, q0, steps, end);
  }

  /** From a queue that was empty when the worker became ready, exactly the requests put
      before the close are served. */
  lemma {:induction false} CleanSessionServesAll(
    server: Server, steps: seq<Step>, end: Session, before: seq<Item>, after: seq<Item>)
    requires IsRun(server, Opened([]), steps, end)
    requires ItemsPut(steps) == before + [Sentinel] + after && !Closed(before)
    ensures Futures(end.completed) <= Served(before)
    ensures |Served(before)| == |before| && forall k :: 0 <= k < |before| ==> before[k] == Request(Served(before)[k])
    ensures !Enabled(end, Take) && !Enabled(end, Finish) ==>
              end.worker == Exited && Futures(end.completed) == Served(before)
  {
    EveryRunAccounts(server, [], steps, end);
    assert [] + ItemsPut(steps) == before + ([Sentinel] + after);
    ServedAppend(before, [Sentinel] + after);
    assert Served([Sentinel] + after) == [] && Sentinel in [Sentinel] + after;
    assert Served(before) + [] == Served(before);
    ServesWholeOpenQueue(before);
  }

  lemma {:induction false} ServesWholeOpenQueue(items: seq<Item>)
    requires !Closed(items)
    ensures |Served(items)| == |items| && forall k :: 0 <= k < |items| ==> items[k] == Request(Served(items)[k])
  {
    if items != [] {
      assert items[0] in items && forall x :: x in items[1..] ==> x in items;
      ServesWholeOpenQueue(items[1..]);
    }
  }

  // ----- Opening, with retries -----

  const OPEN_ATTEMPTS: nat := 3

  function Sentinels(n: nat): (items: seq<Item>)
    ensures |items| == n && forall k :: 0 <= k < n ==> items[k] == Sentinel
  {
    seq(n, _ => Sentinel)
  }

  /** The session object. Each of Put, TakeRequest and CompleteFuture is one atomic step of a
      caller or of the worker; `put` records every item ever put. */
  class SyncMcpToolSession {
    const server: Server
    var requests: seq<Item>
    var worker: Worker
    var completed: seq<Completion>
    ghost var put: seq<Item>

    function State(): Session
      reads this
    {
      Session(requests, worker, completed)
    }

    /** The futures completed, being called and still queued are those owed for `put`. */
    ghost predicate Valid()
      reads this
    {
      Accounts(server, put, State())
    }

    constructor (server: Server)
      ensures this.server == server && State() == Session([], Exited, []) && put == []
    {
      this.server, requests, worker, completed, put := server, [], Exited, [], [];
    }

    method Put(item: Item)
      requires Valid()
      modifies this`requests, this`put
      ensures Valid() && put == old(put) + [item]
      ensures State() == Next(server, old(State()), Step.Put(item))
    {
      StepKeepsAccounts(server, put, State(), Step.Put(item));
      requests, put := requests + [item], put + [item];
    }

    /** The worker's queue get. It starts on the future that is owed next; when it exits
        instead, on the sentinel, it owes nothing. */
    method TakeRequest()
      requires Valid() && Enabled(State(), Take)
      modifies this`requests, this`worker
      ensures Valid() && old(requests) == [old(requests)[0]] + requests
      ensures worker.Calling? ==> |completed| < |Served(put)| && worker.future == Served(put)[|completed|]
      ensures !worker.Calling? ==> worker == Exited && old(requests)[0] == Sentinel && Futures(completed) == Served(put)
    {
      StepKeepsAccounts(server, put, State(), Take);
      var request := requests[0];
      requests := requests[1..];
      worker := match request case Request(f) => Calling(f) case Sentinel => Exited;
    }

    /** The future that is owed next is completed, with its own outcome. */
    method CompleteFuture()
      requires Valid() && Enabled(State(), Finish)
      modifies this`worker, this`completed
      ensures Valid() && worker == Waiting
      ensures |old(completed)| < |Served(put)|
      ensures var f := Served(put)[|old(completed)|]; completed == old(completed) + [Completion(f, server(f))]
    {
      StepKeepsAccounts(server, put, State(), Finish);
      completed := completed + [Completion(worker.future, server(worker.future))];
      worker := Waiting;
    }

    /** One step of a schedule, unless it is not enabled. */
    method Perform(step: Step) returns (done: bool)
      requires Valid()
      modifies this
      ensures Valid() && done == Enabled(old(State()), step)
      ensures State() == if done then Next(server, old(State()), step) else old(State())
      ensures put == old(put) + if step.Put? then [step.item] else []
    {
      done := true;
      match step
      case Put(item) => Put(item);
      case Take => if worker == Waiting && requests != [] { TakeRequest(); } else { done := false; }
      case Finish => if worker.Calling? { CompleteFuture(); } else { done := false; }
    }

    /** Callers and worker under any schedule: what the object does is a run of the machine,
        and at its end the completed futures are, in order, the first of those owed. */
    method Interleave(schedule: seq<Step>) returns (ghost taken: seq<Step>)
      requires Valid()
      modifies this
      ensures Valid() && IsRun(server, old(State()), taken, State())
      ensures put == old(put) + ItemsPut(schedule) && ItemsPut(taken) == ItemsPut(schedule)
      ensures Futures(completed) <= Served(put) && forall c :: c in completed ==> c.outcome == server(c.future)
    {
      taken := [];
      for k := 0 to |schedule|
        invariant Valid() && IsRun(server, old(State()), taken, State())
        invariant put == old(put) + ItemsPut(schedule[..k]) && ItemsPut(taken) == ItemsPut(schedule[..k])
      {
        assert schedule[..k + 1] == schedule[..k] + [schedule[k]];
        ItemsPutOneMore(schedule[..k], schedule[k]);
        ItemsPutOneMore(taken, schedule[k]);
        RunOneMore(server, old(State()), taken, schedule[k]);
        var done := Perform(schedule[k]);
        if done { taken := taken + [schedule[k]]; }
      }
      assert schedule[..|schedule|] == schedule;
    }

    /** __enter__: each failed attempt is closed, and closing puts a sentinel that no worker
        takes. `attempts[k]` says whether attempt k becomes ready without an error. */
    method Enter(attempts: seq<bool>) returns (ready: bool, failures: nat)
      requires State() == Session([], Exited, []) && put == [] && |attempts| == OPEN_ATTEMPTS
      modifies this
      ensures failures <= OPEN_ATTEMPTS && (forall k :: 0 <= k < failures ==> !attempts[k])
      ensures if ready then failures < OPEN_ATTEMPTS && attempts[failures] else failures == OPEN_ATTEMPTS
      ensures put == Sentinels(failures)
      ensures ready ==> Valid() && State() == Opened(Sentinels(failures))
    {
      failures := 0;
      while failures < OPEN_ATTEMPTS
        invariant failures <= OPEN_ATTEMPTS && completed == [] && requests == put == Sentinels(failures)
        invariant forall k :: 0 <= k < failures ==> !attempts[k]
      {
        if attempts[failures] {
          worker := Waiting;
          return true, failures;
        }
        requests, put := requests + [Sentinel], put + [Sentinel];
        failures := failures + 1;
      }
      ready := false;
    }
  }

  /** A session opened after a failed attempt never serves anything: its worker can only
      take the stale sentinel and exit. */
  lemma {:induction false} StaleSentinelKillsSession(server: Server, failures: nat, steps: seq<Step>, end: Session)
    requires failures > 0 && IsRun(server, Opened(Sentinels(failures)), steps, end)
    ensures end.completed == [] && WorkerSteps(steps) <= 1
    ensures end.worker == (if WorkerSteps(steps) == 0 then Waiting else Exited)
  {
    var q0 := Sentinels(failures);
    EveryRunAccounts(server, q0, steps, end);
    WorkerProgress(server, q0, steps, end);
    ServedAppend(q0, ItemsPut(steps));
    assert q0[0] == Sentinel;
  }

  ghost predicate Serves(server: Server, q0: seq<Item>, f: nat) {
    exists steps :: Completes(server, q0, steps, f)
  }

  ghost predicate Completes(server: Server, q0: seq<Item>, steps: seq<Step>, f: nat) {
    var r := Run(server, Opened(q0), steps);
    r.Some? && f in Futures(r.value.completed)
  }

  lemma EmptyQueueServes(server: Server, f: nat)
    ensures Serves(server, [], f)
  {
    var p1, p2, p3 := [Put(Request(f))], [Put(Request(f)), Take], [Put(Request(f)), Take, Finish];
    assert p1[..0] == [] && p2[..1] == p1 && p3[..2] == p2;
    assert [] + [Request(f)] == [Request(f)] && [Request(f)][1..] == [];
    assert Run(server, Opened([]), []) == Some(Opened([]));
    assert Run(server, Opened([]), p1) == Some(Session([Request(f)], Waiting, []));
    assert Run(server, Opened([]), p2) == Some(Session([], Calling(f), []));
    assert Run(server, Opened([]), p3).value.completed == [Completion(f, server(f))];
    assert Futures([Completion(f, server(f))])[0] == f;
    assert Completes(server, [], p3, f);
  }

  /** A retried open works if and only if no attempt had failed before: only then can any
      request be served. */
  lemma {:induction false} ServesIffFirstAttemptOpened(server: Server, failures: nat, f: nat)
    ensures Serves(server, Sentinels(failures), f) <==> failures == 0
  {
    var q0 := Sentinels(failures);
    if failures == 0 {
      assert q0 == [];
      EmptyQueueServes(server, f);
    } else if steps :| Completes(server, q0, steps, f) {
      StaleSentinelKillsSession(server, failures, steps, Run(server, Opened(q0), steps).value);
    }
  }
}
