/** The IOA v2 reasoning loop: the model is asked for a next step until it answers, with at
    least one observation required. It exists in a plain and in a streaming form. */
module ReasoningLoop {
  import opened Options

  const SYSTEM_TARGET := "SYSTEM"

  datatype Observation = Observation(iteration: nat, thought: string, action: string, output: string)

  /** What the model says next: an answer, something without an action, a tool call, or an
      action marker with nothing after it, on which parsing raises. */
  datatype Reply =
    | FinalAnswer(text: string) | NoAction(thought: string) | Act(thought: string, action: string) | EmptyAction

  /** The model, the tools and the answer generator, as functions of what has been seen. */
  datatype World = World(
    choose: seq<Observation> -> Reply, tools: set<string>, execute: (string, string) -> string,
    answer: seq<Observation> -> string, clean: string -> string)

  datatype Outcome =
    | Answered(observations: seq<Observation>, answer: string)
    | InvalidTool(observations: seq<Observation>, thought: string, action: string)
    | Crashed(observations: seq<Observation>)

  const REQUIRED_THOUGHT := "Collect telemetry evidence before producing a final answer."

  function RequiredEvidence(w: World, target: string): Observation {
    var action := if target == SYSTEM_TARGET then "check_system_overview" else "check_device_status";
    Observation(1, REQUIRED_THOUGHT, action, w.execute(action, target))
  }

  /** The observation of a tool call, numbered next. */
  function Called(w: World, target: string, seen: seq<Observation>, thought: string, action: string): Observation {
    Observation(|seen| + 1, thought, action, w.execute(action, target))
  }

  predicate EnoughSystemEvidence(target: string, observations: seq<Observation>) {
    && target == SYSTEM_TARGET
    && (exists o :: o in observations && o.action == "check_system_overview")
    && (exists o :: o in observations && o.action == "check_system_alarms")
  }

  /** The rest of a run from a given step. */
  function Continue(w: World, target: string, limit: nat, seen: seq<Observation>, step: nat): Outcome
    requires step <= limit
    decreases limit - step
  {
    if step == limit then Answered(seen, w.answer(seen))
    else match w.choose(seen)
         case FinalAnswer(text) =>
           if seen == [] then Continue(w, target, limit, [RequiredEvidence(w, target)], step + 1)
           else Answered(seen, w.clean(text))
         case NoAction(_) =>
           var known := if seen == [] then [RequiredEvidence(w, target)] else seen;
           Answered(known, w.answer(known))
         case EmptyAction => Crashed(seen)
         case Act(thought, action) =>
           if action !in w.tools then InvalidTool(seen, thought, action)
           else
             var more := seen + [Observation(step + 1, thought, action, w.execute(action, target))];
             if EnoughSystemEvidence(target, more) then Answered(more, w.answer(more))
             else Continue(w, target, limit, more, step + 1)
  }

  function Outcomes(w: World, target: string, limit: nat): Outcome { Continue(w, target, limit, [], 0) }

  // ----- Every answer rests on evidence -----

  ghost predicate Numbered(observations: seq<Observation>) {
    forall k :: 0 <= k < |observations| ==> observations[k].iteration == k + 1
  }

  lemma {:induction false} ContinueIsNumbered(w: World, target: string, limit: nat, seen: seq<Observation>, step: nat)
    requires step <= limit && |seen| == step && Numbered(seen)
    ensures var r := Continue(w, target, limit, seen, step);
            && Numbered(r.observations) && seen <= r.observations && |r.observations| <= limit
            && (r.Answered? && limit > 0 ==> |r.observations| >= 1)
    decreases limit - step
  {
    if step < limit {
      match w.choose(seen)
      case FinalAnswer(_) =>
        if seen == [] { ContinueIsNumbered(w, target, limit, [RequiredEvidence(w, target)], step + 1); }
      case NoAction(_) =>
      case EmptyAction =>
      case Act(thought, action) =>
        if action in w.tools {
          ContinueIsNumbered(w, target, limit, seen + [Called(w, target, seen, thought, action)], step + 1);
        }
    }
  }

  /** For any model, a run answers from between 1 and `limit` observations, numbered 1..k,
      unless it ends on an unknown tool or on an empty action; both end it before the limit. */
  lemma {:induction false} AnswersRestOnEvidence(w: World, target: string, limit: nat)
    requires limit >= 1
    ensures var r := Outcomes(w, target, limit);
            && Numbered(r.observations)
            && match r
               case Answered(os, _) => 1 <= |os| <= limit
               case InvalidTool(os, thought, action) =>
                 |os| < limit && action !in w.tools && w.choose(os) == Act(thought, action)
               case Crashed(os) => |os| < limit && w.choose(os) == EmptyAction
  {
    ContinueIsNumbered(w, target, limit, [], 0);
    EndsOnTheReply(w, target, limit, [], 0);
  }

  /** A run that does not answer ends on the reply that its observations brought. */
  lemma {:induction false} EndsOnTheReply(
    w: World, target: string, limit: nat, seen: seq<Observation>, step: nat)
    requires step <= limit && |seen| == step
    ensures match Continue(w, target, limit, seen, step)
            case Answered(_, _) => true
            case InvalidTool(os, thought, action) =>
              |os| < limit && action !in w.tools && w.choose(os) == Act(thought, action)
            case Crashed(os) => |os| < limit && w.choose(os) == EmptyAction
    decreases limit - step
  {
    if step < limit {
      match w.choose(seen)
      case FinalAnswer(_) =>
        if seen == [] { EndsOnTheReply(w, target, limit, [RequiredEvidence(w, target)], step + 1); }
      case NoAction(_) =>
      case EmptyAction =>
      case Act(thought, action) =>
        if action in w.tools {
          EndsOnTheReply(w, target, limit, seen + [Called(w, target, seen, thought, action)], step + 1);
        }
    }
  }

  // ----- Exactly which replies end a run without an answer -----

  /** The observations with which the loop asks for step `n`, or None when it ended before. */
  function Asked(w: World, target: string, n: nat): (seen: Option<seq<Observation>>)
    ensures seen.Some? ==> |seen.value| == n
  {
    if n == 0 then Some([])
    else match Asked(w, target, n - 1)
         case None => None
         case Some(seen) =>
           match w.choose(seen)
           case FinalAnswer(_) => if seen == [] then Some([RequiredEvidence(w, target)]) else None
           case NoAction(_) => None
           case EmptyAction => None
           case Act(thought, action) =>
             var more := seen + [Called(w, target, seen, thought, action)];
             if action in w.tools && !EnoughSystemEvidence(target, more) then Some(more) else None
  }

  lemma {:induction false} AskedContinues(w: World, target: string, limit: nat, n: nat)
    requires n <= limit && Asked(w, target, n).Some?
    ensures Outcomes(w, target, limit) == Continue(w, target, limit, Asked(w, target, n).value, n)
  {
    if n > 0 { AskedContinues(w, target, limit, n - 1); }
  }

  ghost predicate AskedWith(w: World, target: string, limit: nat, seen: seq<Observation>) {
    |seen| < limit && Asked(w, target, |seen|) == Some(seen)
  }

  lemma {:induction false} EndsWhereAsked(w: World, target: string, limit: nat, n: nat)
    requires n <= limit && Asked(w, target, n).Some? && !Outcomes(w, target, limit).Answered?
    ensures AskedWith(w, target, limit, Outcomes(w, target, limit).observations)
    decreases limit - n
  {
    AskedContinues(w, target, limit, n);
    if n < limit && Asked(w, target, n + 1).Some? { EndsWhereAsked(w, target, limit, n + 1); }
  }

  /** A run crashes with `seen` exactly when the loop asks with `seen` and the model replies
      with an empty action; it ends on an invalid tool exactly when it asks and the model
      names that tool. In every other case it answers. */
  lemma {:induction false} UnansweredExactlyOn(w: World, target: string, limit: nat, seen: seq<Observation>)
    ensures var r := Outcomes(w, target, limit);
            && (r == Crashed(seen) <==> AskedWith(w, target, limit, seen) && w.choose(seen) == EmptyAction)
            && forall thought, action ::
                 r == InvalidTool(seen, thought, action) <==>
                 AskedWith(w, target, limit, seen) && w.choose(seen) == Act(thought, action) && action !in w.tools
  {
    var r := Outcomes(w, target, limit);
    if !r.Answered? {
      EndsWhereAsked(w, target, limit, 0);
      EndsOnTheReply(w, target, limit, [], 0);
    }
    if AskedWith(w, target, limit, seen) { AskedContinues(w, target, limit, |seen|); }
  }

  // ----- What the observations and the answer are -----

  /** The evidence collected before there is any: the overview for a system request, else the
      status of the device. */
  ghost predicate IsRequiredEvidence(w: World, target: string, o: Observation) {
    && o.iteration == 1 && o.thought == "Collect telemetry evidence before producing a final answer."
    && o.action == (if target == "SYSTEM" then "check_system_overview" else "check_device_status")
    && o.output == w.execute(o.action, target)
  }

  /** A system request that has seen both the overview and the alarms. */
  ghost predicate HasBoth(target: string, observations: seq<Observation>) {
    && target == "SYSTEM"
    && (exists k :: 0 <= k < |observations| && observations[k].action == "check_system_overview")
    && (exists k :: 0 <= k < |observations| && observations[k].action == "check_system_alarms")
  }

  lemma EnoughIsBoth(target: string, observations: seq<Observation>)
    ensures EnoughSystemEvidence(target, observations) <==> HasBoth(target, observations)
  {
    if o :| o in observations && o.action == "check_system_overview" {
      var k :| 0 <= k < |observations| && observations[k] == o;
    }
    if o :| o in observations && o.action == "check_system_alarms" {
      var k :| 0 <= k < |observations| && observations[k] == o;
    }
  }

  /** Every observation holds what its tool gave for the target; the first may be the required
      evidence, and all others are calls that the model asked for there, of known tools. */
  ghost predicate Genuine(w: World, target: string, observations: seq<Observation>, k: int) {
    && 0 <= k < |observations|
    && var o := observations[k];
       || (k == 0 && IsRequiredEvidence(w, target, o) && (w.choose([]).FinalAnswer? || w.choose([]).NoAction?))
       || (o.iteration == k + 1 && w.choose(observations[..k]) == Act(o.thought, o.action) && o.action in w.tools
           && o.output == w.execute(o.action, target))
  }

  lemma GenuineOneMore(w: World, target: string, seen: seq<Observation>, thought: string, action: string)
    requires forall k :: 0 <= k < |seen| ==> Genuine(w, target, seen, k)
    requires w.choose(seen) == Act(thought, action) && action in w.tools
    ensures var more := seen + [Called(w, target, seen, thought, action)];
            forall k :: 0 <= k < |more| ==> Genuine(w, target, more, k)
  {
    var more := seen + [Called(w, target, seen, thought, action)];
    assert more[..|seen|] == seen;
    forall k | 0 <= k < |seen| ensures Genuine(w, target, more, k) {
      assert Genuine(w, target, seen, k) && more[..k] == seen[..k] && more[k] == seen[k];
    }
  }

  /** While the loop goes on, its observations are genuine, and never both overview and alarms
      of a system request: with both it would have stopped. */
  lemma {:induction false} AskedIsGenuine(w: World, target: string, n: nat)
    requires Asked(w, target, n).Some?
    ensures var seen := Asked(w, target, n).value;
            !HasBoth(target, seen) && forall k :: 0 <= k < |seen| ==> Genuine(w, target, seen, k)
  {
    if n > 0 {
      AskedIsGenuine(w, target, n - 1);
      var seen := Asked(w, target, n - 1).value;
      EnoughIsBoth(target, Asked(w, target, n).value);
      match w.choose(seen)
      case Act(thought, action) => GenuineOneMore(w, target, seen, thought, action);
      case FinalAnswer(_) =>
      case _ =>
    }
  }

  /** How an answer comes about. */
  ghost predicate AnswersAfter(w: World, target: string, limit: nat, seen: seq<Observation>, r: Outcome)
    requires r.Answered?
  {
    if |seen| == limit then r.observations == seen && r.answer == w.answer(seen)
    else match w.choose(seen)
         case FinalAnswer(text) => seen != [] && r.observations == seen && r.answer == w.clean(text)
         case NoAction(_) =>
           && r.answer == w.answer(r.observations)
           && (if seen != [] then r.observations == seen
               else |r.observations| == 1 && IsRequiredEvidence(w, target, r.observations[0]))
         case Act(thought, action) =>
           && action in w.tools && HasBoth(target, r.observations)
           && r.observations == seen + [Observation(|seen| + 1, thought, action, w.execute(action, target))]
           && r.answer == w.answer(r.observations)
         case EmptyAction => false
  }

  /** Every answer is the model's own, cleaned, after at least one observation, or generated
      from all observations: at the limit, when the model names no action, or as soon as a
      system request has both overview and alarms, and not before. */
  lemma {:induction false} AnswersExactly(w: World, target: string, limit: nat, n: nat) returns (seen: seq<Observation>)
    requires n <= limit && Asked(w, target, n).Some? && Outcomes(w, target, limit).Answered?
    ensures |seen| <= limit && Asked(w, target, |seen|) == Some(seen)
    ensures AnswersAfter(w, target, limit, seen, Outcomes(w, target, limit))
    ensures var os := Outcomes(w, target, limit).observations; forall k :: 0 <= k < |os| ==> Genuine(w, target, os, k)
    decreases limit - n
  {
    seen := Asked(w, target, n).value;
    AskedContinues(w, target, limit, n);
    AskedIsGenuine(w, target, n);
    if n < limit {
      if Asked(w, target, n + 1).Some? {
        seen := AnswersExactly(w, target, limit, n + 1);
      } else {
        match w.choose(seen)
        case Act(thought, action) =>
          EnoughIsBoth(target, seen + [Called(w, target, seen, thought, action)]);
          GenuineOneMore(w, target, seen, thought, action);
        case _ =>
      }
    }
  }

  // ----- The stream of an outcome -----

  datatype Event =
    | ThoughtEvent(iteration: nat, thought: string, action: string)
    | ObservationEvent(observation: Observation)
    | FinalEvent(answer: string)
    | ErrorEvent(action: string)
    | Raised  // not shown: the stream breaks off with an exception

  function Seen(o: Observation): seq<Event> { [ThoughtEvent(o.iteration, o.thought, o.action), ObservationEvent(o)] }

  function SeenAll(observations: seq<Observation>): seq<Event> {
    if observations == [] then []
    else SeenAll(observations[..|observations| - 1]) + Seen(observations[|observations| - 1])
  }

  function StreamOf(r: Outcome): seq<Event> {
    SeenAll(r.observations) +
    match r
    case Answered(_, answer) => [FinalEvent(answer)]
    case InvalidTool(os, thought, action) => [ThoughtEvent(|os| + 1, thought, action), ErrorEvent(action)]
    case Crashed(_) => [Raised]
  }

  lemma SeenOneMore(os: seq<Observation>, o: Observation)
    ensures SeenAll(os + [o]) == SeenAll(os) + Seen(o)
  {
    assert (os + [o])[..|os|] == os;
  }

  /** Observation k is shown as its thought, with its action, and then as a whole. */
  lemma {:induction false} StreamShows(r: Outcome, k: nat)
    requires k < |r.observations|
    ensures var events, o := StreamOf(r), r.observations[k];
            && 2 * k + 1 < |events|
            && events[2 * k] == ThoughtEvent(o.iteration, o.thought, o.action)
            && events[2 * k + 1] == ObservationEvent(o)
  {
    SeenAt(r.observations, k);
  }

  /** What a stream shows after the last observation tells the outcome. */
  lemma {:induction false} StreamEnds(r: Outcome)
    ensures var n := 2 * |r.observations|;
            && n < |StreamOf(r)|
            && StreamOf(r)[n..] ==
               match r
               case Answered(_, answer) => [FinalEvent(answer)]
               case InvalidTool(os, thought, action) => [ThoughtEvent(|os| + 1, thought, action), ErrorEvent(action)]
               case Crashed(_) => [Raised]
  {
    SeenLength(r.observations);
  }

  lemma {:induction false} SeenAt(os: seq<Observation>, k: nat)
    requires k < |os|
    ensures |SeenAll(os)| == 2 * |os| && SeenAll(os)[2 * k + 1] == ObservationEvent(os[k])
    ensures SeenAll(os)[2 * k] == ThoughtEvent(os[k].iteration, os[k].thought, os[k].action)
  {
    var n := |os| - 1;
    SeenLength(os);
    SeenLength(os[..n]);
    if k < n { SeenAt(os[..n], k); }
  }

  class ReasoningAgent {
    const maxIterations: nat
    var lastTarget: string
    var conversationHistory: seq<(string, string)>

    constructor (maxIterations: nat)
      ensures this.maxIterations == maxIterations && lastTarget == "" && conversationHistory == []
    {
      this.maxIterations, lastTarget, conversationHistory := maxIterations, "", [];
    }

    method SaveToHistory(input: string, answer: string)
      modifies this`conversationHistory
      ensures conversationHistory == old(conversationHistory) + [("user", input), ("assistant", answer)]
    {
      conversationHistory := conversationHistory + [("user", input), ("assistant", answer)];
    }

    method Run(w: World, input: string, target: string) returns (outcome: Outcome)
      modifies this
      ensures outcome == Outcomes(w, target, maxIterations)
      ensures conversationHistory == old(conversationHistory) +
              if outcome.Answered? then [("user", input), ("assistant", outcome.answer)] else []
      ensures lastTarget == if target == "SYSTEM" then old(lastTarget) else target
    {
      if target != SYSTEM_TARGET { lastTarget := target; }
      var observations := [];
      for step := 0 to maxIterations
        invariant Outcomes(w, target, maxIterations) == Continue(w, target, maxIterations, observations, step)
        invariant conversationHistory == old(conversationHistory)
        invariant lastTarget == if target == "SYSTEM" then old(lastTarget) else target
      {
        match w.choose(observations)
        case FinalAnswer(text) =>
          if observations == [] {
            observations := [RequiredEvidence(w, target)];
            continue;
          }
          outcome := Answered(observations, w.clean(text));
          SaveToHistory(input, outcome.answer);
          return;
        case NoAction(_) =>
          if observations == [] { observations := [RequiredEvidence(w, target)]; }
          outcome := Answered(observations, w.answer(observations));
          SaveToHistory(input, outcome.answer);
          return;
        case EmptyAction => return Crashed(observations);
        case Act(thought, action) =>
          if action !in w.tools { return InvalidTool(observations, thought, action); }
          observations := observations + [Observation(step + 1, thought, action, w.execute(action, target))];
          if EnoughSystemEvidence(target, observations) {
            outcome := Answered(observations, w.answer(observations));
            SaveToHistory(input, outcome.answer);
            return;
          }
      }
      outcome := Answered(observations, w.answer(observations));
      SaveToHistory(input, outcome.answer);
    }

    /** Saves the exchange and yields the final event. */
    method Conclude(input: string, answer: string, ghost seen: seq<Observation>, events: seq<Event>)
      returns (more: seq<Event>)
      requires events == SeenAll(seen)
      modifies this`conversationHistory
      ensures conversationHistory == old(conversationHistory) + [("user", input), ("assistant", answer)]
      ensures more == events + [FinalEvent(answer)] == StreamOf(Answered(seen, answer))
    {
      SaveToHistory(input, answer);
      more := events + [FinalEvent(answer)];
    }

    /** Collects the required evidence when there is none yet, and shows it. */
    method Require(w: World, target: string, seen: seq<Observation>, events: seq<Event>)
      returns (observations: seq<Observation>, more: seq<Event>)
      requires events == SeenAll(seen)
      ensures observations == if seen == [] then [RequiredEvidence(w, target)] else seen
      ensures more == SeenAll(observations)
    {
      observations, more := seen, events;
      if seen == [] {
        SeenOneMore([], RequiredEvidence(w, target));
        assert [] + [RequiredEvidence(w, target)] == [RequiredEvidence(w, target)];
        observations, more := [RequiredEvidence(w, target)], Seen(RequiredEvidence(w, target));
      }
    }

    /** One tool call, shown as a thought and an observation. */
    method CallTool(
      w: World, target: string, thought: string, action: string, seen: seq<Observation>, events: seq<Event>)
      returns (observations: seq<Observation>, more: seq<Event>)
      requires events == SeenAll(seen)
      ensures observations == seen + [Called(w, target, seen, thought, action)]
      ensures more == SeenAll(observations)
    {
      var o := Called(w, target, seen, thought, action);
      SeenOneMore(seen, o);
      observations, more := seen + [o], events + Seen(o);
    }

    /** The exchange is saved when the run answers. */
    ghost predicate Saved(history: seq<(string, string)>, input: string, outcome: Outcome)
      reads this`conversationHistory
    {
      conversationHistory == history +
        if outcome.Answered? then [("user", input), ("assistant", outcome.answer)] else []
    }

    /** One round of the stream: it ends the run, or goes on with one more observation. */
    method StreamStep(w: World, input: string, target: string, seen: seq<Observation>, shown: seq<Event>)
      returns (observations: seq<Observation>, events: seq<Event>, ended: bool)
      requires |seen| < maxIterations && shown == SeenAll(seen)
      modifies this`conversationHistory
      ensures var rest := Continue(w, target, maxIterations, seen, |seen|);
              if ended then events == StreamOf(rest) && Saved(old(conversationHistory), input, rest)
              else && |observations| == |seen| + 1 && events == SeenAll(observations)
                   && conversationHistory == old(conversationHistory)
                   && rest == Continue(w, target, maxIterations, observations, |observations|)
    {
      observations, events, ended := seen, shown, true;
      match w.choose(seen)
      case FinalAnswer(text) =>
        if seen == [] {
          observations, events := Require(w, target, seen, shown);
          ended := false;
        } else {
          events := Conclude(input, w.clean(text), seen, shown);
        }
      case NoAction(_) =>
        observations, events := Require(w, target, seen, shown);
        events := Conclude(input, w.answer(observations), observations, events);
      case EmptyAction =>
        events := events + [Raised];
      case Act(thought, action) =>
        if action !in w.tools {
          events := events + [ThoughtEvent(|seen| + 1, thought, action), ErrorEvent(action)];
          return;
        }
        observations, events := CallTool(w, target, thought, action, seen, shown);
        if EnoughSystemEvidence(target, observations) {
          events := Conclude(input, w.answer(observations), observations, events);
        } else {
          ended := false;
        }
    }

    method StreamSteps(w: World, input: string, target: string) returns (events: seq<Event>)
      modifies this`conversationHistory
      ensures events == StreamOf(Outcomes(w, target, maxIterations))
      ensures var outcome := Outcomes(w, target, maxIterations);
              conversationHistory == old(conversationHistory) +
              if outcome.Answered? then [("user", input), ("assistant", outcome.answer)] else []
    {
      var observations, ended := [], false;
      events := [];
      for step := 0 to maxIterations
        invariant |observations| == step && events == SeenAll(observations)
        invariant Outcomes(w, target, maxIterations) == Continue(w, target, maxIterations, observations, step)
        invariant conversationHistory == old(conversationHistory)
      {
        observations, events, ended := StreamStep(w, input, target, observations, events);
        if ended { return; }
      }
      events := Conclude(input, w.answer(observations), observations, events);
    }

    /** The streaming form shows exactly the outcome of the plain form, and leaves the agent
        in the same state. */
    method RunStream(w: World, input: string, target: string) returns (events: seq<Event>)
      modifies this
      ensures events == StreamOf(Outcomes(w, target, maxIterations))
      ensures var outcome := Outcomes(w, target, maxIterations);
              conversationHistory == old(conversationHistory) +
              if outcome.Answered? then [("user", input), ("assistant", outcome.answer)] else []
      ensures lastTarget == if target == "SYSTEM" then old(lastTarget) else target
    {
      if target != SYSTEM_TARGET { lastTarget := target; }
      events := StreamSteps(w, input, target);
    }
  }

  /** The stream determines the outcome: nothing the plain form returns is missing from it. */
  lemma {:induction false} StreamDeterminesOutcome(a: Outcome, b: Outcome)
    requires StreamOf(a) == StreamOf(b)
    ensures a == b
  {
    var n := |StreamOf(a)| - 1;
    SeenLength(a.observations);
    SeenLength(b.observations);
    assert StreamOf(a)[n] == StreamOf(b)[n];
    var k := if a.InvalidTool? then n - 1 else n;
    assert SeenAll(a.observations) == StreamOf(a)[..k] && SeenAll(b.observations) == StreamOf(b)[..k];
    SeenIsInjective(a.observations, b.observations);
    assert a.InvalidTool? ==> StreamOf(a)[k] == StreamOf(b)[k];
  }

  lemma {:induction false} SeenLength(os: seq<Observation>)
    ensures |SeenAll(os)| == 2 * |os|
  {
    if os != [] { SeenLength(os[..|os| - 1]); }
  }

  lemma {:induction false} SeenIsInjective(a: seq<Observation>, b: seq<Observation>)
    requires SeenAll(a) == SeenAll(b)
    ensures a == b
  {
    SeenLength(a);
    SeenLength(b);
    if a != [] {
      var n := |a| - 1;
      SeenLength(a[..n]);
      SeenLength(b[..n]);
      assert SeenAll(a[..n]) == SeenAll(a)[..2 * n] && SeenAll(b[..n]) == SeenAll(b)[..2 * n];
      SeenIsInjective(a[..n], b[..n]);
      assert SeenAll(a)[2 * n + 1] == ObservationEvent(a[n]) && SeenAll(b)[2 * n + 1] == ObservationEvent(b[n]);
      assert a == a[..n] + [a[n]] && b == b[..n] + [b[n]];
    }
  }
}
