/** One IOA v3 run: the compiled policy graph, and the streaming form that drives the same
    nodes itself. Planner, tools, rules and answer generation are oracles that may fail. */
module WorkflowGraph {
  import opened Options

  const MAX_USER_INPUT_CHARS: nat := 2000

  datatype Workflow = Workflow(tool: string, params: set<string>)

  datatype Node = Validate | Select | Authorize | Call | ApplyRules | Answer | Deny | RuntimeError

  /** What a step shows: a verdict, the workflows it concerns, and text. */
  datatype Output = Output(allowed: bool, reason: string, workflows: seq<Workflow>, text: string)

  datatype Step = Step(iteration: nat, node: Node, output: Output)

  /** The prompt is the stripped text; `selectedSource` is the request's own choice, which
      the resolution may override. */
  datatype Request = Request(
    prompt: string, selectedSource: string, resolvedSource: Option<string>, activeSource: Option<string>)

  datatype State = State(
    request: Request, workflows: seq<Workflow>, results: seq<(Workflow, string)>, answer: string, steps: seq<Step>,
    allowed: bool, reason: string, executions: nat, maxExecutions: nat, usage: Option<string>)

  /** The world: allowed parameters of company tools and of registered tools, and the oracles;
      None means an exception. */
  datatype World = World(
    companyTools: map<string, set<string>>, registry: map<string, set<string>>,
    plan: Request -> Option<seq<Workflow>>, execute: Workflow -> Option<string>,
    rules: seq<(Workflow, string)> -> Option<string>,
    generate: (Request, seq<(Workflow, string)>) -> Option<(string, Option<string>)>)

  function Initial(request: Request, maxExecutions: nat): State {
    State(request, [], [], "", [], true, "", 0, maxExecutions, None)
  }

  function AddStep(s: State, iteration: nat, node: Node, output: Output): seq<Step> {
    s.steps + [Step(iteration, node, output)]
  }

  // ----- The nodes -----

  function ValidateNode(s: State): State {
    var ok := s.request.prompt != "" && |s.request.prompt| <= MAX_USER_INPUT_CHARS;
    var reason := if ok then "request_validated" else "invalid_request";
    s.(allowed := ok, reason := reason, steps := AddStep(s, 1, Validate, Output(ok, reason, [], "")))
  }

  function SelectNode(w: World, s: State): Option<State> {
    match w.plan(s.request)
    case None => None
    case Some(plan) => Some(s.(workflows := plan, steps := AddStep(s, 2, Select, Output(true, "", plan, ""))))
  }

  function SpecOf(w: World, tool: string): Option<set<string>> {
    if tool in w.companyTools then Some(w.companyTools[tool])
    else if tool in w.registry then Some(w.registry[tool])
    else None
  }

  function SelectedSource(r: Request): string {
    match r.resolvedSource case Some(x) => x case None => r.selectedSource
  }

  /** The single-workflow decision, with the last failing check giving the reason. */
  function Decide(w: World, r: Request, wf: Workflow): (bool, string) {
    var spec := SpecOf(w, wf.tool);
    var params := match spec case Some(ps) => ps case None => {};
    if wf.tool in w.companyTools && (SelectedSource(r) != "company" || r.activeSource != Some("company_mongodb"))
    then (false, "company_db_source_required")
    else if !(wf.params <= params) then (false, "unsupported_workflow_params")
    else if spec.None? then (false, "workflow_denied")
    else (true, "workflow_authorized")
  }

  function Authorized(w: World, r: Request, plan: seq<Workflow>): seq<Workflow> {
    if plan == [] then []
    else
      Authorized(w, r, plan[..|plan| - 1]) +
      if Decide(w, r, plan[|plan| - 1]).0 then [plan[|plan| - 1]] else []
  }

  function Budgeted(plan: seq<Workflow>, budget: nat): (first: seq<Workflow>)
    ensures first <= plan && |first| == if |plan| <= budget then |plan| else budget
  {
    if |plan| <= budget then plan else plan[..budget]
  }

  function AuthorizeNode(w: World, s: State): State {
    var kept := Authorized(w, s.request, Budgeted(s.workflows, s.maxExecutions));
    var ok := s.workflows != [] && s.executions < s.maxExecutions && kept != [];
    var reason := if kept == [] then "no_authorized_workflows"
                  else if |s.workflows| > s.maxExecutions then "workflow_authorized_with_budget_truncation"
                  else if s.executions < s.maxExecutions then "workflow_authorized"
                  else "workflow_denied";
    s.(allowed := ok, reason := reason, workflows := kept,
       steps := AddStep(s, 3, Authorize, Output(ok, reason, kept, "")))
  }

  /** What running workflows in order did: all that were started, and the results, or None
      when the last one started raised. */
  datatype Execution = Execution(attempted: seq<Workflow>, results: Option<seq<(Workflow, string)>>)

  function Execute(w: World, ws: seq<Workflow>): Execution {
    if ws == [] then Execution([], Some([]))
    else
      var before, last := Execute(w, ws[..|ws| - 1]), ws[|ws| - 1];
      if before.results.None? then before
      else Execution(before.attempted + [last],
                     match w.execute(last)
                     case None => None
                     case Some(result) => Some(before.results.value + [(last, result)]))
  }

  /** What a run did: the workflows it started, and its final state, or None when a node raised. */
  datatype Run = Run(attempted: seq<Workflow>, end: Option<State>)

  function CallNode(w: World, s: State): Run {
    var e := Execute(w, s.workflows);
    Run(e.attempted,
        match e.results
        case None => None
        case Some(results) =>
          Some(s.(results := results, executions := s.executions + |results|,
                  steps := AddStep(s, 4, Call, Output(true, "", s.workflows, "")))))
  }

  function RulesNode(w: World, s: State): Option<State> {
    match w.rules(s.results)
    case None => None
    case Some(text) => Some(s.(steps := AddStep(s, 5, ApplyRules, Output(true, "", [], text))))
  }

  function AnswerNode(w: World, s: State): Option<State> {
    match w.generate(s.request, s.results)
    case None => None
    case Some((answer, usage)) =>
      Some(s.(answer := answer, usage := usage, steps := AddStep(s, 6, Answer, Output(true, "", [], answer))))
  }

  function DenialText(reason: string): string {
    "Request denied by IOA v3 workflow policy. Reason: " + (if reason == "" then "request_denied" else reason) + "."
  }

  function DenyNode(s: State): State {
    s.(answer := DenialText(s.reason), usage := None,
       steps := AddStep(s, |s.steps| + 1, Deny, Output(false, s.reason, [], "")))
  }

  // ----- The compiled graph -----

  function Invoke(w: World, start: State): Run {
    var validated := ValidateNode(start);
    if !validated.allowed then Run([], Some(DenyNode(validated)))
    else match SelectNode(w, validated)
         case None => Run([], None)
         case Some(selected) =>
           var authorized := AuthorizeNode(w, selected);
           if !authorized.allowed then Run([], Some(DenyNode(authorized))) else Complete(w, authorized)
  }

  function Complete(w: World, authorized: State): Run {
    var called := CallNode(w, authorized);
    Run(called.attempted,
        match called.end
        case None => None
        case Some(evidence) =>
          match RulesNode(w, evidence)
          case None => None
          case Some(ruled) => AnswerNode(w, ruled))
  }

  // ----- The streaming form -----

  datatype Event = Thought(step: Step) | Observation(step: Step) | Final(answer: string, usage: Option<string>)

  function StepEvents(steps: seq<Step>): seq<Event> {
    if steps == [] then []
    else StepEvents(steps[..|steps| - 1]) + [Thought(steps[|steps| - 1]), Observation(steps[|steps| - 1])]
  }

  /** The steps of a finished run that a stream shows: all but a closing denial. */
  function Shown(steps: seq<Step>): seq<Step> {
    if steps != [] && steps[|steps| - 1].node == Deny then steps[..|steps| - 1] else steps
  }

  const PIPELINE: seq<Node> := [Validate, Select, Authorize, Call, ApplyRules]

  function RunNode(w: World, node: Node, s: State): Run {
    match node
    case Validate => Run([], Some(ValidateNode(s)))
    case Select => Run([], SelectNode(w, s))
    case Authorize => Run([], Some(AuthorizeNode(w, s)))
    case Call => CallNode(w, s)
    case ApplyRules => Run([], RulesNode(w, s))
    case _ => Run([], AnswerNode(w, s))
  }

  const WORKFLOW_FAILED := "IOA v3 could not complete the operational workflow."
  const ANSWER_FAILED := "IOA v3 collected workflow evidence, but final answer generation failed."

  ghost predicate Numbered(steps: seq<Step>) {
    forall k :: 0 <= k < |steps| ==> steps[k].iteration == k + 1
  }

  /** The stream shows `steps`, then one final event, which is its last. */
  ghost predicate Streams(events: seq<Event>, steps: seq<Step>, last: Event) {
    events == StepEvents(steps) + [last] && last.Final?
  }

  function ErrorStep(s: State): Step {
    Step(|s.steps| + 1, RuntimeError, Output(false, "", [], "runtime_error"))
  }

  // ----- Authorisation -----

  /** The resolved source, or without a resolution the request's own choice, is the company's,
      and the active one is its database. */
  ghost predicate OnCompanyDatabase(r: Request) {
    && r.activeSource == Some("company_mongodb")
    && match r.resolvedSource case Some(x) => x == "company" case None => r.selectedSource == "company"
  }

  /** Registered, with allowed parameters, and on the company source if it is a company tool. */
  ghost predicate Permitted(w: World, r: Request, wf: Workflow) {
    && (wf.tool in w.companyTools || wf.tool in w.registry)
    && wf.params <= (if wf.tool in w.companyTools then w.companyTools[wf.tool] else w.registry[wf.tool])
    && (wf.tool in w.companyTools ==> OnCompanyDatabase(r))
  }

  lemma {:induction false} AuthorizedArePermitted(w: World, r: Request, plan: seq<Workflow>)
    ensures forall wf :: wf in Authorized(w, r, plan) <==> wf in plan && Permitted(w, r, wf)
    ensures |Authorized(w, r, plan)| <= |plan|
  {
    if plan != [] { AuthorizedArePermitted(w, r, plan[..|plan| - 1]); }
  }

  /** The workflows started are the list up to the first that raises; results are those of
      all of them, in order, and there are none exactly when the last one raised. */
  lemma {:induction false} ExecuteStopsAtFailure(w: World, ws: seq<Workflow>)
    ensures var e := Execute(w, ws);
            && e.attempted <= ws
            && (forall k :: 0 <= k < |e.attempted| - 1 ==> w.execute(e.attempted[k]).Some?)
            && match e.results
               case None => e.attempted != [] && w.execute(e.attempted[|e.attempted| - 1]).None?
               case Some(rs) => e.attempted == ws && RanAll(w, ws, rs)
  {
    if ws != [] {
      var front, last := ws[..|ws| - 1], ws[|ws| - 1];
      ExecuteStopsAtFailure(w, front);
      assert ws == front + [last];
      var before := Execute(w, front);
      if before.results.Some? && w.execute(last).Some? {
        RanOneMore(w, front, before.results.value, last, w.execute(last).value);
      }
    }
  }

  lemma RanOneMore(
    w: World, ws: seq<Workflow>, results: seq<(Workflow, string)>, last: Workflow, result: string)
    requires RanAll(w, ws, results) && w.execute(last) == Some(result)
    ensures RanAll(w, ws + [last], results + [(last, result)])
  {}

  ghost predicate RanAll(w: World, ws: seq<Workflow>, results: seq<(Workflow, string)>) {
    |results| == |ws| && forall k :: 0 <= k < |ws| ==> results[k].0 == ws[k] && w.execute(ws[k]) == Some(results[k].1)
  }

  ghost predicate AllPermitted(w: World, r: Request, ws: seq<Workflow>) {
    forall k :: 0 <= k < |ws| ==> Permitted(w, r, ws[k])
  }

  /** The authorised plan of a request: what its workflows are allowed to be. */
  function Cleared(w: World, request: Request, maxExecutions: nat): seq<Workflow> {
    match w.plan(request)
    case None => []
    case Some(plan) => Authorized(w, request, Budgeted(plan, maxExecutions))
  }

  /** In every run, finished, denied or broken off by any exception, the workflows started
      are an initial part of the authorised plan: at most maxExecutions, each permitted. In
      particular no company tool ever runs off the company database. */
  lemma {:induction false} OnlyPermittedWorkflowsRun(w: World, request: Request, maxExecutions: nat)
    ensures var run := Invoke(w, Initial(request, maxExecutions));
            && run.attempted <= Cleared(w, request, maxExecutions)
            && |run.attempted| <= maxExecutions && AllPermitted(w, request, run.attempted)
  {
    var validated := ValidateNode(Initial(request, maxExecutions));
    if validated.allowed && SelectNode(w, validated).Some? {
      ExecuteStopsAtFailure(w, AuthorizeNode(w, SelectNode(w, validated).value).workflows);
    }
    ClearedIsPermitted(w, request, maxExecutions);
  }

  lemma ClearedIsPermitted(w: World, request: Request, maxExecutions: nat)
    ensures var cleared := Cleared(w, request, maxExecutions);
            |cleared| <= maxExecutions && AllPermitted(w, request, cleared)
  {
    if w.plan(request).Some? {
      AuthorizedArePermitted(w, request, Budgeted(w.plan(request).value, maxExecutions));
      var cleared := Cleared(w, request, maxExecutions);
      assert forall k :: 0 <= k < |cleared| ==> cleared[k] in cleared;
    }
  }

  /** A finished run holds the result of every workflow it started, and counts them. */
  lemma {:induction false} FinishedRunKeepsResults(w: World, request: Request, maxExecutions: nat)
    ensures var run := Invoke(w, Initial(request, maxExecutions));
            run.end.Some? ==> RanAll(w, run.attempted, run.end.value.results)
                              && run.end.value.executions == |run.attempted|
  {
    var validated := ValidateNode(Initial(request, maxExecutions));
    if validated.allowed && SelectNode(w, validated).Some? {
      ExecuteKeepsResults(w, AuthorizeNode(w, SelectNode(w, validated).value).workflows);
    }
  }

  lemma ExecuteKeepsResults(w: World, ws: seq<Workflow>)
    ensures var e := Execute(w, ws); e.results.Some? ==> RanAll(w, e.attempted, e.results.value)
  {
    ExecuteStopsAtFailure(w, ws);
  }

  /** A run is denied exactly for an invalid request, or when no planned workflow within the
      budget is permitted. */
  lemma {:induction false} DeniedIff(w: World, request: Request, maxExecutions: nat)
    requires maxExecutions > 0 && Invoke(w, Initial(request, maxExecutions)).end.Some?
    ensures var steps := Invoke(w, Initial(request, maxExecutions)).end.value.steps;
            var valid := request.prompt != "" && |request.prompt| <= MAX_USER_INPUT_CHARS;
            steps[|steps| - 1].node == Deny <==>
              !valid || forall wf :: wf in Budgeted(w.plan(request).value, maxExecutions) ==> !Permitted(w, request, wf)
  {
    var validated := ValidateNode(Initial(request, maxExecutions));
    if validated.allowed {
      var plan := Budgeted(w.plan(request).value, maxExecutions);
      AuthorizedArePermitted(w, request, plan);
      var kept := Authorized(w, request, plan);
      if kept != [] { assert kept[0] in plan && Permitted(w, request, kept[0]); }
    }
  }

  /** `kept` lists the permitted workflows of the plan, all of them, in the plan's order. */
  ghost predicate ClearsAt(w: World, r: Request, plan: seq<Workflow>, at: seq<nat>, kept: seq<Workflow>) {
    && |at| == |kept|
    && (forall k :: 0 <= k < |at| ==> at[k] < |plan| && kept[k] == plan[at[k]] && Permitted(w, r, kept[k]))
    && (forall k, l :: 0 <= k < l < |at| ==> at[k] < at[l])
    && forall i :: 0 <= i < |plan| && Permitted(w, r, plan[i]) ==> i in at
  }

  lemma {:induction false} AuthorizedInOrder(w: World, r: Request, plan: seq<Workflow>) returns (at: seq<nat>)
    ensures ClearsAt(w, r, plan, at, Authorized(w, r, plan))
  {
    at := [];
    if plan != [] {
      var n := |plan| - 1;
      var front := AuthorizedInOrder(w, r, plan[..n]);
      at := front + if Decide(w, r, plan[n]).0 then [n] else [];
      DecidedIffPermitted(w, r, plan[n]);
      forall i | 0 <= i < |plan| && Permitted(w, r, plan[i]) ensures i in at {
        if i < n { assert plan[..n][i] == plan[i] && i in front; } else { assert at[|front|] == n; }
      }
    }
  }

  /** The decision on one workflow, and the reason it carries: the last failing check's. */
  lemma {:induction false} DecidedIffPermitted(w: World, r: Request, wf: Workflow)
    ensures Decide(w, r, wf).0 <==> Permitted(w, r, wf)
    ensures Decide(w, r, wf).1 == "company_db_source_required" <==>
            wf.tool in w.companyTools && !OnCompanyDatabase(r)
    ensures Decide(w, r, wf).1 == "workflow_authorized" <==> Permitted(w, r, wf)
    ensures Decide(w, r, wf).1 == "workflow_denied" <==>
            wf.tool !in w.companyTools && wf.tool !in w.registry && wf.params == {}
  {}

  // ----- What a run answers, and from what -----

  predicate ValidRequest(request: Request) { request.prompt != "" && |request.prompt| <= 2000 }

  /** A denied run shows the checks up to the one that failed, and answers with its reason. */
  ghost predicate DeniedWith(w: World, request: Request, reason: string, shown: seq<Step>, answer: string) {
    && answer == "Request denied by IOA v3 workflow policy. Reason: " + reason + "."
    && if reason == "invalid_request" then shown == [Step(1, Validate, Output(false, reason, [], ""))]
       else && w.plan(request).Some?
            && shown == [Step(1, Validate, Output(true, "request_validated", [], "")),
                         Step(2, Select, Output(true, "", w.plan(request).value, "")),
                         Step(3, Authorize, Output(false, reason, [], ""))]
  }

  /** An answered run ran the workflows, applied the rules to all their results, and generated
      its answer from exactly those results; its steps show this. */
  ghost predicate AnsweredFrom(
    w: World, request: Request, maxExecutions: nat, ran: seq<Workflow>, results: seq<(Workflow, string)>,
    shown: seq<Step>, answer: string, usage: Option<string>)
  {
    && RanAll(w, ran, results) && w.plan(request).Some? && w.rules(results).Some?
    && w.generate(request, results) == Some((answer, usage))
    && var plan := w.plan(request).value;
       var reason := if |plan| > maxExecutions then "workflow_authorized_with_budget_truncation"
                     else "workflow_authorized";
       shown == [Step(1, Validate, Output(true, "request_validated", [], "")),
                 Step(2, Select, Output(true, "", plan, "")),
                 Step(3, Authorize, Output(true, reason, ran, "")),
                 Step(4, Call, Output(true, "", ran, "")),
                 Step(5, ApplyRules, Output(true, "", [], w.rules(results).value)),
                 Step(6, Answer, Output(true, "", [], answer))]
  }

  /** What a finished run shows and answers: an invalid request is denied as such, a plan with
      nothing permitted within the budget likewise, and any other one is answered from the
      results of all its permitted workflows. */
  ghost predicate RunAccounted(
    w: World, request: Request, maxExecutions: nat, ran: seq<Workflow>,
    shown: seq<Step>, answer: string, usage: Option<string>)
  {
    if !ValidRequest(request) then
      ran == [] && usage == None && DeniedWith(w, request, "invalid_request", shown, answer)
    else if Cleared(w, request, maxExecutions) == [] then
      ran == [] && usage == None && DeniedWith(w, request, "no_authorized_workflows", shown, answer)
    else
      && ran == Cleared(w, request, maxExecutions)
      && exists results :: AnsweredFrom(w, request, maxExecutions, ran, results, shown, answer, usage)
  }

  lemma {:induction false} FinishedRunIsAccounted(w: World, request: Request, maxExecutions: nat)
    ensures var run := Invoke(w, Initial(request, maxExecutions));
            run.end.Some? ==>
              && var end := run.end.value;
                 RunAccounted(w, request, maxExecutions, run.attempted, Shown(end.steps), end.answer, end.usage)
  {
    if ValidRequest(request) && w.plan(request).Some? {
      SelectedSteps(w, request, maxExecutions);
      ClearedState(w, request, maxExecutions);
      if Cleared(w, request, maxExecutions) == [] {
        DeniedRunIsAccounted(w, request, maxExecutions);
      } else {
        AnsweredRunIsAccounted(w, request, maxExecutions);
      }
    }
  }

  /** The state that authorisation gets. */
  function SelectedState(w: World, request: Request, maxExecutions: nat): State
    requires w.plan(request).Some?
  {
    var s := ValidateNode(Initial(request, maxExecutions));
    s.(workflows := w.plan(request).value, steps := AddStep(s, 2, Select, Output(true, "", w.plan(request).value, "")))
  }

  lemma SelectedSteps(w: World, request: Request, maxExecutions: nat)
    requires ValidRequest(request) && w.plan(request).Some?
    ensures var s := SelectedState(w, request, maxExecutions);
            && s.steps == [Step(1, Validate, Output(true, "request_validated", [], "")),
                           Step(2, Select, Output(true, "", w.plan(request).value, ""))]
            && ValidateNode(Initial(request, maxExecutions)).allowed
            && SelectNode(w, ValidateNode(Initial(request, maxExecutions))) == Some(s)
  {}

  lemma ClearedState(w: World, request: Request, maxExecutions: nat)
    requires w.plan(request).Some?
    ensures var selected, cleared := SelectedState(w, request, maxExecutions), Cleared(w, request, maxExecutions);
            var s := AuthorizeNode(w, selected);
            && s.workflows == cleared && s.allowed == (cleared != [])
            && s.reason == (if cleared == [] then "no_authorized_workflows"
                            else if |w.plan(request).value| > maxExecutions
                            then "workflow_authorized_with_budget_truncation" else "workflow_authorized")
            && s.steps == selected.steps + [Step(3, Authorize, Output(s.allowed, s.reason, cleared, ""))]
  {
    AuthorizedArePermitted(w, request, Budgeted(w.plan(request).value, maxExecutions));
  }

  lemma DeniedRunIsAccounted(w: World, request: Request, maxExecutions: nat)
    requires ValidRequest(request) && w.plan(request).Some? && Cleared(w, request, maxExecutions) == []
    ensures var run := Invoke(w, Initial(request, maxExecutions));
            run.end.Some? && RunAccounted(w, request, maxExecutions, run.attempted,
                                          Shown(run.end.value.steps), run.end.value.answer, run.end.value.usage)
  {
    SelectedSteps(w, request, maxExecutions);
    ClearedState(w, request, maxExecutions);
    DenialIsLast(AuthorizeNode(w, SelectedState(w, request, maxExecutions)));
  }

  lemma DenialIsLast(s: State)
    ensures Shown(DenyNode(s).steps) == s.steps
  {}

  lemma CompletedFrom(w: World, s: State)
    ensures var run := Complete(w, s);
            run.end.Some? ==>
              && var end := run.end.value;
                 run.attempted == s.workflows && RanAll(w, s.workflows, end.results)
                 && w.rules(end.results).Some? && w.generate(s.request, end.results) == Some((end.answer, end.usage))
                 && end.steps == s.steps + [Step(4, Call, Output(true, "", s.workflows, "")),
                                            Step(5, ApplyRules, Output(true, "", [], w.rules(end.results).value)),
                                            Step(6, Answer, Output(true, "", [], end.answer))]
  {
    ExecuteStopsAtFailure(w, s.workflows);
  }

  lemma AnsweredRunIsAccounted(w: World, request: Request, maxExecutions: nat)
    requires ValidRequest(request) && w.plan(request).Some? && Cleared(w, request, maxExecutions) != []
    ensures var run := Invoke(w, Initial(request, maxExecutions));
            run.end.Some? ==>
              && var end := run.end.value;
                 run.attempted == Cleared(w, request, maxExecutions)
                 && AnsweredFrom(w, request, maxExecutions, run.attempted, end.results,
                                 Shown(end.steps), end.answer, end.usage)
  {
    SelectedSteps(w, request, maxExecutions);
    ClearedState(w, request, maxExecutions);
    var s := AuthorizeNode(w, SelectedState(w, request, maxExecutions));
    CompletedFrom(w, s);
    AllowedCompletes(w, request, maxExecutions);
  }

  lemma AllowedCompletes(w: World, request: Request, maxExecutions: nat)
    requires ValidRequest(request) && w.plan(request).Some?
    ensures var s := AuthorizeNode(w, SelectedState(w, request, maxExecutions));
            s.request == request && (s.allowed ==> Invoke(w, Initial(request, maxExecutions)) == Complete(w, s))
  {
    SelectedSteps(w, request, maxExecutions);
  }

  // ----- Graph and stream agree -----

  /** The policy nodes are the ones whose verdict is acted on. */
  predicate Denies(node: Node, t: State) { (node == Validate || node == Authorize) && !t.allowed }

  /** What is left of the graph when node k is next. */
  function Continue(w: World, k: nat, s: State): Run
    requires k <= |PIPELINE|
    decreases |PIPELINE| - k
  {
    if k == |PIPELINE| then Run([], AnswerNode(w, s))
    else
      var run := RunNode(w, PIPELINE[k], s);
      match run.end
      case None => run
      case Some(t) =>
        if Denies(PIPELINE[k], t) then Run(run.attempted, Some(DenyNode(t)))
        else After(run.attempted, Continue(w, k + 1, t))
  }

  function After(attempted: seq<Workflow>, rest: Run): Run { Run(attempted + rest.attempted, rest.end) }

  lemma CompletionIsContinue(w: World, s: State)
    ensures Complete(w, s) == Continue(w, 3, s)
  {
    var called := CallNode(w, s);
    if called.end.Some? {
      var evidence := called.end.value;
      assert Continue(w, 4, evidence).attempted == [];
      assert called.attempted + [] == called.attempted;
    }
  }

  lemma ContinueFromSelected(w: World, selected: State)
    ensures var authorized := AuthorizeNode(w, selected);
            Continue(w, 2, selected) ==
            if authorized.allowed then Complete(w, authorized) else Run([], Some(DenyNode(authorized)))
  {
    CompletionIsContinue(w, AuthorizeNode(w, selected));
  }

  lemma {:induction false} GraphIsContinue(w: World, start: State)
    ensures Invoke(w, start) == Continue(w, 0, start)
  {
    var validated := ValidateNode(start);
    if validated.allowed && SelectNode(w, validated).Some? {
      var selected := SelectNode(w, validated).value;
      ContinueFromSelected(w, selected);
      assert Continue(w, 1, validated) == After([], Continue(w, 2, selected));
      assert Continue(w, 0, start) == After([], Continue(w, 1, validated));
    }
  }

  ghost predicate NodesOfPipeline(steps: seq<Step>) {
    |steps| <= |PIPELINE| && Numbered(steps) && forall i :: 0 <= i < |steps| ==> steps[i].node == PIPELINE[i]
  }

  lemma StepContinuesPipeline(steps: seq<Step>, step: Step)
    requires |steps| < |PIPELINE| && NodesOfPipeline(steps)
    requires step.node == PIPELINE[|steps|] && step.iteration == |steps| + 1
    ensures NodesOfPipeline(steps + [step])
  {}

  /** Every node adds one step, numbered next, and only the policy nodes change the verdict. */
  lemma NodeAddsStep(w: World, k: nat, s: State)
    requires k < |PIPELINE| && |s.steps| == k && RunNode(w, PIPELINE[k], s).end.Some?
    ensures var t := RunNode(w, PIPELINE[k], s).end.value;
            && |t.steps| == k + 1 && t.steps == s.steps + [t.steps[k]]
            && t.steps[k].iteration == k + 1 && t.steps[k].node == PIPELINE[k]
            && (PIPELINE[k] != Validate && PIPELINE[k] != Authorize ==> t.allowed == s.allowed)
  {}

  lemma NumberedNext(steps: seq<Step>, step: Step)
    requires Numbered(steps) && step.iteration == |steps| + 1
    ensures Numbered(steps + [step])
  {}

  lemma GraphFollowsNode(w: World, k: nat, s: State)
    requires k < |PIPELINE| && |s.steps| == k && s.allowed
    ensures var run := RunNode(w, PIPELINE[k], s);
            Continue(w, k, s) ==
            match run.end
            case None => run
            case Some(t) =>
              if t.allowed then After(run.attempted, Continue(w, k + 1, t)) else Run(run.attempted, Some(DenyNode(t)))
  {
    if RunNode(w, PIPELINE[k], s).end.Some? { NodeAddsStep(w, k, s); }
  }

  /** In every finished run the step iterations are exactly 1..n. */
  lemma {:induction false} RunIsNumbered(w: World, k: nat, s: State)
    requires k <= |PIPELINE| && |s.steps| == k && Numbered(s.steps) && Continue(w, k, s).end.Some?
    ensures Numbered(Continue(w, k, s).end.value.steps)
    decreases |PIPELINE| - k
  {
    if k < |PIPELINE| {
      ContinueEnds(w, k, s);
      NodeAddsStep(w, k, s);
      var t := RunNode(w, PIPELINE[k], s).end.value;
      NumberedNext(s.steps, t.steps[k]);
      if Denies(PIPELINE[k], t) { DenialIsNumberedNext(t); } else { RunIsNumbered(w, k + 1, t); }
    } else {
      NumberedNext(s.steps, AnswerNode(w, s).value.steps[k]);
    }
  }

  lemma ContinueEnds(w: World, k: nat, s: State)
    requires k < |PIPELINE| && Continue(w, k, s).end.Some?
    ensures var run := RunNode(w, PIPELINE[k], s);
            && run.end.Some?
            && Continue(w, k, s).end ==
               if Denies(PIPELINE[k], run.end.value) then Some(DenyNode(run.end.value))
               else Continue(w, k + 1, run.end.value).end
  {}

  lemma DenialIsNumberedNext(s: State)
    requires Numbered(s.steps)
    ensures Numbered(DenyNode(s).steps)
  {
    NumberedNext(s.steps, DenyNode(s).steps[|s.steps|]);
  }

  lemma StepEventsOneMore(steps: seq<Step>, step: Step)
    ensures StepEvents(steps + [step]) == StepEvents(steps) + [Thought(step), Observation(step)]
  {
    assert (steps + [step])[..|steps|] == steps;
  }

  lemma NodeShowsStep(w: World, k: nat, s: State)
    requires k < |PIPELINE| && |s.steps| == k && NodesOfPipeline(s.steps) && RunNode(w, PIPELINE[k], s).end.Some?
    ensures var t := RunNode(w, PIPELINE[k], s).end.value;
            && |t.steps| == k + 1 && NodesOfPipeline(t.steps)
            && StepEvents(t.steps) == StepEvents(s.steps) + [Thought(t.steps[k]), Observation(t.steps[k])]
  {
    NodeAddsStep(w, k, s);
    var t := RunNode(w, PIPELINE[k], s).end.value;
    StepContinuesPipeline(s.steps, t.steps[k]);
    StepEventsOneMore(s.steps, t.steps[k]);
  }

  /** The node loop of the stream: it stops at a failure or at a denial, and starts the
      workflows that the graph starts. */
  method StreamNodes(w: World, start: State)
    returns (events: seq<Event>, s: State, failed: bool, attempted: seq<Workflow>)
    requires start.steps == [] && start.allowed
    ensures NodesOfPipeline(s.steps) && events == StepEvents(s.steps)
    ensures attempted == Invoke(w, start).attempted
    ensures failed ==> Invoke(w, start).end == None && |s.steps| < |PIPELINE|
    ensures !failed && !s.allowed ==> Invoke(w, start).end == Some(DenyNode(s))
    ensures !failed && s.allowed ==> Invoke(w, start).end == AnswerNode(w, s) && |s.steps| == |PIPELINE|
  {
    s, events, failed, attempted := start, [], false, [];
    GraphIsContinue(w, s);
    assert After([], Continue(w, 0, s)) == Continue(w, 0, s);
    for k := 0 to |PIPELINE|
      invariant |s.steps| == k && NodesOfPipeline(s.steps) && s.allowed && events == StepEvents(s.steps)
      invariant Invoke(w, start) == After(attempted, Continue(w, k, s))
    {
      StreamFollowsNode(w, attempted, k, s);
      var run := RunNode(w, PIPELINE[k], s);
      attempted := attempted + run.attempted;
      if run.end == None { return events, s, true, attempted; }
      var next := run.end.value;
      NodeShowsStep(w, k, s);
      var step := next.steps[k];
      events := events + [Thought(step), Observation(step)];
      s := next;
      if !s.allowed { return; }
    }
  }

  lemma StreamFollowsNode(w: World, attempted: seq<Workflow>, k: nat, s: State)
    requires k < |PIPELINE| && |s.steps| == k && s.allowed
    ensures var run := RunNode(w, PIPELINE[k], s);
            var more := attempted + run.attempted;
            After(attempted, Continue(w, k, s)) ==
            match run.end
            case None => Run(more, None)
            case Some(t) => if t.allowed then After(more, Continue(w, k + 1, t)) else Run(more, Some(DenyNode(t)))
  {
    var run := RunNode(w, PIPELINE[k], s);
    GraphFollowsNode(w, k, s);
    if run.end.Some? { AfterAgain(attempted, run.attempted, Continue(w, k + 1, run.end.value)); }
  }

  lemma AfterAgain(a: seq<Workflow>, b: seq<Workflow>, rest: Run)
    ensures After(a, After(b, rest)) == After(a + b, rest)
  {
    assert a + (b + rest.attempted) == a + b + rest.attempted;
  }

  lemma AnswerIsNumberedNext(w: World, s: State)
    requires NodesOfPipeline(s.steps) && |s.steps| == |PIPELINE| && AnswerNode(w, s).Some?
    ensures var t := AnswerNode(w, s).value;
            && Numbered(t.steps) && Shown(t.steps) == t.steps && t.steps == s.steps + [t.steps[|PIPELINE|]]
            && var step := t.steps[|PIPELINE|];
               StepEvents(t.steps) == StepEvents(s.steps) + [Thought(step), Observation(step)]
  {
    StepEventsOneMore(s.steps, AnswerNode(w, s).value.steps[|PIPELINE|]);
  }

  lemma ErrorIsNumberedNext(s: State)
    requires NodesOfPipeline(s.steps)
    ensures Numbered(s.steps + [ErrorStep(s)])
    ensures var step := ErrorStep(s);
            StepEvents(s.steps + [step]) == StepEvents(s.steps) + [Thought(step), Observation(step)]
  {
    StepEventsOneMore(s.steps, ErrorStep(s));
  }

  /** The end of the stream: an error step, a denial, which is not shown, or the answer. */
  method FinishStream(w: World, nodes: seq<Event>, s: State, failed: bool)
    returns (events: seq<Event>, shown: seq<Step>, last: Event)
    requires NodesOfPipeline(s.steps) && nodes == StepEvents(s.steps)
    requires failed ==> |s.steps| < |PIPELINE|
    requires !failed && s.allowed ==> |s.steps| == |PIPELINE|
    ensures Streams(events, shown, last) && Numbered(shown)
    ensures failed || (s.allowed && AnswerNode(w, s) == None) ==>
              && shown == s.steps + [ErrorStep(s)]
              && last == Final(if |shown| == 6 then ANSWER_FAILED else WORKFLOW_FAILED, None)
    ensures !failed && !s.allowed ==>
              shown == s.steps == Shown(DenyNode(s).steps) && last == Final(DenyNode(s).answer, None)
    ensures !failed && s.allowed && AnswerNode(w, s).Some? ==>
              && var t := AnswerNode(w, s).value;
                 shown == t.steps == Shown(t.steps) && last == Final(t.answer, t.usage)
  {
    events := nodes;
    if failed || (s.allowed && AnswerNode(w, s) == None) {
      ErrorIsNumberedNext(s);
      shown, last := s.steps + [ErrorStep(s)], Final(if failed then WORKFLOW_FAILED else ANSWER_FAILED, None);
      events := events + [Thought(ErrorStep(s)), Observation(ErrorStep(s))];
    } else if !s.allowed {
      DenialIsLast(s);
      shown, last := s.steps, Final(DenyNode(s).answer, None);
    } else {
      var t := AnswerNode(w, s).value;
      AnswerIsNumberedNext(w, s);
      var step := t.steps[|PIPELINE|];
      shown, last := t.steps, Final(t.answer, t.usage);
      events := events + [Thought(step), Observation(step)];
    }
    events := events + [last];
  }

  /** The streaming form: exactly one final event, at the end, also when an oracle fails; and
      without a failure the same steps and final answer as the compiled graph. */
  method RunStream(w: World, request: Request, maxExecutions: nat)
    returns (events: seq<Event>, shown: seq<Step>, last: Event, attempted: seq<Workflow>)
    ensures Streams(events, shown, last) && Numbered(shown)
    ensures attempted == Invoke(w, Initial(request, maxExecutions)).attempted
    ensures |attempted| <= maxExecutions && AllPermitted(w, request, attempted)
    ensures match Invoke(w, Initial(request, maxExecutions)).end
            case Some(end) =>
              && shown == Shown(end.steps) && last == Final(end.answer, end.usage)
              && RunAccounted(w, request, maxExecutions, attempted, shown, last.answer, last.usage)
            case None => BrokenOff(shown, last)
  {
    OnlyPermittedWorkflowsRun(w, request, maxExecutions);
    FinishedRunIsAccounted(w, request, maxExecutions);
    var nodes, s, failed;
    nodes, s, failed, attempted := StreamNodes(w, Initial(request, maxExecutions));
    events, shown, last := FinishStream(w, nodes, s, failed);
    assert BrokenOff(shown, last) <== failed || (s.allowed && AnswerNode(w, s) == None) by {
      assert (s.steps + [ErrorStep(s)])[..|s.steps|] == s.steps;
    }
  }

  /** A stream that an exception broke off: the steps done, then an error step, and a final
      event that tells a failed answer from a failed workflow. */
  ghost predicate BrokenOff(shown: seq<Step>, last: Event) {
    && shown != [] && shown[|shown| - 1].node == RuntimeError && NodesOfPipeline(shown[..|shown| - 1])
    && last == Final(if |shown| == 6 then ANSWER_FAILED else WORKFLOW_FAILED, None)
  }

  /** A stream has no final event but its last. */
  lemma {:induction false} OneFinalEvent(events: seq<Event>, steps: seq<Step>, last: Event)
    requires Streams(events, steps, last)
    ensures forall k :: 0 <= k < |events| ==> (events[k].Final? <==> k == |events| - 1)
  {
    NoFinalInSteps(steps);
  }

  /** Each step is shown as its thought and then its observation, in order. */
  lemma {:induction false} StepIsShownTwice(steps: seq<Step>, k: nat)
    requires k < |steps|
    ensures var events := StepEvents(steps);
            |events| == 2 * |steps| && events[2 * k] == Thought(steps[k]) && events[2 * k + 1] == Observation(steps[k])
  {
    var n := |steps| - 1;
    if k < n {
      StepIsShownTwice(steps[..n], k);
    } else if n > 0 {
      StepIsShownTwice(steps[..n], n - 1);
    }
  }

  lemma {:induction false} NoFinalInSteps(steps: seq<Step>)
    ensures forall k :: 0 <= k < |StepEvents(steps)| ==> !StepEvents(steps)[k].Final?
  {
    if steps != [] { NoFinalInSteps(steps[..|steps| - 1]); }
  }
}
