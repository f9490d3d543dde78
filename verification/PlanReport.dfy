/** Exactly which plan the rewrites make of a proposed one: which workflows survive, in which
    order, when log queries are added and for which services, and what the infrastructure
    terms keep. Nothing here mentions the rewrites themselves. */
module PlanReport {
  import opened WorkflowPlanner

  const ONEM2M_TOOLS: set<Tool> :=
    {DeviceResources, CommandFlow, TelemetryFlow, ResourceCollection, OnlineStatus, CinRecords}
  const METRIC_TOOLS: set<Tool> := {QueueBacklog, QueueTrend, EmqxDroppedTrend, EmqxConnectionTrend, K8sResources}
  const FLOW_TOOLS: set<Tool> := {CommandFlow, TelemetryFlow}
  const HEALTH_TOOLS: seq<Tool> := [K8sHealth, LinuxHealth, RedisHealth, MongoHealth, MysqlHealth]

  // ----- Filtering and capping -----

  /** `xs` lists, in order, the workflows whose tool is among `tools`, or is not. */
  ghost predicate FiltersAt(ws: seq<Workflow>, tools: set<Tool>, among: bool, at: seq<nat>, xs: seq<Workflow>) {
    && |at| == |xs|
    && (forall k :: 0 <= k < |at| ==> at[k] < |ws| && xs[k] == ws[at[k]] && (xs[k].tool in tools) == among)
    && (forall k, l :: 0 <= k < l < |at| ==> at[k] < at[l])
    && forall i :: 0 <= i < |ws| && (ws[i].tool in tools) == among ==> i in at
  }

  ghost predicate Filters(ws: seq<Workflow>, tools: set<Tool>, among: bool, xs: seq<Workflow>) {
    exists at: seq<nat> :: FiltersAt(ws, tools, among, at, xs)
  }

  ghost predicate Only(ws: seq<Workflow>, tools: set<Tool>, xs: seq<Workflow>) {
    Filters(ws, tools, true, xs)
  }

  ghost predicate Without(ws: seq<Workflow>, tools: set<Tool>, xs: seq<Workflow>) {
    Filters(ws, tools, false, xs)
  }

  /** The first five. */
  ghost predicate Capped(xs: seq<Workflow>, ys: seq<Workflow>) {
    ys <= xs && |ys| == if |xs| < 5 then |xs| else 5
  }

  ghost predicate HasAny(ws: seq<Workflow>, tools: set<Tool>) { exists k :: 0 <= k < |ws| && ws[k].tool in tools }

  // ----- What is planned -----

  /** One log query for each adapter service that the text names, and for the HTTP one when it
      names none. */
  ghost predicate AdapterQueries(p: Prompt, logs: seq<Workflow>) {
    logs == (if p.httpApi || (!p.mqtt && !p.notify) then [Workflow(GrafanaLogs, "iot-http-api")] else []) +
            (if p.mqtt then [Workflow(GrafanaLogs, "iot-mqtt-client-adapter")] else []) +
            (if p.notify then [Workflow(GrafanaLogs, "notify")] else [])
  }

  /** The adapter queries replace the log queries, as far as there is room. */
  ghost predicate AdapterQueriesAdded(p: Prompt, ws: seq<Workflow>, out: seq<Workflow>) {
    exists front, logs :: Without(ws, {GrafanaLogs}, front) && AdapterQueries(p, logs) && Capped(front + logs, out)
  }

  /** OneM2M work keeps only itself and log queries; a flow investigation whose text speaks of
      logs gets the adapter queries. */
  ghost predicate Focused(p: Prompt, ws: seq<Workflow>, out: seq<Workflow>) {
    if !HasAny(ws, ONEM2M_TOOLS) then out == ws
    else exists kept :: && Only(ws, ONEM2M_TOOLS + {GrafanaLogs}, kept)
                        && if HasAny(ws, FLOW_TOOLS) && p.logTerms then AdapterQueriesAdded(p, kept, out)
                           else out == kept
  }

  /** The classified workflow is put before what is left without the given tools. */
  ghost predicate Led(p: Prompt, ws: seq<Workflow>, tools: set<Tool>, out: seq<Workflow>) {
    exists rest :: Without(ws, tools, rest) && Capped([p.classified] + rest, out)
  }

  ghost predicate RunbookPlanned(p: Prompt, ws: seq<Workflow>, out: seq<Workflow>) {
    var c := p.classified.tool;
    if c in METRIC_TOOLS then Led(p, ws, ONEM2M_TOOLS + {c}, out)
    else if c in ONEM2M_TOOLS then exists started :: Led(p, ws, ONEM2M_TOOLS, started) && Focused(p, started, out)
    else Focused(p, ws, out)
  }

  ghost predicate DrilldownPlanned(p: Prompt, ws: seq<Workflow>, out: seq<Workflow>) {
    if p.classified.tool == DeviceDrilldown then Led(p, ws, {DeviceDrilldown}, out) else out == ws
  }

  /** The plan that the classifier's choice makes of `ws`. */
  ghost predicate ChoicePlanned(p: Prompt, ws: seq<Workflow>, out: seq<Workflow>) {
    exists x :: RunbookPlanned(p, ws, x) && DrilldownPlanned(p, x, out)
  }

  /** The planned workflow of a health tool, the last if there are several, or a default one. */
  ghost predicate HealthOf(ws: seq<Workflow>, tool: Tool, w: Workflow) {
    if HasAny(ws, {tool}) then exists k :: && 0 <= k < |ws| && ws[k] == w && w.tool == tool
                                           && forall j :: k < j < |ws| ==> ws[j].tool != tool
    else w == Workflow(tool, "infrastructure_overview_required")
  }

  /** Kubernetes resource work replaces the log queries by one of its own, if there is room. */
  ghost predicate K8sLogged(ws: seq<Workflow>, out: seq<Workflow>) {
    if !HasAny(ws, {K8sResources}) then out == ws
    else exists front :: && Without(ws, {GrafanaLogs}, front)
                         && Capped(front + [Workflow(GrafanaLogs, "k8s_resource_error_log_correlation")], out)
  }

  ghost predicate TermsPlanned(p: Prompt, ws: seq<Workflow>, out: seq<Workflow>) {
    if p.infrastructureTerms then |out| == 5 && forall k :: 0 <= k < 5 ==> HealthOf(ws, HEALTH_TOOLS[k], out[k])
    else K8sLogged(ws, out)
  }

  /** The whole pipeline. */
  ghost predicate Planned(p: Prompt, ws: seq<Workflow>, out: seq<Workflow>) {
    exists chosen :: ChoicePlanned(p, ws, chosen) && TermsPlanned(p, chosen, out)
  }

  // ----- The rewrites make exactly that plan -----

  ghost predicate Sieves(s: Sieve, t: Tool, tools: set<Tool>, among: bool) {
    Passes(s, t) <==> (t in tools) == among
  }

  lemma FilterPicks(ws: seq<Workflow>, tools: set<Tool>, among: bool, at: seq<nat>, xs: seq<Workflow>, w: Workflow)
    requires FiltersAt(ws, tools, among, at, xs) && (w.tool in tools) == among
    ensures FiltersAt(ws + [w], tools, among, at + [|ws|], xs + [w])
  {
    var all, next := ws + [w], at + [|ws|];
    assert next[|at|] == |ws|;
    forall i | 0 <= i < |all| && (all[i].tool in tools) == among ensures i in next {
      if i < |ws| { assert all[i] == ws[i] && i in at; }
    }
  }

  lemma FilterSkips(ws: seq<Workflow>, tools: set<Tool>, among: bool, at: seq<nat>, xs: seq<Workflow>, w: Workflow)
    requires FiltersAt(ws, tools, among, at, xs) && (w.tool in tools) != among
    ensures FiltersAt(ws + [w], tools, among, at, xs)
  {}

  lemma FilterOneMore(ws: seq<Workflow>, tools: set<Tool>, among: bool, xs: seq<Workflow>, w: Workflow)
    requires Filters(ws, tools, among, xs)
    ensures Filters(ws + [w], tools, among, if (w.tool in tools) == among then xs + [w] else xs)
  {
    var at: seq<nat> :| FiltersAt(ws, tools, among, at, xs);
    if (w.tool in tools) == among {
      FilterPicks(ws, tools, among, at, xs, w);
    } else {
      FilterSkips(ws, tools, among, at, xs, w);
    }
  }

  lemma FilterNone(tools: set<Tool>, among: bool)
    ensures Filters([], tools, among, [])
  {
    assert FiltersAt([], tools, among, [], []);
  }

  lemma KeepOneMore(s: Sieve, ws: seq<Workflow>, w: Workflow)
    ensures Keep(s, ws + [w]) == if Passes(s, w.tool) then Keep(s, ws) + [w] else Keep(s, ws)
  {
    KeepConcat(s, ws, [w]);
    assert [w][1..] == [];
    assert Keep(s, [w]) == if Passes(s, w.tool) then [w] else [];
  }

  lemma {:induction false} KeepFilters(s: Sieve, ws: seq<Workflow>, tools: set<Tool>, among: bool)
    requires forall t :: Sieves(s, t, tools, among)
    ensures Filters(ws, tools, among, Keep(s, ws))
  {
    if ws == [] {
      FilterNone(tools, among);
    } else {
      var front, last := ws[..|ws| - 1], ws[|ws| - 1];
      KeepFilters(s, front, tools, among);
      assert Sieves(s, last.tool, tools, among);
      FilterStep(s, front, tools, among, last);
      FrontAndLast(ws);
    }
  }

  lemma FrontAndLast(ws: seq<Workflow>)
    requires ws != []
    ensures ws[..|ws| - 1] + [ws[|ws| - 1]] == ws
  {}

  lemma FilterStep(s: Sieve, front: seq<Workflow>, tools: set<Tool>, among: bool, last: Workflow)
    requires Filters(front, tools, among, Keep(s, front))
    requires Passes(s, last.tool) <==> (last.tool in tools) == among
    ensures Filters(front + [last], tools, among, Keep(s, front + [last]))
  {
    KeepOneMore(s, front, last);
    FilterOneMore(front, tools, among, Keep(s, front), last);
  }

  lemma KeepsOthers(t: Tool, ws: seq<Workflow>)
    ensures Without(ws, {t}, Keep(Not(t), ws))
  {
    KeepFilters(Not(t), ws, {t}, false);
  }

  lemma KeepsNoLogs(ws: seq<Workflow>)
    ensures Without(ws, {GrafanaLogs}, Keep(NotLogs, ws))
  {
    KeepFilters(NotLogs, ws, {GrafanaLogs}, false);
  }

  lemma KeepsNoOneM2M(ws: seq<Workflow>)
    ensures Without(ws, ONEM2M_TOOLS, Keep(NotOneM2M, ws))
  {
    KeepFilters(NotOneM2M, ws, ONEM2M_TOOLS, false);
  }

  lemma KeepsOneM2MAndLogs(ws: seq<Workflow>)
    ensures Only(ws, ONEM2M_TOOLS + {GrafanaLogs}, Keep(OneM2MOrLogs, ws))
  {
    KeepFilters(OneM2MOrLogs, ws, ONEM2M_TOOLS + {GrafanaLogs}, true);
  }

  /** Two filters in a row drop the tools of both. */
  lemma WithoutBoth(ws: seq<Workflow>, a: set<Tool>, xs: seq<Workflow>, b: set<Tool>, ys: seq<Workflow>)
    requires Without(ws, a, xs) && Without(xs, b, ys)
    ensures Without(ws, a + b, ys)
  {
    var first: seq<nat> :| FiltersAt(ws, a, false, first, xs);
    var second: seq<nat> :| FiltersAt(xs, b, false, second, ys);
    WithoutBothAt(ws, a, first, xs, b, second, ys);
  }

  lemma WithoutBothAt(
    ws: seq<Workflow>, a: set<Tool>, first: seq<nat>, xs: seq<Workflow>, b: set<Tool>, second: seq<nat>,
    ys: seq<Workflow>)
    requires FiltersAt(ws, a, false, first, xs) && FiltersAt(xs, b, false, second, ys)
    ensures FiltersAt(ws, a + b, false, Through(first, second), ys)
  {
    forall i | 0 <= i < |ws| && ws[i].tool !in a + b ensures i in Through(first, second) {
      var j :| 0 <= j < |first| && first[j] == i;
      assert xs[j] == ws[i] && j in second;
      var k :| 0 <= k < |second| && second[k] == j;
      assert Through(first, second)[k] == i;
    }
  }

  function Through(first: seq<nat>, second: seq<nat>): (at: seq<nat>)
    requires forall k :: 0 <= k < |second| ==> second[k] < |first|
    ensures |at| == |second| && forall k :: 0 <= k < |at| ==> at[k] == first[second[k]]
  {
    seq(|second|, k requires 0 <= k < |second| => first[second[k]])
  }

  lemma HasAnyOneM2M(ws: seq<Workflow>)
    ensures HasOneM2M(ws) <==> HasAny(ws, ONEM2M_TOOLS)
  {
    if w :| w in ws && IsOneM2M(w.tool) {
      var k :| 0 <= k < |ws| && ws[k] == w;
    }
  }

  lemma HasAnyFlow(ws: seq<Workflow>)
    ensures HasFlow(ws) <==> HasAny(ws, FLOW_TOOLS)
  {
    if w :| w in ws && IsFlow(w.tool) {
      var k :| 0 <= k < |ws| && ws[k] == w;
    }
  }

  lemma HasAnyTool(ws: seq<Workflow>, t: Tool)
    ensures Has(ws, t) <==> HasAny(ws, {t})
  {
    if w :| w in ws && w.tool == t {
      var k :| 0 <= k < |ws| && ws[k] == w;
    }
  }

  lemma AdapterLogsAreQueries(p: Prompt)
    ensures AdapterQueries(p, AdapterLogs(AdapterServices(p)))
  {}

  lemma FocusIsFocused(p: Prompt, ws: seq<Workflow>)
    ensures Focused(p, ws, FocusOneM2M(p, ws))
  {
    var kept := Keep(OneM2MOrLogs, ws);
    HasAnyOneM2M(ws);
    HasAnyFlow(ws);
    KeepsOneM2MAndLogs(ws);
    KeepsNoLogs(kept);
    AdapterLogsAreQueries(p);
  }

  lemma RunbookIsPlanned(p: Prompt, ws: seq<Workflow>)
    ensures RunbookPlanned(p, ws, EnsureRunbook(p, ws))
  {
    var c := p.classified.tool;
    if IsMetricRunbook(c) {
      KeepsOthers(c, ws);
      KeepsNoOneM2M(Keep(Not(c), ws));
      WithoutBoth(ws, {c}, Keep(Not(c), ws), ONEM2M_TOOLS, Keep(NotOneM2M, Keep(Not(c), ws)));
      assert {c} + ONEM2M_TOOLS == ONEM2M_TOOLS + {c};
    } else if IsOneM2M(c) {
      var started := Cut([p.classified] + Keep(NotOneM2M, ws));
      KeepsNoOneM2M(ws);
      assert Led(p, ws, ONEM2M_TOOLS, started);
      FocusIsFocused(p, started);
    } else {
      FocusIsFocused(p, ws);
    }
  }

  lemma DrilldownIsPlanned(p: Prompt, ws: seq<Workflow>)
    ensures DrilldownPlanned(p, ws, EnsureDrilldown(p, ws))
  {
    KeepsOthers(DeviceDrilldown, ws);
  }

  lemma HealthBehind(ws: seq<Workflow>, t: Tool, w: Workflow, last: Workflow)
    requires HealthOf(ws, t, w) && last.tool != t
    ensures HealthOf(ws + [last], t, w)
  {
    var all := ws + [last];
    if HasAny(ws, {t}) {
      var k :| 0 <= k < |ws| && ws[k] == w && w.tool == t && forall j :: k < j < |ws| ==> ws[j].tool != t;
      assert all[k] == w && all[k].tool in {t};
    } else {
      assert forall k :: 0 <= k < |ws| ==> all[k] == ws[k] && ws[k].tool !in {t};
    }
  }

  lemma HealthAtEnd(ws: seq<Workflow>, t: Tool)
    requires ws != [] && ws[|ws| - 1].tool == t
    ensures HealthOf(ws, t, ws[|ws| - 1])
  {
    assert ws[|ws| - 1].tool in {t};
  }

  lemma {:induction false} ByToolIsHealth(ws: seq<Workflow>, t: Tool)
    ensures HealthOf(ws, t, ByTool(ws, t))
  {
    if ws != [] {
      var front, last := ws[..|ws| - 1], ws[|ws| - 1];
      if last.tool == t {
        HealthAtEnd(ws, t);
      } else {
        ByToolIsHealth(front, t);
        HealthBehind(front, t, ByTool(front, t), last);
        assert front + [last] == ws;
      }
    }
  }

  lemma HealthIsPlanned(p: Prompt, ws: seq<Workflow>)
    requires p.infrastructureTerms
    ensures TermsPlanned(p, ws, EnsureInfrastructure(p, ws))
  {
    var out := EnsureInfrastructure(p, ws);
    forall k | 0 <= k < 5 ensures HealthOf(ws, HEALTH_TOOLS[k], out[k]) {
      ByToolIsHealth(ws, HEALTH_TOOLS[k]);
      assert out[k] == ByTool(ws, HEALTH_TOOLS[k]);
    }
  }

  lemma TermsArePlanned(p: Prompt, ws: seq<Workflow>)
    ensures TermsPlanned(p, ws, EnsureK8sLogs(EnsureInfrastructure(p, ws)))
  {
    if p.infrastructureTerms {
      InfrastructureTools(p, ws);
      HealthIsPlanned(p, ws);
    } else {
      HasAnyTool(ws, K8sResources);
      KeepsNoLogs(ws);
    }
  }

  /** The four rewrites turn any proposed plan into exactly the planned one. */
  lemma {:induction false} RewriteMakesThePlan(p: Prompt, ws: seq<Workflow>)
    ensures Planned(p, ws, Rewrite(p, ws))
  {
    var x := EnsureRunbook(p, ws);
    var chosen := EnsureDrilldown(p, x);
    RunbookIsPlanned(p, ws);
    DrilldownIsPlanned(p, x);
    assert ChoicePlanned(p, ws, chosen);
    TermsArePlanned(p, chosen);
  }

  // ----- What the infrastructure terms keep -----

  lemma HealthFromChoice(p: Prompt, b: seq<Workflow>, w: Workflow)
    requires p.infrastructureTerms && NoRepeats(b)
    requires w.tool in HEALTH_TOOLS && w.detail != "infrastructure_overview_required"
    ensures w in EnsureInfrastructure(p, b) <==> w in b
  {
    HealthIsPlanned(p, b);
    if w in EnsureInfrastructure(p, b) { PlannedHealthWasChosen(p, b, EnsureInfrastructure(p, b), w); }
    if w in b { ChosenHealthIsPlanned(p, b, EnsureInfrastructure(p, b), w); }
  }

  lemma PlannedHealthWasChosen(p: Prompt, b: seq<Workflow>, out: seq<Workflow>, w: Workflow)
    requires p.infrastructureTerms && TermsPlanned(p, b, out) && w in out
    requires w.detail != "infrastructure_overview_required"
    ensures w in b
  {
    var k :| 0 <= k < 5 && out[k] == w;
    assert HealthOf(b, HEALTH_TOOLS[k], w);
  }

  lemma ChosenHealthIsPlanned(p: Prompt, b: seq<Workflow>, out: seq<Workflow>, w: Workflow)
    requires p.infrastructureTerms && TermsPlanned(p, b, out) && NoRepeats(b)
    requires w in b && w.tool in HEALTH_TOOLS
    ensures w in out
  {
    var k :| 0 <= k < 5 && HEALTH_TOOLS[k] == w.tool;
    OnlyHealthOfTool(b, w, out[k]);
  }

  lemma OnlyHealthOfTool(b: seq<Workflow>, w: Workflow, planned: Workflow)
    requires NoRepeats(b) && w in b && w.tool != GrafanaLogs && HealthOf(b, w.tool, planned)
    ensures planned == w
  {
    var i :| 0 <= i < |b| && b[i] == w;
    assert b[i].tool in {w.tool};
    var j :| 0 <= j < |b| && b[j] == planned && b[j].tool == w.tool;
    assert i == j;
  }

  lemma HealthSurvivesFocus(p: Prompt, ws: seq<Workflow>, w: Workflow)
    requires w in ws && w.tool in HEALTH_TOOLS
    ensures w in FocusOneM2M(p, ws) <==> !HasAny(ws, ONEM2M_TOOLS)
  {
    HasAnyOneM2M(ws);
    if HasOneM2M(ws) {
      FocusMembers(p.logTerms, AdapterLogs(AdapterServices(p)), ws);
    }
  }

  lemma KeptMember(s: Sieve, ws: seq<Workflow>, w: Workflow)
    requires w in ws && Passes(s, w.tool)
    ensures w in Keep(s, ws) && |Keep(s, ws)| <= |ws|
  {
    KeepMembers(s, ws);
  }

  lemma HealthSurvivesLead(c: Workflow, s: Sieve, ws: seq<Workflow>, w: Workflow)
    requires w in ws && |ws| < 5 && Passes(s, w.tool)
    ensures w in Cut([c] + Keep(s, ws)) && |Keep(s, ws)| < 5
  {
    KeptMember(s, ws, w);
    var k :| 0 <= k < |Keep(s, ws)| && Keep(s, ws)[k] == w;
    assert ([c] + Keep(s, ws))[k + 1] == w;
  }

  lemma OneM2MChoiceDrops(p: Prompt, ws: seq<Workflow>, w: Workflow)
    requires p.classified.tool in ONEM2M_TOOLS && w.tool in HEALTH_TOOLS
    ensures w !in EnsureRunbook(p, ws)
  {
    var started := Cut([p.classified] + Keep(NotOneM2M, ws));
    assert started[0] == p.classified && p.classified in started;
    FocusMembers(p.logTerms, AdapterLogs(AdapterServices(p)), started);
  }

  lemma MetricChoiceKeeps(p: Prompt, ws: seq<Workflow>, w: Workflow)
    requires p.classified.tool in METRIC_TOOLS && |ws| < 5 && w in ws && w.tool in HEALTH_TOOLS
    ensures w in EnsureRunbook(p, ws)
  {
    var c := p.classified.tool;
    assert w.tool != c && !IsOneM2M(w.tool) && IsMetricRunbook(c);
    KeptMember(Not(c), ws, w);
    HealthSurvivesLead(p.classified, NotOneM2M, Keep(Not(c), ws), w);
  }

  lemma HealthInRunbook(p: Prompt, ws: seq<Workflow>, w: Workflow)
    requires |ws| < 5 && w in ws && w.tool in HEALTH_TOOLS
    ensures w in EnsureRunbook(p, ws) <==>
            && p.classified.tool !in ONEM2M_TOOLS
            && (p.classified.tool in METRIC_TOOLS || !HasAny(ws, ONEM2M_TOOLS))
  {
    var c := p.classified.tool;
    if IsMetricRunbook(c) {
      MetricChoiceKeeps(p, ws, w);
    } else if IsOneM2M(c) {
      OneM2MChoiceDrops(p, ws, w);
    } else {
      HealthSurvivesFocus(p, ws, w);
    }
  }

  lemma HealthInDrilldown(p: Prompt, ws: seq<Workflow>, x: seq<Workflow>, w: Workflow)
    requires w.tool in HEALTH_TOOLS && (p.classified.tool == DeviceDrilldown && w in x ==> |x| < 5)
    ensures w in EnsureDrilldown(p, x) <==> w in x
  {
    if p.classified.tool == DeviceDrilldown {
      KeepMembers(Not(DeviceDrilldown), x);
      CutMembers([p.classified], Keep(Not(DeviceDrilldown), x));
      if w in x { HealthSurvivesLead(p.classified, Not(DeviceDrilldown), x, w); }
    }
  }

  /** Under the five terms a planned workflow of a health tool keeps its parameters if and only
      if no OneM2M work replaces it: the choice is not OneM2M work, and is a metric runbook or
      the plan has none. (A full plan may lose its last workflow to the classified one first.) */
  lemma {:induction false} HealthIsKeptIff(p: Prompt, ws: seq<Workflow>, w: Workflow)
    requires p.infrastructureTerms && WellFormed(ws) && |ws| < 5
    requires w in ws && w.tool in HEALTH_TOOLS && w.detail != "infrastructure_overview_required"
    ensures w in Rewrite(p, ws) <==>
            && p.classified.tool !in ONEM2M_TOOLS
            && (p.classified.tool in METRIC_TOOLS || !HasAny(ws, ONEM2M_TOOLS))
  {
    var x := EnsureRunbook(p, ws);
    var b := EnsureDrilldown(p, x);
    HealthInRunbook(p, ws, w);
    HasAnyOneM2M(ws);
    HealthInDrilldown(p, ws, x, w);
    RunbookIsWellFormed(p, ws);
    DrilldownIsWellFormed(p, x);
    HealthFromChoice(p, b, w);
    InfrastructureTools(p, b);
  }

  // ----- The two planners -----

  method PlanSemantically(reg: Registry, p: Prompt, items: seq<PlanItem>)
    returns (ws: seq<Workflow>, ghost normalized: seq<Workflow>)
    ensures Planned(p, normalized, ws) && ws == Rewrite(p, normalized)
    ensures WellFormed(normalized) && WellFormed(ws)
    ensures exists at :: ListsKept(reg, Cut(items), normalized, at)
  {
    var kept, at := NormalizeItems(reg, items);
    normalized := kept;
    RewriteIsWellFormed(p, kept);
    RewriteMakesThePlan(p, kept);
    ws := Rewrite(p, kept);
  }

  /** The fallback: the classifier's tool, then further tools until there are five. */
  method PlanDeterministically(p: Prompt, signals: seq<Workflow>)
    returns (ws: seq<Workflow>, ghost extras: seq<Workflow>)
    ensures PicksFirst(p.classified.tool, signals, extras)
    ensures exists start :: Capped([p.classified] + extras, start) && Planned(p, start, ws) && ws == Rewrite(p, start)
    ensures WellFormed(ws)
  {
    var picked := DetectAdditional(p.classified.tool, signals);
    extras := picked;
    var plan := [p.classified];
    for k := 0 to |picked|
      invariant plan == [p.classified] + picked[..k] && |plan| < MAX_WORKFLOW_EXECUTIONS
    {
      plan := plan + [picked[k]];
      CutGrows(p.classified, picked, k);
      if |plan| >= MAX_WORKFLOW_EXECUTIONS { break; }
    }
    assert plan == Cut([p.classified] + picked);
    PickedIsWellFormed(p.classified, signals, picked);
    RewriteIsWellFormed(p, plan);
    RewriteMakesThePlan(p, plan);
    assert Capped([p.classified] + picked, plan);
    ws := Rewrite(p, plan);
  }
}
