/** The IOA v3 workflow planner: the plan that a language model proposes is normalised, then
    four rewrites enforce the runbooks. Prompt text enters only through the classifier's
    choice and the term tests the rewrites make. */
module WorkflowPlanner {
  import opened Options

  const MAX_WORKFLOW_EXECUTIONS: nat := 5
  const MIN_SEMANTIC_CONFIDENCE: real := 0.55

  /** The tools the rewrites name; every other tool is Other. */
  datatype Tool =
    | GrafanaLogs
    | QueueBacklog | QueueTrend | EmqxDroppedTrend | EmqxConnectionTrend | K8sResources
    | K8sHealth | LinuxHealth | RedisHealth | MongoHealth | MysqlHealth
    | DeviceDrilldown
    | DeviceResources | CommandFlow | TelemetryFlow | ResourceCollection | OnlineStatus | CinRecords
    | Other(name: string)

  predicate IsMetricRunbook(t: Tool) {
    t.QueueBacklog? || t.QueueTrend? || t.EmqxDroppedTrend? || t.EmqxConnectionTrend? || t.K8sResources?
  }

  predicate IsOneM2M(t: Tool) {
    || t.DeviceResources? || t.CommandFlow? || t.TelemetryFlow?
    || t.ResourceCollection? || t.OnlineStatus? || t.CinRecords?
  }

  predicate IsFlow(t: Tool) { t.CommandFlow? || t.TelemetryFlow? }

  /** `detail` stands for parameters, reason, confidence and planner. */
  datatype Workflow = Workflow(tool: Tool, detail: string)

  /** What the rewrites learn from the prompt text: `classified` is the classifier's choice. */
  datatype Prompt = Prompt(
    classified: Workflow, logTerms: bool, httpApi: bool, mqtt: bool, notify: bool, infrastructureTerms: bool)

  // ----- Sieves: the filters of the rewrites -----

  datatype Sieve = Not(tool: Tool) | NotOneM2M | OneM2MOrLogs | NotLogs

  predicate Passes(s: Sieve, t: Tool) {
    match s
    case Not(x) => t != x
    case NotOneM2M => !IsOneM2M(t)
    case OneM2MOrLogs => IsOneM2M(t) || t == GrafanaLogs
    case NotLogs => t != GrafanaLogs
  }

  function Keep(s: Sieve, ws: seq<Workflow>): seq<Workflow> {
    if ws == [] then [] else (if Passes(s, ws[0].tool) then [ws[0]] else []) + Keep(s, ws[1..])
  }

  function Cut<T>(xs: seq<T>): seq<T> {
    if |xs| <= MAX_WORKFLOW_EXECUTIONS then xs else xs[..MAX_WORKFLOW_EXECUTIONS]
  }

  predicate Has(ws: seq<Workflow>, t: Tool) { exists w :: w in ws && w.tool == t }
  predicate HasOneM2M(ws: seq<Workflow>) { exists w :: w in ws && IsOneM2M(w.tool) }
  predicate HasFlow(ws: seq<Workflow>) { exists w :: w in ws && IsFlow(w.tool) }

  // ----- The four rewrites -----

  function AdapterServices(p: Prompt): (services: seq<string>)
    ensures 1 <= |services| <= 3
  {
    var named := (if p.httpApi then ["iot-http-api"] else []) +
                 (if p.mqtt then ["iot-mqtt-client-adapter"] else []) +
                 (if p.notify then ["notify"] else []);
    if named == [] then ["iot-http-api"] else named
  }

  function AdapterLogs(services: seq<string>): (ws: seq<Workflow>)
    ensures |ws| == |services| && forall k :: 0 <= k < |ws| ==> ws[k].tool == GrafanaLogs
  {
    seq(|services|, k requires 0 <= k < |services| => Workflow(GrafanaLogs, services[k]))
  }

  /** The tail of the runbook rewrite: OneM2M work keeps only OneM2M and log workflows, and
      a flow investigation gets the adapter logs it needs. */
  function Focus(logTerms: bool, logs: seq<Workflow>, ws: seq<Workflow>): seq<Workflow> {
    if !HasOneM2M(ws) then ws
    else if HasFlow(ws) && logTerms then Cut(Keep(NotLogs, Keep(OneM2MOrLogs, ws)) + logs)
    else Keep(OneM2MOrLogs, ws)
  }

  function FocusOneM2M(p: Prompt, ws: seq<Workflow>): seq<Workflow> {
    Focus(p.logTerms, AdapterLogs(AdapterServices(p)), ws)
  }

  function EnsureRunbook(p: Prompt, ws: seq<Workflow>): seq<Workflow> {
    var c := p.classified.tool;
    if IsMetricRunbook(c) then Cut([p.classified] + Keep(NotOneM2M, Keep(Not(c), ws)))
    else if IsOneM2M(c) then FocusOneM2M(p, Cut([p.classified] + Keep(NotOneM2M, ws)))
    else FocusOneM2M(p, ws)
  }

  function EnsureDrilldown(p: Prompt, ws: seq<Workflow>): seq<Workflow> {
    if p.classified.tool != DeviceDrilldown then ws
    else Cut([p.classified] + Keep(Not(DeviceDrilldown), ws))
  }

  /** The last workflow of a tool, as a dictionary keyed by tool holds it. */
  function ByTool(ws: seq<Workflow>, t: Tool): Workflow {
    if ws == [] then Workflow(t, "infrastructure_overview_required")
    else if ws[|ws| - 1].tool == t then ws[|ws| - 1] else ByTool(ws[..|ws| - 1], t)
  }

  function EnsureInfrastructure(p: Prompt, ws: seq<Workflow>): seq<Workflow> {
    if !p.infrastructureTerms then ws
    else [ByTool(ws, K8sHealth), ByTool(ws, LinuxHealth), ByTool(ws, RedisHealth),
          ByTool(ws, MongoHealth), ByTool(ws, MysqlHealth)]
  }

  function EnsureK8sLogs(ws: seq<Workflow>): seq<Workflow> {
    if !Has(ws, K8sResources) then ws
    else Cut(Keep(NotLogs, ws) + [Workflow(GrafanaLogs, "k8s_resource_error_log_correlation")])
  }

  function Rewrite(p: Prompt, ws: seq<Workflow>): seq<Workflow> {
    EnsureK8sLogs(EnsureInfrastructure(p, EnsureDrilldown(p, EnsureRunbook(p, ws))))
  }

  // ----- Tools only -----

  function Tools(ws: seq<Workflow>): (ts: seq<Tool>)
    ensures |ts| == |ws| && forall k :: 0 <= k < |ts| ==> ts[k] == ws[k].tool
  {
    seq(|ws|, k requires 0 <= k < |ws| => ws[k].tool)
  }

  /** At most five workflows, and no tool twice except log queries. */
  ghost predicate WellFormed(ws: seq<Workflow>) {
    |ws| <= MAX_WORKFLOW_EXECUTIONS && NoRepeats(ws)
  }

  ghost predicate NoRepeats(ws: seq<Workflow>) {
    forall i, j :: 0 <= i < j < |ws| && ws[i].tool == ws[j].tool ==> ws[i].tool == GrafanaLogs
  }

  lemma CutMembers<T>(a: seq<T>, b: seq<T>)
    ensures forall w :: w in Cut(a + b) ==> w in a || w in b
  {}

  lemma HeadedMembers<T>(c: T, x: seq<T>, m: nat)
    requires m <= |x|
    ensures forall w :: w in [c] + x[..m] ==> w == c || w in x
  {}

  // ----- Facts about sieves -----

  lemma {:induction false} KeepMembers(s: Sieve, ws: seq<Workflow>)
    ensures forall w :: w in Keep(s, ws) <==> w in ws && Passes(s, w.tool)
    ensures |Keep(s, ws)| <= |ws|
    ensures NoRepeats(ws) ==> NoRepeats(Keep(s, ws))
  {
    if ws != [] {
      KeepMembers(s, ws[1..]);
      var rest := Keep(s, ws[1..]);
      assert forall w :: w in ws <==> w == ws[0] || w in ws[1..];
      if NoRepeats(ws) {
        assert NoRepeats(ws[1..]);
        forall k | 0 <= k < |rest| && rest[k].tool == ws[0].tool ensures rest[k].tool == GrafanaLogs {
          assert rest[k] in rest && rest[k] in ws[1..];
          var j :| 0 <= j < |ws[1..]| && ws[1..][j] == rest[k];
          assert ws[j + 1] == rest[k];
        }
      }
    }
  }

  lemma {:induction false} KeepAll(s: Sieve, ws: seq<Workflow>)
    requires forall w :: w in ws ==> Passes(s, w.tool)
    ensures Keep(s, ws) == ws
  {
    if ws != [] {
      assert ws[0] in ws;
      KeepAll(s, ws[1..]);
    }
  }

  lemma {:induction false} KeepConcat(s: Sieve, a: seq<Workflow>, b: seq<Workflow>)
    ensures Keep(s, a + b) == Keep(s, a) + Keep(s, b)
  {
    if a == [] {
      assert a + b == b;
    } else {
      KeepConcat(s, a[1..], b);
      KeepCons(s, a[0], a[1..] + b);
      assert [a[0]] + (a[1..] + b) == a + b;
      Regroup(Keep(s, [a[0]]), Keep(s, a[1..]), Keep(s, b));
      KeepCons(s, a[0], a[1..]);
      assert [a[0]] + a[1..] == a;
    }
  }

  lemma KeepCons(s: Sieve, w: Workflow, ws: seq<Workflow>)
    ensures Keep(s, [w] + ws) == Keep(s, [w]) + Keep(s, ws)
  {
    assert ([w] + ws)[1..] == ws && [w][1..] == [];
    assert Keep(s, [w]) == if Passes(s, w.tool) then [w] else [];
  }

  lemma Regroup(a: seq<Workflow>, b: seq<Workflow>, c: seq<Workflow>)
    ensures a + b + c == a + (b + c)
  {}

  lemma {:induction false} KeepNone(s: Sieve, ws: seq<Workflow>)
    requires forall w :: w in ws ==> !Passes(s, w.tool)
    ensures Keep(s, ws) == []
  {
    if ws != [] {
      assert ws[0] in ws;
      KeepNone(s, ws[1..]);
    }
  }

  // ----- Every rewrite keeps the plan well formed -----

  lemma HeadedIsWellFormed(head: Workflow, rest: seq<Workflow>)
    requires NoRepeats(rest) && forall w :: w in rest ==> w.tool != head.tool
    ensures WellFormed(Cut([head] + rest))
  {
    var all := [head] + rest;
    forall i, j | 0 <= i < j < |all| && all[i].tool == all[j].tool ensures all[i].tool == GrafanaLogs {
      assert all[j] == rest[j - 1] && rest[j - 1] in rest;
      if i > 0 { assert all[i] == rest[i - 1]; }
    }
  }

  lemma LogsAppendedIsWellFormed(ws: seq<Workflow>, logs: seq<Workflow>)
    requires NoRepeats(ws) && forall w :: w in logs ==> w.tool == GrafanaLogs
    ensures WellFormed(Cut(Keep(NotLogs, ws) + logs))
  {
    KeepMembers(NotLogs, ws);
    var kept := Keep(NotLogs, ws);
    var all := kept + logs;
    forall i, j | 0 <= i < j < |all| && all[i].tool == all[j].tool ensures all[i].tool == GrafanaLogs {
      if j < |kept| {
        assert all[i] == kept[i] && all[j] == kept[j];
      } else {
        assert all[j] == logs[j - |kept|] && logs[j - |kept|] in logs;
      }
    }
    CutHasNoRepeats(all);
  }

  lemma CutHasNoRepeats(ws: seq<Workflow>)
    requires NoRepeats(ws)
    ensures WellFormed(Cut(ws))
  {}

  lemma FocusIsWellFormed(p: Prompt, ws: seq<Workflow>)
    requires WellFormed(ws)
    ensures WellFormed(FocusOneM2M(p, ws))
  {
    KeepMembers(OneM2MOrLogs, ws);
    LogsAppendedIsWellFormed(Keep(OneM2MOrLogs, ws), AdapterLogs(AdapterServices(p)));
  }

  lemma RunbookIsWellFormed(p: Prompt, ws: seq<Workflow>)
    requires WellFormed(ws)
    ensures WellFormed(EnsureRunbook(p, ws))
  {
    var c := p.classified.tool;
    KeepMembers(Not(c), ws);
    KeepMembers(NotOneM2M, Keep(Not(c), ws));
    KeepMembers(NotOneM2M, ws);
    if IsMetricRunbook(c) {
      HeadedIsWellFormed(p.classified, Keep(NotOneM2M, Keep(Not(c), ws)));
    } else if IsOneM2M(c) {
      HeadedIsWellFormed(p.classified, Keep(NotOneM2M, ws));
      FocusIsWellFormed(p, Cut([p.classified] + Keep(NotOneM2M, ws)));
    } else {
      FocusIsWellFormed(p, ws);
    }
  }

  lemma DrilldownIsWellFormed(p: Prompt, ws: seq<Workflow>)
    requires WellFormed(ws)
    ensures WellFormed(EnsureDrilldown(p, ws))
  {
    KeepMembers(Not(DeviceDrilldown), ws);
    if p.classified.tool == DeviceDrilldown { HeadedIsWellFormed(p.classified, Keep(Not(DeviceDrilldown), ws)); }
  }

  lemma {:induction false} ByToolHasTool(ws: seq<Workflow>, t: Tool)
    ensures ByTool(ws, t).tool == t
  {
    if ws != [] { ByToolHasTool(ws[..|ws| - 1], t); }
  }

  const INFRASTRUCTURE_TOOLS := [K8sHealth, LinuxHealth, RedisHealth, MongoHealth, MysqlHealth]

  lemma InfrastructureTools(p: Prompt, ws: seq<Workflow>)
    requires p.infrastructureTerms
    ensures Tools(EnsureInfrastructure(p, ws)) == INFRASTRUCTURE_TOOLS
    ensures EnsureK8sLogs(EnsureInfrastructure(p, ws)) == EnsureInfrastructure(p, ws)
  {
    ByToolHasTool(ws, K8sHealth);
    ByToolHasTool(ws, LinuxHealth);
    ByToolHasTool(ws, RedisHealth);
    ByToolHasTool(ws, MongoHealth);
    ByToolHasTool(ws, MysqlHealth);
  }

  lemma K8sLogsIsWellFormed(ws: seq<Workflow>)
    requires WellFormed(ws)
    ensures WellFormed(EnsureK8sLogs(ws))
  {
    LogsAppendedIsWellFormed(ws, [Workflow(GrafanaLogs, "k8s_resource_error_log_correlation")]);
  }

  /** Whatever plan comes in, at most five workflows come out, none repeated but log queries. */
  lemma {:induction false} RewriteIsWellFormed(p: Prompt, ws: seq<Workflow>)
    requires WellFormed(ws)
    ensures WellFormed(Rewrite(p, ws))
  {
    RunbookIsWellFormed(p, ws);
    DrilldownIsWellFormed(p, EnsureRunbook(p, ws));
    var b := EnsureDrilldown(p, EnsureRunbook(p, ws));
    if p.infrastructureTerms {
      InfrastructureTools(p, b);
      InfrastructureIsWellFormed(EnsureInfrastructure(p, b));
    } else {
      K8sLogsIsWellFormed(b);
    }
  }

  lemma InfrastructureIsWellFormed(ws: seq<Workflow>)
    requires Tools(ws) == INFRASTRUCTURE_TOOLS
    ensures WellFormed(ws)
  {
    assert forall k :: 0 <= k < 5 ==> ws[k].tool == INFRASTRUCTURE_TOOLS[k];
  }

  // ----- The classifier's choice leads -----

  lemma KeepsHead(s: Sieve, ws: seq<Workflow>)
    requires ws != [] && Passes(s, ws[0].tool)
    ensures Keep(s, ws) != [] && Keep(s, ws)[0] == ws[0]
  {}

  lemma K8sLogsKeepsHead(ws: seq<Workflow>)
    requires ws != [] && ws[0].tool != GrafanaLogs
    ensures EnsureK8sLogs(ws) != [] && EnsureK8sLogs(ws)[0] == ws[0]
  {
    KeepsHead(NotLogs, ws);
  }

  /** A metric runbook, OneM2M or drill-down choice is at the head, unless the five-term
      infrastructure rewrite fires; then exactly the five infrastructure tools are planned. */
  lemma {:induction false} ClassifiedToolLeads(p: Prompt, ws: seq<Workflow>)
    requires IsMetricRunbook(p.classified.tool) || IsOneM2M(p.classified.tool) || p.classified.tool == DeviceDrilldown
    ensures if p.infrastructureTerms then Tools(Rewrite(p, ws)) == INFRASTRUCTURE_TOOLS
            else Rewrite(p, ws) != [] && Rewrite(p, ws)[0] == p.classified
  {
    if p.infrastructureTerms {
      InfrastructureTools(p, EnsureDrilldown(p, EnsureRunbook(p, ws)));
    } else {
      if IsOneM2M(p.classified.tool) {
        var started := Cut([p.classified] + Keep(NotOneM2M, ws));
        KeepsHead(OneM2MOrLogs, started);
        KeepsHead(NotLogs, Keep(OneM2MOrLogs, started));
      }
      K8sLogsKeepsHead(EnsureDrilldown(p, EnsureRunbook(p, ws)));
    }
  }

  // ----- Running the rewrites again changes nothing -----

  lemma NotLogsOfPlan(a: seq<Workflow>, logs: seq<Workflow>)
    requires forall w :: w in a ==> w.tool != GrafanaLogs
    requires forall w :: w in logs ==> w.tool == GrafanaLogs
    ensures Keep(NotLogs, a + logs) == a
  {
    KeepConcat(NotLogs, a, logs);
    KeepAll(NotLogs, a);
    KeepNone(NotLogs, logs);
  }

  lemma K8sLogsIsStable(ws: seq<Workflow>)
    requires |ws| <= MAX_WORKFLOW_EXECUTIONS
    ensures EnsureK8sLogs(EnsureK8sLogs(ws)) == EnsureK8sLogs(ws)
  {
    if Has(ws, K8sResources) {
      KeepMembers(NotLogs, ws);
      LogAddedAgain(Keep(NotLogs, ws), Workflow(GrafanaLogs, "k8s_resource_error_log_correlation"));
    }
  }

  lemma LogAddedAgain(a: seq<Workflow>, log: Workflow)
    requires log.tool == GrafanaLogs && |a| <= MAX_WORKFLOW_EXECUTIONS && forall w :: w in a ==> w.tool != GrafanaLogs
    ensures Keep(NotLogs, Cut(a + [log])) == a
  {
    var rest := if |a| < MAX_WORKFLOW_EXECUTIONS then [log] else [];
    NotLogsOfPlan(a, rest);
    assert Cut(a + [log]) == a + rest;
  }

  ghost predicate AllLogs(logs: seq<Workflow>) { forall w :: w in logs ==> w.tool == GrafanaLogs }

  /** y agrees with x on its first m workflows, and is x when those are all of x. */
  ghost predicate Rebuilds(x: seq<Workflow>, m: nat, y: seq<Workflow>) {
    m <= |x| && m <= |y| && y[..m] == x[..m] && (m == |x| ==> y == x)
  }

  lemma FocusOfFocusedPlan(logTerms: bool, logs: seq<Workflow>, x: seq<Workflow>)
    requires forall w :: w in x ==> IsOneM2M(w.tool) || w.tool == GrafanaLogs
    requires !(HasFlow(x) && logTerms)
    ensures Focus(logTerms, logs, x) == x
  {
    KeepAll(OneM2MOrLogs, x);
  }

  lemma FocusOfPlanAndLogs(logs: seq<Workflow>, front: seq<Workflow>, rest: seq<Workflow>)
    requires AllLogs(rest) && (forall w :: w in front ==> IsOneM2M(w.tool))
    ensures Focus(true, logs, front + rest) == if HasFlow(front) then Cut(front + logs) else front + rest
  {
    var all := front + rest;
    assert forall w :: w in all <==> w in front || w in rest;
    KeepAll(OneM2MOrLogs, all);
    NotLogsOfPlan(front, rest);
  }

  lemma CutAgrees(logs: seq<Workflow>, a: seq<Workflow>, m: nat)
    requires |a| <= MAX_WORKFLOW_EXECUTIONS && m <= |Cut(a + logs)|
    ensures var n := if m <= |a| then m else |a|;
            m - n <= |logs| && Cut(a + logs)[..m] == a[..n] + logs[..m - n]
    ensures var n := if m <= |a| then m else |a|; Rebuilds(Cut(a + logs), m, Cut(a[..n] + logs))
  {
    if m >= |a| { assert a[..|a|] == a; }
  }

  lemma FocusOfFlowPrefix(logs: seq<Workflow>, a: seq<Workflow>, m: nat)
    requires AllLogs(logs) && (forall w :: w in a ==> IsOneM2M(w.tool))
    requires |a| <= MAX_WORKFLOW_EXECUTIONS && m <= |Cut(a + logs)|
    ensures Rebuilds(Cut(a + logs), m, Focus(true, logs, Cut(a + logs)[..m]))
  {
    var n := if m <= |a| then m else |a|;
    CutAgrees(logs, a, m);
    var x, front, rest := Cut(a + logs), a[..n], logs[..m - n];
    assert forall w :: w in front ==> w in a;
    assert forall w :: w in rest ==> w in logs;
    FocusOfPlanAndLogs(logs, front, rest);
    EitherRebuilds(x, m, HasFlow(front), Cut(front + logs), front + rest);
  }

  lemma EitherRebuilds(x: seq<Workflow>, m: nat, b: bool, y: seq<Workflow>, z: seq<Workflow>)
    requires Rebuilds(x, m, y) && z == x[..m]
    ensures Rebuilds(x, m, if b then y else z)
  {}

  lemma FocusedFlow(logs: seq<Workflow>, ws: seq<Workflow>) returns (a: seq<Workflow>)
    requires |ws| <= MAX_WORKFLOW_EXECUTIONS && HasOneM2M(ws) && HasFlow(ws)
    ensures Focus(true, logs, ws) == Cut(a + logs) && |a| <= MAX_WORKFLOW_EXECUTIONS
    ensures forall w :: w in a ==> IsOneM2M(w.tool)
  {
    a := Keep(NotLogs, Keep(OneM2MOrLogs, ws));
    OnlyOneM2MIsKept(ws);
  }

  lemma OnlyOneM2MIsKept(ws: seq<Workflow>)
    ensures var a := Keep(NotLogs, Keep(OneM2MOrLogs, ws));
            |a| <= |ws| && forall w :: w in a ==> IsOneM2M(w.tool)
  {
    KeepMembers(OneM2MOrLogs, ws);
    KeepMembers(NotLogs, Keep(OneM2MOrLogs, ws));
  }

  /** Focusing any prefix of a focused plan rebuilds the plan as far as the prefix goes. */
  lemma FocusOfPrefix(logTerms: bool, logs: seq<Workflow>, ws: seq<Workflow>, m: nat)
    requires |ws| <= MAX_WORKFLOW_EXECUTIONS && HasOneM2M(ws) && AllLogs(logs) && m <= |Focus(logTerms, logs, ws)|
    ensures Rebuilds(Focus(logTerms, logs, ws), m, Focus(logTerms, logs, Focus(logTerms, logs, ws)[..m]))
  {
    var x := Focus(logTerms, logs, ws);
    if HasFlow(ws) && logTerms {
      var a := FocusedFlow(logs, ws);
      FocusOfFlowPrefix(logs, a, m);
    } else {
      KeepMembers(OneM2MOrLogs, ws);
      FocusOfPlainPrefix(logTerms, logs, x, m);
    }
  }

  lemma FocusOfPlainPrefix(logTerms: bool, logs: seq<Workflow>, x: seq<Workflow>, m: nat)
    requires m <= |x| && forall w :: w in x ==> IsOneM2M(w.tool) || w.tool == GrafanaLogs
    requires !(HasFlow(x) && logTerms)
    ensures Rebuilds(x, m, Focus(logTerms, logs, x[..m]))
  {
    assert forall w :: w in x[..m] ==> w in x;
    FocusOfFocusedPlan(logTerms, logs, x[..m]);
    if m == |x| { assert x[..m] == x; }
  }

  lemma FocusMembers(logTerms: bool, logs: seq<Workflow>, ws: seq<Workflow>)
    requires HasOneM2M(ws) && AllLogs(logs)
    ensures forall w :: w in Focus(logTerms, logs, ws) ==> IsOneM2M(w.tool) || w.tool == GrafanaLogs
  {
    var focused := Keep(OneM2MOrLogs, ws);
    KeepMembers(OneM2MOrLogs, ws);
    if HasFlow(ws) && logTerms {
      KeepMembers(NotLogs, focused);
      CutMembers(Keep(NotLogs, focused), logs);
    }
  }

  /** A cut plan led by c, whose other workflows use other tools. */
  ghost predicate LedBy(c: Workflow, y: seq<Workflow>) {
    0 < |y| <= MAX_WORKFLOW_EXECUTIONS && y[0] == c && forall w :: w in y[1..] ==> w.tool != c.tool
  }

  lemma ReleadIsStable(c: Workflow, y: seq<Workflow>)
    requires LedBy(c, y)
    ensures Keep(Not(c.tool), y) == y[1..] && Cut([c] + y[1..]) == y
  {
    KeepAll(Not(c.tool), y[1..]);
    assert [c] + y[1..] == y;
  }

  lemma CutIsLed(c: Workflow, rest: seq<Workflow>)
    requires forall w :: w in rest ==> w.tool != c.tool
    ensures LedBy(c, Cut([c] + rest))
    ensures forall w :: w in Cut([c] + rest) ==> w == c || w in rest
  {
    var y := Cut([c] + rest);
    assert y[1..] == rest[..|y| - 1];
    assert y == [c] + y[1..];
  }

  lemma LogsBehindLead(c: Workflow, tail: seq<Workflow>, log: Workflow)
    requires c.tool != GrafanaLogs && log.tool == GrafanaLogs && forall w :: w in tail ==> w.tool != c.tool
    ensures var y := Cut(Keep(NotLogs, [c] + tail) + [log]);
            LedBy(c, y) && forall w :: w in y ==> w == c || w == log || w in tail
  {
    var rest := Keep(NotLogs, tail) + [log];
    KeepConcat(NotLogs, [c], tail);
    assert Keep(NotLogs, [c]) == [c];
    KeepMembers(NotLogs, tail);
    assert Keep(NotLogs, [c] + tail) + [log] == [c] + rest;
    CutIsLed(c, rest);
  }

  lemma K8sLogsIsLed(c: Workflow, z: seq<Workflow>)
    requires LedBy(c, z) && c.tool != GrafanaLogs
    ensures LedBy(c, EnsureK8sLogs(z))
    ensures forall w :: w in EnsureK8sLogs(z) ==> w.tool == GrafanaLogs || w in z
  {
    if Has(z, K8sResources) {
      assert z == [c] + z[1..];
      LogsBehindLead(c, z[1..], Workflow(GrafanaLogs, "k8s_resource_error_log_correlation"));
    }
  }

  /** The runbook rewrite sees through a drill-down at the head of a focused plan. */
  lemma FocusBehindDrilldown(logTerms: bool, logs: seq<Workflow>, dd: Workflow, front: seq<Workflow>)
    requires dd.tool == DeviceDrilldown && forall w :: w in front ==> IsOneM2M(w.tool) || w.tool == GrafanaLogs
    ensures Focus(logTerms, logs, [dd] + front) ==
            if HasOneM2M(front) then Focus(logTerms, logs, front) else [dd] + front
  {
    var y := [dd] + front;
    assert forall w :: w in y <==> w == dd || w in front;
    KeepConcat(OneM2MOrLogs, [dd], front);
    assert Keep(OneM2MOrLogs, [dd]) == [];
    assert Keep(OneM2MOrLogs, y) == Keep(OneM2MOrLogs, front);
  }

  lemma RebuiltBehindDrilldown(dd: Workflow, x: seq<Workflow>, m: nat, f: seq<Workflow>)
    requires m == (if |x| < 4 then |x| else 4) && Rebuilds(x, m, f)
    ensures Cut([dd] + f) == [dd] + x[..m]
  {}

  lemma DrilldownOverFocused(p: Prompt, x: seq<Workflow>, m: nat)
    requires p.classified.tool == DeviceDrilldown
    requires forall w :: w in x ==> IsOneM2M(w.tool) || w.tool == GrafanaLogs
    requires m == (if |x| < 4 then |x| else 4) && Rebuilds(x, m, FocusOneM2M(p, x[..m]))
    ensures EnsureDrilldown(p, EnsureRunbook(p, [p.classified] + x[..m])) == [p.classified] + x[..m]
  {
    var front, logs := x[..m], AdapterLogs(AdapterServices(p));
    assert forall w :: w in front ==> w in x;
    FocusBehindDrilldown(p.logTerms, logs, p.classified, front);
    if HasOneM2M(front) {
      var f := Focus(p.logTerms, logs, front);
      FocusMembers(p.logTerms, logs, front);
      KeepAll(Not(DeviceDrilldown), f);
      RebuiltBehindDrilldown(p.classified, x, m, f);
    } else {
      DrilldownLeads(p.classified, front);
    }
  }

  lemma DrilldownLeads(dd: Workflow, front: seq<Workflow>)
    requires dd.tool == DeviceDrilldown && |front| <= 4
    requires forall w :: w in front ==> w.tool != DeviceDrilldown
    ensures Cut([dd] + Keep(Not(DeviceDrilldown), [dd] + front)) == [dd] + front
  {
    var all := [dd] + front;
    assert all[1..] == front;
    assert Keep(Not(DeviceDrilldown), all) == Keep(Not(DeviceDrilldown), front);
    KeepAll(Not(DeviceDrilldown), front);
  }

  lemma LedRunbookIsStable(p: Prompt, y: seq<Workflow>)
    requires p.classified.tool == DeviceDrilldown || IsMetricRunbook(p.classified.tool)
    requires LedBy(p.classified, y) && forall w :: w in y ==> !IsOneM2M(w.tool)
    ensures EnsureRunbook(p, y) == y && EnsureDrilldown(p, y) == y
  {
    ReleadIsStable(p.classified, y);
    assert forall w :: w in y[1..] ==> w in y;
    KeepAll(NotOneM2M, y[1..]);
  }

  /** A plan led by the drill-down or a metric runbook, with no OneM2M work, is a fixed point. */
  lemma LedPlanIsStable(p: Prompt, z: seq<Workflow>)
    requires p.classified.tool == DeviceDrilldown || IsMetricRunbook(p.classified.tool)
    requires !p.infrastructureTerms && LedBy(p.classified, z) && forall w :: w in z ==> !IsOneM2M(w.tool)
    ensures Rewrite(p, EnsureK8sLogs(z)) == EnsureK8sLogs(z)
  {
    K8sLogsIsLed(p.classified, z);
    LedRunbookIsStable(p, EnsureK8sLogs(z));
    K8sLogsIsStable(z);
  }

  lemma NoK8sBehindDrilldown(dd: Workflow, x: seq<Workflow>, m: nat)
    requires dd.tool == DeviceDrilldown && m <= |x|
    requires forall w :: w in x ==> IsOneM2M(w.tool) || w.tool == GrafanaLogs
    ensures EnsureK8sLogs([dd] + x[..m]) == [dd] + x[..m]
  {
    HeadedMembers(dd, x, m);
  }

  lemma FirstDrilldownRun(p: Prompt, ws: seq<Workflow>) returns (x: seq<Workflow>, m: nat)
    requires p.classified.tool == DeviceDrilldown && !p.infrastructureTerms && HasOneM2M(ws)
    ensures x == Focus(p.logTerms, AdapterLogs(AdapterServices(p)), ws) && m == if |x| < 4 then |x| else 4
    ensures forall w :: w in x ==> IsOneM2M(w.tool) || w.tool == GrafanaLogs
    ensures Rewrite(p, ws) == [p.classified] + x[..m]
  {
    x := Focus(p.logTerms, AdapterLogs(AdapterServices(p)), ws);
    m := if |x| < 4 then |x| else 4;
    FocusMembers(p.logTerms, AdapterLogs(AdapterServices(p)), ws);
    KeepAll(Not(DeviceDrilldown), x);
    NoK8sBehindDrilldown(p.classified, x, m);
    RebuiltBehindDrilldown(p.classified, x, m, x);
  }

  lemma DrilldownAfterFocus(p: Prompt, ws: seq<Workflow>)
    requires |ws| <= MAX_WORKFLOW_EXECUTIONS && p.classified.tool == DeviceDrilldown && !p.infrastructureTerms
    requires HasOneM2M(ws)
    ensures Rewrite(p, Rewrite(p, ws)) == Rewrite(p, ws)
  {
    var x, m := FirstDrilldownRun(p, ws);
    FocusOfPrefix(p.logTerms, AdapterLogs(AdapterServices(p)), ws, m);
    DrilldownOverFocused(p, x, m);
    NoK8sBehindDrilldown(p.classified, x, m);
  }

  lemma DrilldownRunIsStable(p: Prompt, ws: seq<Workflow>)
    requires |ws| <= MAX_WORKFLOW_EXECUTIONS && p.classified.tool == DeviceDrilldown && !p.infrastructureTerms
    ensures Rewrite(p, Rewrite(p, ws)) == Rewrite(p, ws)
  {
    if HasOneM2M(ws) {
      DrilldownAfterFocus(p, ws);
    } else {
      KeepMembers(Not(DeviceDrilldown), ws);
      var z := Cut([p.classified] + Keep(Not(DeviceDrilldown), ws));
      CutIsLed(p.classified, Keep(Not(DeviceDrilldown), ws));
      LedPlanIsStable(p, z);
    }
  }

  lemma MetricRunbookIsLed(p: Prompt, ws: seq<Workflow>)
    requires IsMetricRunbook(p.classified.tool)
    ensures LedBy(p.classified, EnsureRunbook(p, ws))
    ensures forall w :: w in EnsureRunbook(p, ws) ==> !IsOneM2M(w.tool)
  {
    var others := Keep(Not(p.classified.tool), ws);
    KeepMembers(Not(p.classified.tool), ws);
    KeepMembers(NotOneM2M, others);
    CutIsLed(p.classified, Keep(NotOneM2M, others));
  }

  lemma MetricRunIsStable(p: Prompt, ws: seq<Workflow>)
    requires IsMetricRunbook(p.classified.tool) && !p.infrastructureTerms
    ensures Rewrite(p, Rewrite(p, ws)) == Rewrite(p, ws)
  {
    MetricRunbookIsLed(p, ws);
    LedPlanIsStable(p, EnsureRunbook(p, ws));
  }

  lemma OneM2MRunIsStable(p: Prompt, ws: seq<Workflow>)
    requires IsOneM2M(p.classified.tool) && !p.infrastructureTerms
    ensures Rewrite(p, Rewrite(p, ws)) == Rewrite(p, ws)
  {
    var x := OneM2MRunbook(p, ws);
    ReleadOneM2M(p.classified, x);
    assert Rewrite(p, ws) == x;
    assert EnsureRunbook(p, x) == FocusOneM2M(p, x);
  }

  lemma OneM2MRunbook(p: Prompt, ws: seq<Workflow>) returns (x: seq<Workflow>)
    requires IsOneM2M(p.classified.tool)
    ensures x == EnsureRunbook(p, ws) && FocusOneM2M(p, x) == x
    ensures 0 < |x| <= MAX_WORKFLOW_EXECUTIONS && x[0] == p.classified && AllLogs(x[1..])
  {
    var logs := AdapterLogs(AdapterServices(p));
    var started := Cut([p.classified] + Keep(NotOneM2M, ws));
    KeepMembers(NotOneM2M, ws);
    CutIsLed(p.classified, Keep(NotOneM2M, ws));
    OneM2MAlone(p, started);
    x := FocusOneM2M(p, started);
    assert started[0] in started;
    FocusOfPrefix(p.logTerms, logs, started, |x|);
    assert x[..|x|] == x;
  }

  /** After an OneM2M choice the plan is that choice, followed by log queries only. */
  lemma OneM2MAlone(p: Prompt, started: seq<Workflow>)
    requires IsOneM2M(p.classified.tool) && LedBy(p.classified, started)
    requires forall w :: w in started[1..] ==> !IsOneM2M(w.tool)
    ensures var x := FocusOneM2M(p, started);
            0 < |x| <= MAX_WORKFLOW_EXECUTIONS && x[0] == p.classified && AllLogs(x[1..])
  {
    var c, logs := p.classified, AdapterLogs(AdapterServices(p));
    assert started == [c] + started[1..];
    KeepMembers(OneM2MOrLogs, started[1..]);
    var tail := Keep(OneM2MOrLogs, started[1..]);
    assert Keep(OneM2MOrLogs, started) == [c] + tail;
    LogsDroppedBehind(c, tail);
    assert c in started;
    var x := FocusOneM2M(p, started);
    assert x == [c] + tail || x == [c] + logs;
    assert x[1..] == tail || x[1..] == logs;
  }

  lemma LogsDroppedBehind(c: Workflow, tail: seq<Workflow>)
    requires IsOneM2M(c.tool) && forall w :: w in tail ==> w.tool == GrafanaLogs
    ensures Keep(NotLogs, [c] + tail) == [c]
  {
    KeepCons(NotLogs, c, tail);
    KeepNone(NotLogs, tail);
  }

  lemma ReleadOneM2M(c: Workflow, x: seq<Workflow>)
    requires IsOneM2M(c.tool) && 0 < |x| <= MAX_WORKFLOW_EXECUTIONS
    requires x[0] == c && AllLogs(x[1..])
    ensures Cut([c] + Keep(NotOneM2M, x)) == x
    ensures !Has(x, K8sResources)
  {
    AloneHasNoK8s(c, x[1..]);
    KeepAll(NotOneM2M, x[1..]);
    HeadAndTail(x);
    HeadIsDropped(NotOneM2M, x);
  }

  lemma HeadIsDropped(s: Sieve, x: seq<Workflow>)
    requires x != [] && !Passes(s, x[0].tool)
    ensures Keep(s, x) == Keep(s, x[1..])
  {}

  lemma HeadAndTail(x: seq<Workflow>)
    requires x != []
    ensures [x[0]] + x[1..] == x
  {}

  lemma AloneHasNoK8s(c: Workflow, tail: seq<Workflow>)
    requires IsOneM2M(c.tool) && AllLogs(tail)
    ensures !Has([c] + tail, K8sResources) && forall w :: w in tail ==> Passes(NotOneM2M, w.tool)
  {}

  lemma OtherRunIsStable(p: Prompt, ws: seq<Workflow>)
    requires |ws| <= MAX_WORKFLOW_EXECUTIONS && !p.infrastructureTerms && p.classified.tool != DeviceDrilldown
    requires !IsMetricRunbook(p.classified.tool) && !IsOneM2M(p.classified.tool)
    ensures Rewrite(p, Rewrite(p, ws)) == Rewrite(p, ws)
  {
    if HasOneM2M(ws) {
      FocusIsStable(p, ws);
    } else {
      K8sLogsIsStable(ws);
      K8sLogsAddsNoOneM2M(ws);
    }
  }

  lemma FocusIsStable(p: Prompt, ws: seq<Workflow>)
    requires |ws| <= MAX_WORKFLOW_EXECUTIONS && HasOneM2M(ws)
    ensures var x := FocusOneM2M(p, ws); FocusOneM2M(p, x) == x && !Has(x, K8sResources)
  {
    var x := FocusOneM2M(p, ws);
    FocusMembers(p.logTerms, AdapterLogs(AdapterServices(p)), ws);
    FocusOfPrefix(p.logTerms, AdapterLogs(AdapterServices(p)), ws, |x|);
    assert x[..|x|] == x;
  }

  lemma K8sLogsAddsNoOneM2M(ws: seq<Workflow>)
    requires !HasOneM2M(ws)
    ensures !HasOneM2M(EnsureK8sLogs(ws))
  {
    KeepMembers(NotLogs, ws);
    CutMembers(Keep(NotLogs, ws), [Workflow(GrafanaLogs, "k8s_resource_error_log_correlation")]);
  }

  /** Re-running the four rewrites leaves the sequence of tools unchanged; without the
      infrastructure rewrite it leaves the whole plan unchanged. */
  lemma {:induction false} RewriteIsIdempotent(p: Prompt, ws: seq<Workflow>)
    requires |ws| <= MAX_WORKFLOW_EXECUTIONS
    ensures Tools(Rewrite(p, Rewrite(p, ws))) == Tools(Rewrite(p, ws))
    ensures !p.infrastructureTerms ==> Rewrite(p, Rewrite(p, ws)) == Rewrite(p, ws)
  {
    var c := p.classified.tool;
    if p.infrastructureTerms {
      InfrastructureTools(p, EnsureDrilldown(p, EnsureRunbook(p, ws)));
      InfrastructureTools(p, EnsureDrilldown(p, EnsureRunbook(p, Rewrite(p, ws))));
    } else if c == DeviceDrilldown {
      DrilldownRunIsStable(p, ws);
    } else if IsMetricRunbook(c) {
      MetricRunIsStable(p, ws);
    } else if IsOneM2M(c) {
      OneM2MRunIsStable(p, ws);
    } else {
      OtherRunIsStable(p, ws);
    }
  }

  // ----- Normalising the language model's plan -----

  /** One proposed workflow; a confidence that is not a number is None. */
  datatype PlanItem = NotADict | Item(tool: Tool, confidence: Option<real>, detail: string)

  /** The tool registry and the prompt-compatibility test, both arbitrary. */
  datatype Registry = Registry(known: Tool -> bool, compatible: Tool -> bool)

  function CoerceConfidence(c: Option<real>): (r: real)
    ensures 0.0 <= r <= 1.0
  {
    match c
    case None => 0.0
    case Some(x) => if x < 0.0 then 0.0 else if x > 1.0 then 1.0 else x
  }

  predicate Acceptable(reg: Registry, item: PlanItem) {
    item.Item? && reg.known(item.tool) && reg.compatible(item.tool)
    && CoerceConfidence(item.confidence) >= MIN_SEMANTIC_CONFIDENCE
  }

  /** A proposal is acceptable with a known, compatible tool and a confidence of at least 0.55. */
  lemma {:induction false} AcceptableExactly(reg: Registry, item: PlanItem)
    ensures Acceptable(reg, item) <==>
            && item.Item? && reg.known(item.tool) && reg.compatible(item.tool)
            && item.confidence.Some? && item.confidence.value >= 0.55
  {}

  /** Item i is kept: it is acceptable and no earlier acceptable item has its tool. */
  ghost predicate Kept(reg: Registry, items: seq<PlanItem>, i: int) {
    && 0 <= i < |items| && Acceptable(reg, items[i])
    && forall j :: 0 <= j < i && Acceptable(reg, items[j]) ==> items[j].tool != items[i].tool
  }

  /** `ws` lists exactly the kept items, at the increasing positions `at`. */
  ghost predicate ListsKept(reg: Registry, items: seq<PlanItem>, ws: seq<Workflow>, at: seq<int>) {
    && |at| == |ws|
    && (forall k :: 0 <= k < |at| ==>
          Kept(reg, items, at[k]) && ws[k] == Workflow(items[at[k]].tool, items[at[k]].detail))
    && (forall k, l :: 0 <= k < l < |at| ==> at[k] < at[l])
    && (forall i :: Kept(reg, items, i) ==> i in at)
  }

  lemma ListsKeptIsWellFormed(reg: Registry, items: seq<PlanItem>, ws: seq<Workflow>, at: seq<int>)
    requires |items| <= MAX_WORKFLOW_EXECUTIONS && |ws| <= |items| && ListsKept(reg, items, ws, at)
    ensures WellFormed(ws)
  {
    forall k, l | 0 <= k < l < |ws| ensures ws[k].tool != ws[l].tool {
      assert at[k] < at[l] && Kept(reg, items, at[k]) && Kept(reg, items, at[l]);
    }
  }

  lemma KeptOfPrefix(reg: Registry, items: seq<PlanItem>, n: nat)
    requires n < |items|
    ensures forall i :: i < n ==> (Kept(reg, items[..n + 1], i) <==> Kept(reg, items[..n], i))
  {
    var a, b := items[..n], items[..n + 1];
    forall i | i < n ensures Kept(reg, b, i) <==> Kept(reg, a, i) {
      assert forall j :: 0 <= j < n ==> a[j] == b[j];
    }
  }

  lemma NoNewItem(reg: Registry, items: seq<PlanItem>, n: nat, ws: seq<Workflow>, at: seq<int>)
    requires n < |items| && ListsKept(reg, items[..n], ws, at) && !Kept(reg, items[..n + 1], n)
    ensures ListsKept(reg, items[..n + 1], ws, at)
  {
    KeptOfPrefix(reg, items, n);
  }

  lemma NewItem(reg: Registry, items: seq<PlanItem>, n: nat, ws: seq<Workflow>, at: seq<int>)
    requires n < |items| && ListsKept(reg, items[..n], ws, at) && Kept(reg, items[..n + 1], n)
    ensures ListsKept(reg, items[..n + 1], ws + [Workflow(items[n].tool, items[n].detail)], at + [n])
  {
    KeptOfPrefix(reg, items, n);
    var all, next := items[..n + 1], at + [n];
    var more := ws + [Workflow(items[n].tool, items[n].detail)];
    forall k | 0 <= k < |next|
      ensures Kept(reg, all, next[k]) && more[k] == Workflow(all[next[k]].tool, all[next[k]].detail)
    {
      if k < |at| { assert Kept(reg, items[..n], at[k]) && next[k] == at[k] && more[k] == ws[k]; }
    }
    forall k, l | 0 <= k < l < |next| ensures next[k] < next[l] {
      assert Kept(reg, items[..n], at[k]);
    }
    forall i | Kept(reg, all, i) ensures i in next {
      if i < n { assert i in at; } else { assert next[|at|] == i; }
    }
  }

  ghost predicate SeenBefore(reg: Registry, items: seq<PlanItem>, n: int, t: Tool) {
    exists j :: 0 <= j < n <= |items| && Acceptable(reg, items[j]) && items[j].tool == t
  }

  lemma KeptIffUnseen(reg: Registry, items: seq<PlanItem>, n: nat)
    requires n < |items|
    ensures Kept(reg, items[..n + 1], n) <==> Acceptable(reg, items[n]) && !SeenBefore(reg, items, n, items[n].tool)
  {
    var all := items[..n + 1];
    assert all[n] == items[n] && forall j :: 0 <= j < n ==> all[j] == items[j];
  }

  ghost predicate SeenExactly(reg: Registry, items: seq<PlanItem>, n: int, seen: set<Tool>) {
    forall t :: t in seen <==> SeenBefore(reg, items, n, t)
  }

  lemma SeenOneMore(reg: Registry, items: seq<PlanItem>, n: nat, seen: set<Tool>)
    requires n < |items| && SeenExactly(reg, items, n, seen)
    ensures SeenExactly(reg, items, n + 1, seen + if Acceptable(reg, items[n]) then {items[n].tool} else {})
  {
    forall t ensures SeenBefore(reg, items, n + 1, t) <==>
                     SeenBefore(reg, items, n, t) || (Acceptable(reg, items[n]) && items[n].tool == t) {}
  }

  /** Keeps, of the first five items, the acceptable ones whose tool is new. */
  method NormalizeItems(reg: Registry, items: seq<PlanItem>) returns (ws: seq<Workflow>, ghost at: seq<int>)
    ensures ListsKept(reg, Cut(items), ws, at) && |ws| <= |Cut(items)|
    ensures WellFormed(ws)
  {
    ws, at := [], [];
    var first := Cut(items);
    var seen: set<Tool> := {};
    for n := 0 to |first|
      invariant ListsKept(reg, first[..n], ws, at) && |ws| <= n
      invariant SeenExactly(reg, first, n, seen)
    {
      var item := first[n];
      KeptIffUnseen(reg, first, n);
      SeenOneMore(reg, first, n, seen);
      if Acceptable(reg, item) && item.tool !in seen {
        NewItem(reg, first, n, ws, at);
        ws, at := ws + [Workflow(item.tool, item.detail)], at + [n];
        seen := seen + {item.tool};
      } else {
        NoNewItem(reg, first, n, ws, at);
        assert Acceptable(reg, item) ==> seen + {item.tool} == seen;
      }
    }
    assert first[..|first|] == first;
    ListsKeptIsWellFormed(reg, first, ws, at);
  }

  /** Signal i is the first of its tool, and that is not the primary tool. */
  ghost predicate NewSignal(primary: Tool, signals: seq<Workflow>, i: int) {
    0 <= i < |signals| && signals[i].tool != primary && forall j :: 0 <= j < i ==> signals[j].tool != signals[i].tool
  }

  /** `picked` lists exactly those signals, in order. */
  ghost predicate PicksAt(primary: Tool, signals: seq<Workflow>, at: seq<nat>, picked: seq<Workflow>) {
    && |at| == |picked|
    && (forall k :: 0 <= k < |at| ==> NewSignal(primary, signals, at[k]) && picked[k] == signals[at[k]])
    && (forall k, l :: 0 <= k < l < |at| ==> at[k] < at[l])
    && forall i :: NewSignal(primary, signals, i) ==> i in at
  }

  ghost predicate PicksFirst(primary: Tool, signals: seq<Workflow>, picked: seq<Workflow>) {
    exists at: seq<nat> :: PicksAt(primary, signals, at, picked)
  }

  lemma NewSignalOfFront(primary: Tool, signals: seq<Workflow>, s: Workflow, i: int)
    requires i < |signals|
    ensures NewSignal(primary, signals + [s], i) <==> NewSignal(primary, signals, i)
  {
    assert forall j :: 0 <= j < |signals| ==> (signals + [s])[j] == signals[j];
  }

  lemma PickedTool(primary: Tool, signals: seq<Workflow>, at: seq<nat>, picked: seq<Workflow>, i: nat)
    requires PicksAt(primary, signals, at, picked) && i < |signals| && signals[i].tool != primary
    ensures Has(picked, signals[i].tool)
    decreases i
  {
    if NewSignal(primary, signals, i) {
      var k :| 0 <= k < |at| && at[k] == i;
      assert picked[k] == signals[i];
    } else {
      var j :| 0 <= j < i && signals[j].tool == signals[i].tool;
      PickedTool(primary, signals, at, picked, j);
    }
  }

  /** The next signal is new exactly when no picked one has its tool. */
  lemma NewIffUnpicked(primary: Tool, signals: seq<Workflow>, at: seq<nat>, picked: seq<Workflow>, s: Workflow)
    requires PicksAt(primary, signals, at, picked)
    ensures NewSignal(primary, signals + [s], |signals|) <==> s.tool != primary && !Has(picked, s.tool)
  {
    var all := signals + [s];
    assert forall j :: 0 <= j < |signals| ==> all[j] == signals[j];
    if w :| w in picked && w.tool == s.tool {
      var k :| 0 <= k < |picked| && picked[k] == w;
      assert all[at[k]].tool == s.tool;
    }
    if s.tool != primary && !NewSignal(primary, all, |signals|) {
      var j :| 0 <= j < |signals| && signals[j].tool == s.tool;
      PickedTool(primary, signals, at, picked, j);
    }
  }

  lemma SkipSignal(primary: Tool, signals: seq<Workflow>, at: seq<nat>, picked: seq<Workflow>, s: Workflow)
    requires PicksAt(primary, signals, at, picked) && !NewSignal(primary, signals + [s], |signals|)
    ensures PicksAt(primary, signals + [s], at, picked)
  {
    forall i | i < |signals| ensures NewSignal(primary, signals + [s], i) <==> NewSignal(primary, signals, i) {
      NewSignalOfFront(primary, signals, s, i);
    }
  }

  lemma PickSignal(primary: Tool, signals: seq<Workflow>, at: seq<nat>, picked: seq<Workflow>, s: Workflow)
    requires PicksAt(primary, signals, at, picked) && NewSignal(primary, signals + [s], |signals|)
    ensures PicksAt(primary, signals + [s], at + [|signals|], picked + [s])
  {
    var all, next := signals + [s], at + [|signals|];
    forall i | i < |signals| ensures NewSignal(primary, all, i) <==> NewSignal(primary, signals, i) {
      NewSignalOfFront(primary, signals, s, i);
    }
    assert next[|at|] == |signals|;
    forall i | NewSignal(primary, all, i) ensures i in next {
      if i < |signals| { assert i in at; }
    }
  }

  lemma SignalStep(primary: Tool, signals: seq<Workflow>, n: nat, at: seq<nat>, picked: seq<Workflow>)
    requires n < |signals| && PicksAt(primary, signals[..n], at, picked)
    ensures if signals[n].tool != primary && !Has(picked, signals[n].tool)
            then PicksAt(primary, signals[..n + 1], at + [n], picked + [signals[n]])
            else PicksAt(primary, signals[..n + 1], at, picked)
  {
    assert signals[..n + 1] == signals[..n] + [signals[n]];
    NewIffUnpicked(primary, signals[..n], at, picked, signals[n]);
    if signals[n].tool != primary && !Has(picked, signals[n].tool) {
      PickSignal(primary, signals[..n], at, picked, signals[n]);
    } else {
      SkipSignal(primary, signals[..n], at, picked, signals[n]);
    }
  }

  /** The signals the prompt text raises, in table order; each tool is taken once, by its first
      signal, and the primary tool never. */
  method DetectAdditional(primary: Tool, signals: seq<Workflow>) returns (picked: seq<Workflow>)
    ensures PicksFirst(primary, signals, picked)
  {
    picked := [];
    ghost var at: seq<nat> := [];
    for n := 0 to |signals|
      invariant PicksAt(primary, signals[..n], at, picked)
    {
      SignalStep(primary, signals, n, at, picked);
      if signals[n].tool != primary && !Has(picked, signals[n].tool) {
        picked, at := picked + [signals[n]], at + [n];
      }
    }
    assert signals[..|signals|] == signals;
  }

  lemma CutGrows(c: Workflow, picked: seq<Workflow>, k: nat)
    requires k < |picked| && k + 1 < MAX_WORKFLOW_EXECUTIONS
    ensures [c] + picked[..k] + [picked[k]] == [c] + picked[..k + 1]
    ensures k + 2 == MAX_WORKFLOW_EXECUTIONS ==> [c] + picked[..k + 1] == Cut([c] + picked)
  {}

  lemma PickedIsWellFormed(c: Workflow, signals: seq<Workflow>, picked: seq<Workflow>)
    requires PicksFirst(c.tool, signals, picked)
    ensures WellFormed(Cut([c] + picked))
  {
    var at: seq<nat> :| PicksAt(c.tool, signals, at, picked);
    forall i, j | 0 <= i < j < |picked| ensures picked[i].tool != picked[j].tool {
      assert NewSignal(c.tool, signals, at[j]) && at[i] < at[j];
    }
    HeadedIsWellFormed(c, picked);
  }
}
