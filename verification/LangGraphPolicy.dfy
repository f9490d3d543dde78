/** The LangGraph agent's policy graph: validation, tool choice, authorisation, one tool run
    and evidence validation. Its reachable denials have a closed form. */
module LangGraphPolicy {
  import opened Options
  import opened EvidenceSanitizer

  const MAX_USER_INPUT_CHARS: nat := 2000
  const MAX_EVIDENCE_DEPTH: nat := 6
  const EVIDENCE_LIMITS := Limits(100, 2000)

  /** The request text: the keyword tests the classifier makes on its lower-cased form, and
      the tokens of the text as given, once cut for device ids and once, with brackets
      stripped and empty tokens dropped, for company identifiers. */
  datatype Prompt =
    | NotText
    | Text(length: nat, blank: bool, threshold: bool, alert: bool, coverage: bool, rule: bool, disconnected: bool,
           device: bool, inventory: bool, history: bool, diagnose: bool,
           words: seq<string>, tokens: seq<string>)

  /** Lower-casing, token by token, and the words that never identify a company device. */
  datatype Language = Language(lower: string -> string, ignored: string -> bool) {
    /** Lower-casing never empties a token. */
    ghost predicate Valid() { forall token :: token != "" ==> lower(token) != "" }

    function Lowered(tokens: seq<string>): (lowered: seq<string>)
      ensures |lowered| == |tokens| && forall k :: 0 <= k < |tokens| ==> lowered[k] == lower(tokens[k])
    {
      seq(|tokens|, k requires 0 <= k < |tokens| => lower(tokens[k]))
    }
  }

  // ----- Identifiers -----

  predicate StartsWith(text: string, prefix: string) { |prefix| <= |text| && text[..|prefix|] == prefix }

  /** The first simulator device id; None for Python's None. */
  function DeviceId(words: seq<string>): (id: Option<string>)
    ensures match id
            case None => forall k :: 0 <= k < |words| ==> !NamesDevice(words[k])
            case Some(w) =>
              exists k :: 0 <= k < |words| && words[k] == w && NamesDevice(w)
                          && forall j :: 0 <= j < k ==> !NamesDevice(words[j])
  {
    if words == [] then None
    else if NamesDevice(words[0]) then Some(words[0])
    else
      assert forall k :: 0 < k < |words| ==> words[1..][k - 1] == words[k];
      DeviceId(words[1..])
  }

  predicate NamesDevice(word: string) { StartsWith(word, "gateway-") || StartsWith(word, "sensor-") }

  predicate LooksLikeDevice(l: Language, token: string) {
    && !l.ignored(l.lower(token))
    && (StartsWith(l.lower(token), "s") || StartsWith(l.lower(token), "dvi-") || StartsWith(l.lower(token), "dvi_")
        || StartsWith(l.lower(token), "nod_") || '_' in token || '-' in token)
  }

  /** The last token that looks like a device, or None. */
  function LastDevice(l: Language, tokens: seq<string>): (token: Option<string>)
    ensures match token
            case None => forall k :: 0 <= k < |tokens| ==> !LooksLikeDevice(l, tokens[k])
            case Some(x) =>
              exists k :: 0 <= k < |tokens| && tokens[k] == x && LooksLikeDevice(l, x)
                          && forall j :: k < j < |tokens| ==> !LooksLikeDevice(l, tokens[j])
  {
    if tokens == [] then None
    else if LooksLikeDevice(l, tokens[|tokens| - 1]) then Some(tokens[|tokens| - 1])
    else LastDevice(l, tokens[..|tokens| - 1])
  }

  /** The last such token, else the last token of all, else the empty text. */
  function CompanyIdentifier(l: Language, tokens: seq<string>): string {
    match LastDevice(l, tokens)
    case Some(token) => token
    case None => if tokens != [] then tokens[|tokens| - 1] else ""
  }

  ghost predicate NoneEmpty(tokens: seq<string>) { forall k :: 0 <= k < |tokens| ==> tokens[k] != "" }

  lemma {:induction false} LastDeviceIsToken(l: Language, tokens: seq<string>)
    ensures LastDevice(l, tokens).Some? ==> LastDevice(l, tokens).value in tokens
  {
    if tokens != [] { LastDeviceIsToken(l, tokens[..|tokens| - 1]); }
  }

  lemma {:induction false} IdentifiedIffTokens(l: Language, tokens: seq<string>)
    requires NoneEmpty(tokens)
    ensures CompanyIdentifier(l, tokens) != "" <==> tokens != []
  {
    LastDeviceIsToken(l, tokens);
  }

  /** The classifier looks for a company identifier in the lower-cased text and the authoriser
      in the text as given: they may find different tokens, but one does when the other does. */
  lemma {:induction false} IdentifierTestsAgree(l: Language, tokens: seq<string>)
    requires l.Valid() && NoneEmpty(tokens)
    ensures CompanyIdentifier(l, l.Lowered(tokens)) != "" <==> CompanyIdentifier(l, tokens) != ""
  {
    IdentifiedIffTokens(l, tokens);
    IdentifiedIffTokens(l, l.Lowered(tokens));
  }

  // ----- The registry and the dispatch -----

  datatype Spec = Spec(source: string, intent: string, needsDeviceId: bool, needsCompanyDeviceId: bool)

  const TOOL_REGISTRY: map<string, Spec> := map[
    "get_device_history" := Spec("simulator", "simulator_device_history", true, false),
    "get_device_status" := Spec("simulator", "simulator_device_status", true, false),
    "get_fleet_status" := Spec("simulator", "simulator_fleet_status", false, false),
    "get_company_device" := Spec("company", "company_device_inspection", false, true),
    "get_company_disconnected_devices" := Spec("company", "company_disconnected_devices", false, false),
    "get_company_fleet_summary" := Spec("company", "company_fleet_summary", false, false),
    "get_company_inventory" := Spec("company", "company_inventory", false, false),
    "get_company_provisional_alerts" := Spec("company", "company_provisional_alerts", false, false),
    "get_company_rule_readiness" := Spec("company", "company_rule_readiness", false, false),
    "get_company_telemetry_coverage" := Spec("company", "company_telemetry_coverage", false, false),
    "scan_company_threshold" := Spec("company", "company_threshold_scan", false, false)]

  function SpecOf(tool: string): Option<Spec> {
    if tool in TOOL_REGISTRY then Some(TOOL_REGISTRY[tool]) else None
  }

  /** What running a tool calls, with the identifier it is called with. */
  datatype Call =
    | ScanThreshold | ProvisionalAlerts | TelemetryCoverage | RuleReadiness | Disconnected | Inventory | FleetSummary
    | CompanyDevice(identifier: string)
    | LatestStatus(device: Option<string>) | TelemetryHistory(device: Option<string>) | LatestDevices

  /** The chain of name tests in the tool node; None for its last branch, which raises. */
  function Dispatch(l: Language, tool: string, prompt: Prompt): Option<Call>
    requires prompt.Text?
  {
    if tool == "scan_company_threshold" then Some(ScanThreshold)
    else if tool == "get_company_provisional_alerts" then Some(ProvisionalAlerts)
    else if tool == "get_company_telemetry_coverage" then Some(TelemetryCoverage)
    else if tool == "get_company_rule_readiness" then Some(RuleReadiness)
    else if tool == "get_company_disconnected_devices" then Some(Disconnected)
    else if tool == "get_company_inventory" then Some(Inventory)
    else if tool == "get_company_device" then Some(CompanyDevice(CompanyIdentifier(l, prompt.tokens)))
    else if tool == "get_company_fleet_summary" then Some(FleetSummary)
    else if tool == "get_device_status" then Some(LatestStatus(DeviceId(prompt.words)))
    else if tool == "get_device_history" then Some(TelemetryHistory(DeviceId(prompt.words)))
    else if tool == "get_fleet_status" then Some(LatestDevices)
    else None
  }

  /** A tool can be executed if and only if it is registered. */
  lemma {:induction false} DispatchCoversRegistry(l: Language, tool: string, prompt: Prompt)
    requires prompt.Text?
    ensures Dispatch(l, tool, prompt).Some? <==> tool in TOOL_REGISTRY
  {}

  // ----- The nodes -----

  datatype Reason =
    | NoReason | RequestValidated | ToolAuthorized | EvidenceValidated
    | EmptyRequest | RequestTooLarge | InvalidDataSource
    | UnknownTool | ToolSourceMismatch | IntentToolMismatch | BudgetExhausted
    | MissingDeviceIdentifier | MissingCompanyDeviceIdentifier | MissingToolEvidence

  /** `executed` records the tools that were run and what they called; `output` is None for
      Python's None. */
  datatype State = State(
    prompt: Prompt, source: string, intent: string, tool: string, output: Option<Value>,
    allowed: bool, reason: Reason, executions: nat, maxExecutions: nat,
    executed: seq<(string, Call)>, denied: Option<Reason>)

  /** What each call returns. */
  type Backend = Call -> Option<Value>

  function Initial(prompt: Prompt, source: string): State {
    State(prompt, source, "", "", None, true, NoReason, 0, 1, [], None)
  }

  function ValidateRequest(s: State): State {
    var reason := if s.prompt.NotText? || s.prompt.blank then EmptyRequest
                  else if s.prompt.length > MAX_USER_INPUT_CHARS then RequestTooLarge
                  else if s.source != "simulator" && s.source != "company" then InvalidDataSource
                  else RequestValidated;
    s.(allowed := reason == RequestValidated, reason := reason)
  }

  function ClassifyIntent(l: Language, p: Prompt, source: string): (string, string)
    requires p.Text?
  {
    if source == "company" then
      if p.threshold then ("company_threshold_scan", "scan_company_threshold")
      else if p.alert then ("company_provisional_alerts", "get_company_provisional_alerts")
      else if p.coverage then ("company_telemetry_coverage", "get_company_telemetry_coverage")
      else if p.rule then ("company_rule_readiness", "get_company_rule_readiness")
      else if p.disconnected then ("company_disconnected_devices", "get_company_disconnected_devices")
      else if CompanyIdentifier(l, l.Lowered(p.tokens)) != "" && p.device then
        ("company_device_inspection", "get_company_device")
      else if p.inventory then ("company_inventory", "get_company_inventory")
      else ("company_fleet_summary", "get_company_fleet_summary")
    else if p.history then ("simulator_device_history", "get_device_history")
    else if p.diagnose && DeviceId(l.Lowered(p.words)).Some? then ("simulator_device_status", "get_device_status")
    else ("simulator_fleet_status", "get_fleet_status")
  }

  function SelectTool(l: Language, s: State): State
    requires s.prompt.Text?
  {
    var (intent, tool) := ClassifyIntent(l, s.prompt, s.source);
    s.(intent := intent, tool := tool)
  }

  function AuthorizeTool(l: Language, s: State): State
    requires s.prompt.Text?
  {
    var reason := match SpecOf(s.tool)
      case None => UnknownTool
      case Some(spec) =>
        if spec.source != s.source then ToolSourceMismatch
        else if s.intent != "" && s.intent != spec.intent then IntentToolMismatch
        else if s.executions >= s.maxExecutions then BudgetExhausted
        else if spec.needsDeviceId && DeviceId(s.prompt.words).None? then MissingDeviceIdentifier
        else if spec.needsCompanyDeviceId && CompanyIdentifier(l, s.prompt.tokens) == "" then
          MissingCompanyDeviceIdentifier
        else ToolAuthorized;
    s.(allowed := reason == ToolAuthorized, reason := reason)
  }

  function Sanitized(output: Option<Value>): Option<Value> {
    match output case None => None case Some(v) => Some(Sanitize(EVIDENCE_LIMITS, v, MAX_EVIDENCE_DEPTH))
  }

  /** The end of a node that may raise one of two permission errors. */
  datatype Outcome = Ok(state: State) | NotApproved | NotExecutable

  function RunTool(l: Language, backend: Backend, s: State): Outcome
    requires s.prompt.Text?
  {
    var spec := SpecOf(s.tool);
    if !s.allowed || spec.None? || spec.value.source != s.source then NotApproved
    else match Dispatch(l, s.tool, s.prompt)
         case None => NotExecutable
         case Some(call) =>
           Ok(s.(output := Sanitized(backend(call)), executions := s.executions + 1,
                 executed := s.executed + [(s.tool, call)]))
  }

  const NO_EVIDENCE := Dict([("error", Str("The authorized tool returned no evidence."))])

  function ValidateEvidence(s: State): State {
    s.(allowed := s.output.Some?,
       reason := if s.output.Some? then EvidenceValidated else MissingToolEvidence,
       output := if s.output.Some? then Sanitized(s.output) else Some(NO_EVIDENCE))
  }

  function DenyRequest(s: State): State { s.(denied := Some(s.reason)) }

  /** The compiled graph. */
  function Invoke(l: Language, backend: Backend, prompt: Prompt, source: string): Outcome {
    var validated := ValidateRequest(Initial(prompt, source));
    if !validated.allowed then Ok(DenyRequest(validated))
    else
      var authorized := AuthorizeTool(l, SelectTool(l, validated));
      if !authorized.allowed then Ok(DenyRequest(authorized))
      else match RunTool(l, backend, authorized)
           case Ok(ran) =>
             var checked := ValidateEvidence(ran);
             Ok(if checked.allowed then checked else DenyRequest(checked))
           case error => error
  }

  // ----- Main results -----

  ghost predicate WellFormed(l: Language, p: Prompt) { l.Valid() && (p.Text? ==> NoneEmpty(p.tokens)) }

  /** The text asks for the history of no device, or names one only after lower-casing. */
  predicate LacksDevice(l: Language, p: Prompt, source: string)
    requires p.Text?
  {
    && source == "simulator" && DeviceId(p.words).None?
    && (p.history || (p.diagnose && DeviceId(l.Lowered(p.words)).Some?))
  }

  /** The call that the classifier's choice leads to. */
  function ChosenCall(l: Language, p: Prompt, source: string): Option<Call>
    requires p.Text?
  {
    Dispatch(l, ClassifyIntent(l, p, source).1, p)
  }

  /** The classifier only picks registered tools of the request's own source and intent; the
      tools that need a device need what the classifier tested on the lower-cased text. */
  lemma {:induction false} ChosenToolFits(l: Language, prompt: Prompt, source: string)
    requires prompt.Text? && source in {"simulator", "company"}
    ensures var (intent, tool) := ClassifyIntent(l, prompt, source);
            var spec := SpecOf(tool);
            && spec.Some? && spec.value.source == source && spec.value.intent == intent
            && (spec.value.needsDeviceId <==>
                  && source == "simulator"
                  && (prompt.history || (prompt.diagnose && DeviceId(l.Lowered(prompt.words)).Some?)))
            && (spec.value.needsCompanyDeviceId ==> CompanyIdentifier(l, l.Lowered(prompt.tokens)) != "")
  {}

  /** The denial of every request, as a function of the request and of what the chosen tool
      returns: five reasons are reachable, the others are not, and neither permission error is. */
  lemma {:induction false} DenialsExactly(l: Language, backend: Backend, prompt: Prompt, source: string)
    requires WellFormed(l, prompt)
    ensures var run := Invoke(l, backend, prompt, source);
            && run.Ok?
            && run.state.denied ==
               if prompt.NotText? || prompt.blank then Some(EmptyRequest)
               else if prompt.length > 2000 then Some(RequestTooLarge)
               else if source !in {"simulator", "company"} then Some(InvalidDataSource)
               else if LacksDevice(l, prompt, source) then Some(MissingDeviceIdentifier)
               else if ChosenCall(l, prompt, source).Some? && backend(ChosenCall(l, prompt, source).value).None?
               then Some(MissingToolEvidence)
               else None
  {
    var validated := ValidateRequest(Initial(prompt, source));
    if validated.allowed {
      ChosenToolFits(l, prompt, source);
      IdentifierTestsAgree(l, prompt.tokens);
      DispatchCoversRegistry(l, ClassifyIntent(l, prompt, source).1, prompt);
    }
  }

  ghost predicate RanFor(source: string, executed: seq<(string, Call)>) {
    && |executed| <= 1
    && forall tool, call :: (tool, call) in executed ==>
         && tool in TOOL_REGISTRY && TOOL_REGISTRY[tool].source == source
         && (call.CompanyDevice? ==> call.identifier != "")
         && (call.LatestStatus? || call.TelemetryHistory? ==> call.device.Some?)
  }

  lemma AuthorizedToolRuns(l: Language, backend: Backend, s: State)
    requires s.prompt.Text? && s.executed == [] && s.executions == 0
    ensures var a := AuthorizeTool(l, s);
            a.allowed && RunTool(l, backend, a).Ok? ==>
              RanFor(s.source, RunTool(l, backend, a).state.executed) && RunTool(l, backend, a).state.executions == 1
  {
    if s.tool in TOOL_REGISTRY && Dispatch(l, s.tool, s.prompt).Some? { DispatchPassesIdentifier(l, s.tool, s.prompt); }
  }

  /** At most one tool runs, it belongs to the request's data source, and a tool that needs a
      device is called with one found in the text as given. */
  lemma {:induction false} OneToolOfTheRequestedSource(l: Language, backend: Backend, prompt: Prompt, source: string)
    requires WellFormed(l, prompt)
    ensures var run := Invoke(l, backend, prompt, source);
            run.Ok? && RanFor(source, run.state.executed) && run.state.executions == |run.state.executed|
  {
    DenialsExactly(l, backend, prompt, source);
    var validated := ValidateRequest(Initial(prompt, source));
    if validated.allowed { AuthorizedToolRuns(l, backend, SelectTool(l, validated)); }
  }

  /** The calls that take an identifier are those of the tools that require one, and they take
      the one the authoriser tests. */
  lemma DispatchPassesIdentifier(l: Language, tool: string, prompt: Prompt)
    requires prompt.Text? && tool in TOOL_REGISTRY && Dispatch(l, tool, prompt).Some?
    ensures var call, spec := Dispatch(l, tool, prompt).value, TOOL_REGISTRY[tool];
            && (spec.needsCompanyDeviceId <==> call.CompanyDevice?)
            && (call.CompanyDevice? ==> call.identifier == CompanyIdentifier(l, prompt.tokens))
            && (spec.needsDeviceId <==> call.LatestStatus? || call.TelemetryHistory?)
            && (call.LatestStatus? || call.TelemetryHistory? ==> call.device == DeviceId(prompt.words))
  {}

  // ----- What an answered request runs and passes on -----

  /** The call that a request leads to: the first keyword group that the text matches decides,
      in this order, with defaults at the end of either source's list. */
  ghost predicate Leads(l: Language, p: Prompt, source: string, tool: string, call: Call)
    requires p.Text?
  {
    if source == "company" then
      if p.threshold then tool == "scan_company_threshold" && call == ScanThreshold
      else if p.alert then tool == "get_company_provisional_alerts" && call == ProvisionalAlerts
      else if p.coverage then tool == "get_company_telemetry_coverage" && call == TelemetryCoverage
      else if p.rule then tool == "get_company_rule_readiness" && call == RuleReadiness
      else if p.disconnected then tool == "get_company_disconnected_devices" && call == Disconnected
      else if p.device && p.tokens != [] then
        tool == "get_company_device" && call == CompanyDevice(CompanyIdentifier(l, p.tokens))
      else if p.inventory then tool == "get_company_inventory" && call == Inventory
      else tool == "get_company_fleet_summary" && call == FleetSummary
    else
      if p.history then tool == "get_device_history" && call == TelemetryHistory(DeviceId(p.words))
      else if p.diagnose && (exists k :: 0 <= k < |p.words| && NamesDevice(l.lower(p.words[k]))) then
        tool == "get_device_status" && call == LatestStatus(DeviceId(p.words))
      else tool == "get_fleet_status" && call == LatestDevices
  }

  lemma ChoiceLeads(l: Language, p: Prompt, source: string)
    requires WellFormed(l, p) && p.Text? && source in {"simulator", "company"}
    ensures var tool := ClassifyIntent(l, p, source).1;
            Dispatch(l, tool, p).Some? && Leads(l, p, source, tool, Dispatch(l, tool, p).value)
  {
    if source == "company" { CompanyChoiceLeads(l, p); } else { SimulatorChoiceLeads(l, p); }
  }

  lemma CompanyChoiceLeads(l: Language, p: Prompt)
    requires WellFormed(l, p) && p.Text?
    ensures var tool := ClassifyIntent(l, p, "company").1;
            Dispatch(l, tool, p).Some? && Leads(l, p, "company", tool, Dispatch(l, tool, p).value)
  {
    IdentifiedIffTokens(l, p.tokens);
    IdentifierTestsAgree(l, p.tokens);
  }

  lemma SimulatorChoiceLeads(l: Language, p: Prompt)
    requires p.Text?
    ensures var tool := ClassifyIntent(l, p, "simulator").1;
            Dispatch(l, tool, p).Some? && Leads(l, p, "simulator", tool, Dispatch(l, tool, p).value)
  {
    assert forall k :: 0 <= k < |p.words| ==> l.Lowered(p.words)[k] == l.lower(p.words[k]);
  }

  /** A request runs the call it leads to, once, unless it is denied before; what the call
      returned, sanitised, is what the request passes on, and without anything returned it is
      denied with a note instead. */
  lemma {:induction false} AnswersFromTheCall(l: Language, backend: Backend, prompt: Prompt, source: string)
    requires WellFormed(l, prompt)
    ensures var end := Invoke(l, backend, prompt, source).state;
            if end.denied == None || end.denied == Some(MissingToolEvidence) then
              && prompt.Text?
              && exists tool, call :: && end.executed == [(tool, call)] && Leads(l, prompt, source, tool, call)
                                      && end.output == PassedOn(backend, call)
            else end.executed == [] && end.output == None
  {
    DenialsExactly(l, backend, prompt, source);
    var validated := ValidateRequest(Initial(prompt, source));
    if validated.allowed {
      ChosenToolFits(l, prompt, source);
      IdentifierTestsAgree(l, prompt.tokens);
      ChoiceLeads(l, prompt, source);
      var authorized := AuthorizeTool(l, SelectTool(l, validated));
      if authorized.allowed { RanToolIsValidated(l, backend, authorized); }
    }
  }

  ghost function PassedOn(backend: Backend, call: Call): Option<Value> {
    match backend(call)
    case None => Some(Dict([("error", Str("The authorized tool returned no evidence."))]))
    case Some(result) => Some(Sanitize(Limits(100, 2000), result, 6))
  }

  lemma RanToolIsValidated(l: Language, backend: Backend, s: State)
    requires s.prompt.Text? && RunTool(l, backend, s).Ok? && Dispatch(l, s.tool, s.prompt).Some?
    ensures var ran := RunTool(l, backend, s).state;
            ValidateEvidence(ran).output == PassedOn(backend, Dispatch(l, s.tool, s.prompt).value)
  {
    var call := Dispatch(l, s.tool, s.prompt).value;
    if backend(call).Some? { SanitizeIsIdempotent(EVIDENCE_LIMITS, backend(call).value, MAX_EVIDENCE_DEPTH); }
  }

  /** Evidence validation never changes what the tool node stored, which is the tool's result
      within the evidence bounds. */
  lemma {:induction false} SecondSanitisingIsIdentity(l: Language, backend: Backend, s: State)
    requires s.prompt.Text? && RunTool(l, backend, s).Ok? && RunTool(l, backend, s).state.output.Some?
    ensures var ran := RunTool(l, backend, s).state;
            var call := Dispatch(l, s.tool, s.prompt).value;
            && ValidateEvidence(ran).output == ran.output
            && backend(call).Some?
            && ran.output.value == Sanitize(EVIDENCE_LIMITS, backend(call).value, MAX_EVIDENCE_DEPTH)
            && Bounded(EVIDENCE_LIMITS, ran.output.value, MAX_EVIDENCE_DEPTH)
  {
    var v := backend(Dispatch(l, s.tool, s.prompt).value).value;
    SanitizeIsIdempotent(EVIDENCE_LIMITS, v, MAX_EVIDENCE_DEPTH);
    SanitizedIsBounded(EVIDENCE_LIMITS, v, MAX_EVIDENCE_DEPTH);
  }
}
