/**
  * What each recorder call does to the recorded trajectory (code_auditor/trajectory.py), as functions
  * on the recorder's state. Texts arrive already cleaned and bounded, and generated ids and times are
  * parameters.
  */
module RecorderState {
  import opened Wrappers
  import opened Atif

  type NonEmpty = s: string | s != "" witness "id"

  datatype Settings = Settings(
    agentName: string, version: string, model: string, effort: string, sessionId: string, trajectoryId: NonEmpty,
    extra: Dict, notes: string)

  /** The fields that recorder calls change. Step ids count from one. */
  datatype State = State(
    steps: seq<Dict>, pending: map<string, nat>, lastAgentStep: Option<nat>, finalMetrics: Option<Dict>,
    codexTotal: Usage, codexPending: Usage, codexStep: Option<nat>)

  const FRESH := State([], map[], None, None, map[], map[], None)

  // ----- building dictionaries -------------------------------------------------------

  /** A dictionary without its null fields: a field that is set only when there is something to set. */
  function Compact(d: Dict): (r: Dict)
    ensures forall x :: Get(r, x) == Get(d, x)
    ensures r.Keys <= d.Keys
  {
    map k | k in d && d[k] != Null :: d[k]
  }

  function TextOrNull(s: string): Value {
    if s == "" then Null else Str(s)
  }

  function ObjOrNull(d: Dict): Value {
    if d == map[] then Null else Obj(d)
  }

  datatype Call = Call(id: string, generated: NonEmpty, function_: string, arguments: Dict, extra: Option<Dict>)
  {
    /** The id of the call; a missing one is generated. */
    function Id(): NonEmpty {
      if id != "" then id else generated
    }

    function Value(): Value {
      Obj(Compact(map[
                    ToolCallId := Str(Id()), FunctionName := Str(if function_ != "" then function_ else "unknown"),
                    Arguments := Obj(arguments), Extra := if extra.Some? then Obj(extra.value) else Null]))
    }
  }

  function CallValues(calls: seq<Call>): (vs: seq<Value>)
    ensures |vs| == |calls| && forall i :: 0 <= i < |calls| ==> vs[i] == calls[i].Value()
  {
    seq(|calls|, i requires 0 <= i < |calls| => calls[i].Value())
  }

  datatype AgentArgs = AgentArgs(
    time: string, message: string, calls: seq<Call>, reasoning: string, model: string, effort: Option<string>,
    llmCalls: nat, extra: Dict)

  // ----- steps ---------------------------------------------------------------------------

  function PlainStep(source: string, time: string, message: string, extra: Dict): Dict {
    Compact(map[Source := Str(source), Message := Str(message), Timestamp := Str(time), Extra := ObjOrNull(extra)])
  }

  function StepFields(s: Settings, a: AgentArgs, calls: seq<Value>): Dict {
    map[Source := Str(AGENT),
        Message := Str(a.message),
        Timestamp := Str(a.time),
        ModelName := TextOrNull(if a.model != "" then a.model else s.model),
        ReasoningEffort := TextOrNull(if a.effort.Some? then a.effort.value else s.effort),
        ReasoningContent := if a.llmCalls == 0 then Null else TextOrNull(a.reasoning),
        ToolCalls := if calls == [] then Null else List(calls),
        LlmCallCount := Int(a.llmCalls),
        Extra := ObjOrNull(a.extra)]
  }

  function StepWithCalls(s: Settings, a: AgentArgs, calls: seq<Value>): Dict {
    Compact(StepFields(s, a, calls))
  }

  function AgentDict(s: Settings, a: AgentArgs): Dict {
    StepWithCalls(s, a, CallValues(a.calls))
  }

  function AddStep(st: State, d: Dict): State {
    st.(steps := st.steps + [d[StepId := Int(|st.steps| + 1)]])
  }

  function IdsOf(calls: seq<Call>): set<string> {
    set c | c in calls :: c.Id()
  }

  function AllAt(ids: set<string>, n: nat): map<string, nat> {
    map id | id in ids :: n
  }

  /** agent_step: append the step and register its calls as pending. */
  function AgentStep(st: State, s: Settings, a: AgentArgs): State {
    var n := |st.steps| + 1;
    AddStep(st, AgentDict(s, a)).(lastAgentStep := Some(n), pending := st.pending + AllAt(IdsOf(a.calls), n))
  }

  // ----- tool results ------------------------------------------------------------------------

  datatype ResultArgs = ResultArgs(
    time: string, callId: string, content: string, spill: Dict, isError: bool, extra: Dict, refs: seq<Dict>)

  function RefValues(refs: seq<Dict>): (vs: seq<Value>)
    ensures |vs| == |refs| && forall i :: 0 <= i < |refs| ==> vs[i] == Obj(refs[i])
  {
    seq(|refs|, i requires 0 <= i < |refs| => Obj(refs[i]))
  }

  function ResultExtra(r: ResultArgs): Dict {
    r.spill + (if r.isError then map[IsErrorKey := Bool(true)] else map[]) + r.extra
  }

  function RefsField(r: ResultArgs): Value {
    if r.refs == [] then Null else List(RefValues(r.refs))
  }

  /** A result in the step that declared its call. */
  function MatchedResult(r: ResultArgs): Value {
    Obj(Compact(map[SourceCallId := Str(r.callId), Content := Str(r.content), SubagentRef := RefsField(r),
                    Extra := ObjOrNull(ResultExtra(r))]))
  }

  /** A result whose call is unknown names the call in its extra field instead. */
  function OrphanedResult(r: ResultArgs): Value {
    Obj(Compact(map[Content := Str(r.content), SubagentRef := RefsField(r),
                    Extra := Obj(ResultExtra(r)[UnknownSourceCallId := Str(r.callId)])]))
  }

  function AddResult(d: Dict, result: Value): Dict {
    var rest := if Get(d, Observation).Obj? then d[Observation].fields else map[];
    d[Observation := Obj(rest[Results := List(ResultsOf(d) + [result])])]
  }

  function OrphanStep(time: string): Dict {
    map[Source := Str(AGENT), Message := Str(""), Timestamp := Str(time), LlmCallCount := Int(0),
        Extra := Obj(map[OrphanResult := Bool(true)])]
  }

  /** tool_result: attach to the pending step, or keep the result in a step of its own. */
  function ToolResult(st: State, r: ResultArgs): State {
    var target := if r.callId in st.pending then st.pending[r.callId] else 0;
    var popped := st.(pending := st.pending - {r.callId});
    if 1 <= target <= |st.steps| then
      popped.(steps := st.steps[target - 1 := AddResult(st.steps[target - 1], MatchedResult(r))])
    else AddStep(popped, AddResult(OrphanStep(r.time), OrphanedResult(r)))
  }

  function ToolResults(st: State, rs: seq<ResultArgs>): State {
    if rs == [] then st else ToolResult(ToolResults(st, rs[..|rs| - 1]), rs[|rs| - 1])
  }

  /** deterministic: a step without a model call, with its results. */
  function Deterministic(st: State, s: Settings, a: AgentArgs, rs: seq<ResultArgs>): State {
    ToolResults(AgentStep(st, s, a.(llmCalls := 0)), rs)
  }

  // ----- delegations ----------------------------------------------------------------------------

  function RefsOfResult(v: Value): seq<Value> {
    if v.Obj? && Get(v.fields, SubagentRef).List? then Get(v.fields, SubagentRef).items else []
  }

  predicate RefersTo(ref: Value, path: string) {
    ref.Obj? && Get(ref.fields, TrajectoryPath) == Str(path)
  }

  predicate ResultRefersTo(v: Value, path: string) {
    exists k :: 0 <= k < |RefsOfResult(v)| && RefersTo(RefsOfResult(v)[k], path)
  }

  predicate StepRefersTo(d: Dict, path: string) {
    exists j :: 0 <= j < |ResultsOf(d)| && ResultRefersTo(ResultsOf(d)[j], path)
  }

  /** The index of the first step that refers to the path, or the number of steps. */
  function FirstReferring(steps: seq<Dict>, path: string): (i: nat)
    ensures i <= |steps|
    ensures i < |steps| ==> StepRefersTo(steps[i], path)
    ensures forall k :: 0 <= k < i ==> !StepRefersTo(steps[k], path)
  {
    if steps == [] || StepRefersTo(steps[0], path) then 0 else 1 + FirstReferring(steps[1..], path)
  }

  /** How often a step has been delegated to: once, unless its extra field counts more. */
  function DelegationCount(d: Dict): int {
    var e := Get(d, Extra);
    if e.Obj? && Get(e.fields, Delegations).Int? then Get(e.fields, Delegations).i else 1
  }

  function Bump(d: Dict): Dict {
    var rest := if Get(d, Extra).Obj? then d[Extra].fields else map[];
    d[Extra := Obj(rest[Delegations := Int(DelegationCount(d) + 1)])]
  }

  datatype SubagentArgs = SubagentArgs(
    time: string, path: string, title: string, summary: string, trajectoryId: string, callId: NonEmpty)

  function DelegationRef(s: Settings, a: SubagentArgs): Dict {
    Compact(map[TrajectoryPath := Str(a.path), TrajectoryId := TextOrNull(a.trajectoryId),
                SessionId := TextOrNull(s.sessionId)])
  }

  function DelegationCall(a: SubagentArgs): AgentArgs {
    AgentArgs(a.time, "", [Call("", a.callId, "delegate_subagent", map[LabelKey := Str(a.title)], None)], "", "",
        None, 0,
              map[LabelKey := Str(a.title)])
  }

  function DelegationResult(s: Settings, a: SubagentArgs): ResultArgs {
    ResultArgs(a.time, a.callId, a.summary, map[], false, map[], [DelegationRef(s, a)])
  }

  /** add_subagent: a delegation step per child document, and a count of repeated delegations. */
  function AddSubagent(st: State, s: Settings, a: SubagentArgs): State {
    var i := FirstReferring(st.steps, a.path);
    if i < |st.steps| then st.(steps := st.steps[i := Bump(st.steps[i])])
    else Deterministic(st, s, DelegationCall(a), [DelegationResult(s, a)])
  }

  // ----- usage and metrics --------------------------------------------------------------------------

  /** The canonical counters of one provider usage report. */
  datatype Counter = InputC | OutputC | TotalC | CacheReadC | CacheWriteC | ReasoningC | PromptC

  type Usage = map<Counter, real>

  function AsReal(v: Value): real
    requires IsNumber(v)
  {
    if v.Int? then v.i as real else v.r
  }

  /** int() of a float: truncation toward zero. */
  function Truncated(r: real): int {
    if r >= 0.0 then r.Floor else -((-r).Floor)
  }

  /** The first numeric field among several spellings. */
  function Number(usage: Dict, names: seq<Key>): Option<real> {
    if names == [] then None
    else if IsNumber(Get(usage, names[0])) then Some(AsReal(Get(usage, names[0])))
    else Number(usage, names[1..])
  }

  function OrZero(n: Option<real>): real {
    if n.Some? then n.value else 0.0
  }

  function IntOrNull(n: Option<real>): Value {
    if n.Some? then Int(Truncated(n.value)) else Null
  }

  /** The same, but a zero count is left out. */
  function NonZeroOrNull(n: Option<real>): Value {
    if n.Some? && n.value != 0.0 then Int(Truncated(n.value)) else Null
  }

  function MetricsFromUsage(usage: Dict): Dict {
    var prompt := Number(usage, [PromptTokens, TotalPromptTokens]);
    var input := Number(usage, [InputTokens, InputTokensCamel]);
    var cacheRead := Number(usage, [CacheReadInputTokens, CachedInputTokensCamel, CachedTokens]);
    var cacheWrite :=
      Number(usage, [CacheCreationInputTokens, CacheCreationInputTokensCamel, CacheWriteInputTokens]);
    var output := Number(usage, [OutputTokens, OutputTokensCamel, CompletionTokens]);
    var reasoning := Number(usage, [ReasoningOutputTokensCamel, ReasoningOutputTokens, ReasoningTokens]);
    var promptTotal := if prompt.Some? then prompt
                       else if input.Some? then Some(input.value + OrZero(cacheRead) + OrZero(cacheWrite)) else None;
    var extras := Compact(map[CacheCreationInputTokens := NonZeroOrNull(cacheWrite),
                              ReasoningTokens := NonZeroOrNull(reasoning)]);
    Compact(map[PromptTokens := IntOrNull(promptTotal), CompletionTokens := IntOrNull(output),
                CachedTokens := IntOrNull(cacheRead), Extra := ObjOrNull(extras)])
  }

  function StepMetrics(usage: Option<Dict>, cost: Option<real>, extra: Dict): Dict {
    var m := if usage.Some? then MetricsFromUsage(usage.value) else map[];
    var priced := if cost.Some? then m[CostUsd := Float(cost.value)] else m;
    if extra == map[] then priced else
      priced[Extra := Obj((if Get(priced, Extra).Obj? then priced[Extra].fields else map[]) + extra)]
  }

  /** The newest figure replaces the previous one; extra fields are merged. */
  function MergeMetrics(existing: Dict, m: Dict): Dict {
    existing + map k | k in m && Replaces(existing, m, k) :: MergedValue(existing, m, k)
  }

  function MergedValue(existing: Dict, m: Dict, k: Key): Value
    requires k in m
  {
    if k == Extra && m[k].Obj? then Obj((if Get(existing, Extra).Obj? then existing[Extra].fields else map[])
        + m[k].fields)
    else m[k]
  }

  predicate Replaces(existing: Dict, m: Dict, k: Key)
    requires k in m
  {
    (k == Extra && m[k].Obj?) || (IsNumber(m[k]) && IsNumber(Get(existing, k))) || k !in existing
  }

  function StepAt(st: State, id: Option<nat>): Option<Dict> {
    if id.Some? && 1 <= id.value <= |st.steps| then Some(st.steps[id.value - 1]) else None
  }

  predicate IsDeterministicStep(d: Dict) {
    EqualsInt(Get(d, LlmCallCount), 0)
  }

  /** The step that a usage report goes to: the named one, else the last agent step, if it made a model call. */
  function MetricsTarget(st: State, id: Option<nat>): Option<nat> {
    var named := if id.Some? && id.value != 0 then id else st.lastAgentStep;
    if StepAt(st, named).Some? && !IsDeterministicStep(StepAt(st, named).value) then named
    else if StepAt(st, st.lastAgentStep).Some? && !IsDeterministicStep(StepAt(st, st.lastAgentStep).value)
    then st.lastAgentStep else None
  }

  function PutMetrics(d: Dict, m: Dict): Dict {
    d[Metrics := if Get(d, Metrics).Obj? then Obj(MergeMetrics(d[Metrics].fields, m)) else Obj(m)]
  }

  /** Put figures on the step they belong to, if there are any and it exists. */
  function Report(st: State, id: Option<nat>, m: Dict): State {
    var target := MetricsTarget(st, id);
    if m == map[] || target.None? then st else
      st.(steps := st.steps[target.value - 1 := PutMetrics(st.steps[target.value - 1], m)])
  }

  /** record_step_metrics */
  function RecordStepMetrics(st: State, id: Option<nat>, usage: Option<Dict>, cost: Option<real>, extra: Dict): State {
    Report(st, id, StepMetrics(usage, cost, extra))
  }

  // ----- Codex usage: cumulative totals, several per turn -------------------------------------------

  function CounterFrom(usage: Dict, c: Counter, names: seq<Key>): Usage {
    if Number(usage, names).Some? then map[c := Number(usage, names).value] else map[]
  }

  function At(u: Usage, c: Counter): real {
    if c in u then u[c] else 0.0
  }

  /** _usage_numbers */
  function UsageNumbers(usage: Dict): Usage {
    var u := CounterFrom(usage, InputC, [InputTokens, InputTokensCamel])
             + CounterFrom(usage, OutputC, [OutputTokens, OutputTokensCamel])
             + CounterFrom(usage, TotalC, [TotalTokens, TotalTokensCamel])
             + CounterFrom(usage, CacheReadC, [CacheReadInputTokens, CachedInputTokens, CachedInputTokensCamel])
             + CounterFrom(usage, CacheWriteC,
                           [CacheWriteInputTokens, CacheCreationInputTokens, CacheCreationInputTokensCamel])
             + CounterFrom(usage, ReasoningC, [ReasoningOutputTokens, ReasoningOutputTokensCamel]);
    u[PromptC := if TotalC in u && OutputC in u then (if u[TotalC] >= u[OutputC] then u[TotalC] - u[OutputC] else 0.0)
                 else At(u, InputC) + At(u, CacheReadC) + At(u, CacheWriteC)]
  }

  /** _usage_delta: a counter that went down has been reset, and counts in full. */
  function UsageDelta(current: Usage, previous: Usage): Usage {
    map c | c in current :: if current[c] - At(previous, c) >= 0.0 then current[c] - At(previous, c) else current[c]
  }

  function AddUsage(a: Usage, b: Usage): Usage {
    a + map c | c in b :: At(a, c) + b[c]
  }

  /** The accumulated counters under their canonical field names. */
  function AsReport(u: Usage): Dict {
    map k | k in {InputTokens, OutputTokens, TotalTokens, CacheReadInputTokens, CacheWriteInputTokens,
                  ReasoningOutputTokens, PromptTokens} && CounterOf(k) in u :: Float(u[CounterOf(k)])
  }

  function CounterOf(k: Key): Counter {
    match k
    case OutputTokens => OutputC
    case TotalTokens => TotalC
    case CacheReadInputTokens => CacheReadC
    case CacheWriteInputTokens => CacheWriteC
    case ReasoningOutputTokens => ReasoningC
    case PromptTokens => PromptC
    case _ => InputC
  }

  function FlushUsage(st: State): State {
    if st.codexPending == map[] || st.codexStep.None? then st else
      RecordStepMetrics(st.(codexPending := map[]), st.codexStep, Some(AsReport(st.codexPending)), None, map[])
  }

  function CodexUsage(st: State, usage: Dict): State {
    Observe(st, UsageNumbers(usage))
  }

  /** New cumulative counters: their growth is collected, and goes to the last message step if there is one. */
  function Observe(st: State, current: Usage): State {
    var pending := AddUsage(st.codexPending, UsageDelta(current, st.codexTotal));
    FlushUsage(st.(codexTotal := current, codexPending := pending))
  }

  datatype TurnArgs = TurnArgs(time: string, message: string, reasoning: string, model: string, usage: Option<Dict>,
      extra: Dict)

  function TurnStep(a: TurnArgs): AgentArgs {
    AgentArgs(a.time, a.message, [], a.reasoning, a.model, None, 1, a.extra)
  }

  /** The step of a Codex turn, and the usage collected so far. */
  function AddTurn(st: State, s: Settings, a: TurnArgs): State {
    FlushUsage(AgentStep(st, s, TurnStep(a)).(codexStep := Some(|st.steps| + 1)))
  }

  /** A completed Codex turn: its usage, and its message step unless it is empty. */
  function CodexTurn(st: State, s: Settings, a: TurnArgs): State {
    var st1 := if a.usage.Some? then CodexUsage(st, a.usage.value) else st;
    if a.message == "" && a.reasoning == "" && st1.codexPending == map[] then st1 else AddTurn(st1, s, a)
  }

  // ----- finishing -----------------------------------------------------------------------------------

  function AddValues(a: Value, b: Value): Value
    requires IsNumber(a) && IsNumber(b)
  {
    if a.Int? && b.Int? then Int(a.i + b.i) else Float(AsReal(a) + AsReal(b))
  }

  function MetricOf(d: Dict, k: Key): Value {
    if Get(d, Metrics).Obj? then Get(d[Metrics].fields, k) else Null
  }

  /** The sum of one metric over all steps that have it, or null when none has. */
  function Total(steps: seq<Dict>, k: Key): (r: Value)
    ensures r.Null? || IsNumber(r)
  {
    if steps == [] then Null else
      var before, v := Total(steps[..|steps| - 1], k), MetricOf(steps[|steps| - 1], k);
      if !IsNumber(v) then before else if before.Null? then v else AddValues(before, v)
  }

  function CostTotal(steps: seq<Dict>): Value {
    var t := Total(steps, CostUsd);
    if t.Null? then Null else Float(AsReal(t))
  }

  /** isinstance(value, (int, float)), which a boolean satisfies. */
  predicate IsNumeric(v: Value) {
    IsNumber(v) || v.Bool?
  }

  function OwnTotals(steps: seq<Dict>): Dict {
    Compact(map[TotalPromptTokens := Total(steps, PromptTokens),
                TotalCompletionTokens := Total(steps, CompletionTokens),
                TotalCachedTokens := Total(steps, CachedTokens),
                TotalCostUsd := CostTotal(steps),
                TotalSteps := Int(|steps|)])
  }

  function Override(own: Dict, usageTotals: Dict): Dict {
    var given := own + map k | k in usageTotals && k != Extra && IsNumeric(usageTotals[k]) :: usageTotals[k];
    if Get(usageTotals, Extra).Obj? && IsTruthy(Get(usageTotals, Extra))
        then given[Extra := usageTotals[Extra]] else given
  }

  /** finish: totals over the steps, overridden by run-level accounting. */
  function FinishTotals(steps: seq<Dict>, usageTotals: Dict): Dict {
    Override(OwnTotals(steps), usageTotals)
  }

  function Renumbered(steps: seq<Dict>): (r: seq<Dict>)
    ensures |r| == |steps| && forall i :: 0 <= i < |steps| ==> r[i] == steps[i][StepId := Int(i + 1)]
  {
    seq(|steps|, i requires 0 <= i < |steps| => steps[i][StepId := Int(i + 1)])
  }

  function Finish(st: State, usageTotals: Dict): State {
    var steps := Renumbered(st.steps);
    st.(steps := steps, finalMetrics := Some(FinishTotals(steps, usageTotals)))
  }

  // ----- the document ---------------------------------------------------------------------------------

  /** One step as it is written: its id first, and no null fields. */
  function StepOut(d: Dict, index: int): Dict {
    (map k | k in d && k != StepId && d[k] != Null :: d[k])[StepId := Int(index)]
  }

  function StepsOut(steps: seq<Dict>): (vs: seq<Value>)
    ensures |vs| == |steps| && forall i :: 0 <= i < |steps| ==> vs[i] == Obj(StepOut(steps[i], i + 1))
  {
    seq(|steps|, i requires 0 <= i < |steps| => Obj(StepOut(steps[i], i + 1)))
  }

  function AgentOut(s: Settings): Dict {
    Compact(map[AgentName := Str(s.agentName), Version := Str(s.version), ModelName := TextOrNull(s.model)])
  }

  function FinalOut(st: State): Dict {
    if st.finalMetrics.Some? && st.finalMetrics.value != map[] then st.finalMetrics.value
    else map[TotalSteps := Int(|st.steps|)]
  }

  function DocumentOf(st: State, s: Settings, steps: seq<Value>): Value {
    Obj(Compact(map[SchemaVersion := Str(SCHEMA), Agent := Obj(AgentOut(s)), Steps := List(steps),
                    FinalMetrics := Obj(FinalOut(st)), SessionId := TextOrNull(s.sessionId),
                    TrajectoryId := Str(s.trajectoryId), Extra := ObjOrNull(s.extra), Notes := TextOrNull(s.notes)]))
  }

  /** to_dict */
  function ToDocument(st: State, s: Settings): Value {
    DocumentOf(st, s, StepsOut(st.steps))
  }
}
