/**
  * ATIF v1.7 documents (Harbor RFC 0001) as JSON values, and when a document conforms, rule by rule
  * as code_auditor/trajectory.py checks them. Field names are constructors; any other name is OtherKey.
  */
module Atif {
  import opened Wrappers

  datatype Key =
    | SchemaVersion | SessionId | TrajectoryId | Agent | Steps | Notes | FinalMetrics | ContinuedRef | Extra
    | SubagentTrajectories
    | AgentName | Version | ModelName | ToolDefinitions
    | StepId | Timestamp | Source | ReasoningEffort | Message | ReasoningContent | ToolCalls | Observation | Metrics
    | LlmCallCount | IsCopiedContext
    | ToolCallId | FunctionName | Arguments
    | SourceCallId | Content | SubagentRef | TrajectoryPath | Results
    | PromptTokens | CompletionTokens | CachedTokens | CostUsd | PromptTokenIds | CompletionTokenIds | Logprobs
    | Perplexity | Reward
    | TotalPromptTokens | TotalCompletionTokens | TotalCachedTokens | TotalCostUsd | TotalSteps
    | LabelKey | Delegations | OrphanResult | UnknownSourceCallId | IsErrorKey
    | InputTokens | InputTokensCamel | OutputTokens | OutputTokensCamel | TotalTokens | TotalTokensCamel
    | CacheReadInputTokens | CachedInputTokens | CachedInputTokensCamel
    | CacheWriteInputTokens | CacheCreationInputTokens | CacheCreationInputTokensCamel
    | ReasoningOutputTokens | ReasoningOutputTokensCamel | ReasoningTokens
    | OtherKey(text: string)

  type Dict = map<Key, Value>

  datatype Value =
    | Null
    | Bool(b: bool)
    | Int(i: int)
    | Float(r: real)
    | Str(s: string)
    | List(items: seq<Value>)
    | Obj(fields: Dict)

  const SCHEMA := "ATIF-v1.7"
  const SYSTEM := "system"
  const USER := "user"
  const AGENT := "agent"

  /** dict.get: a missing field and a null field are the same. */
  function Get(d: Dict, k: Key): Value {
    if k in d then d[k] else Null
  }

  /** Python's truth value. */
  predicate IsTruthy(v: Value) {
    match v
    case Null => false
    case Bool(b) => b
    case Int(i) => i != 0
    case Float(r) => r != 0.0
    case Str(s) => s != ""
    case List(items) => items != []
    case Obj(fields) => fields != map[]
  }

  /** Python's ==, between a value and an integer. */
  predicate EqualsInt(v: Value, n: int) {
    match v
    case Bool(b) => n == if b then 1 else 0
    case Int(i) => i == n
    case Float(r) => r == n as real
    case _ => false
  }

  predicate IsNumber(v: Value) {
    v.Int? || v.Float?
  }

  const AGENT_FIELDS: set<Key> := {AgentName, Version, ModelName, ToolDefinitions, Extra}
  const ROOT_FIELDS: set<Key> := {SchemaVersion, SessionId, TrajectoryId, Agent, Steps, Notes, FinalMetrics,
      ContinuedRef,
                                  Extra, SubagentTrajectories}
  const STEP_FIELDS: set<Key> := {StepId, Timestamp, Source, ModelName, ReasoningEffort, Message, ReasoningContent,
                                  ToolCalls, Observation, Metrics, Extra, LlmCallCount, IsCopiedContext}
  const CALL_FIELDS: set<Key> := {ToolCallId, FunctionName, Arguments, Extra}
  const RESULT_FIELDS: set<Key> := {SourceCallId, Content, SubagentRef, Extra}
  const REF_FIELDS: set<Key> := {TrajectoryId, TrajectoryPath, SessionId, Extra}
  const METRICS_FIELDS: set<Key> := {PromptTokens, CompletionTokens, CachedTokens, CostUsd, PromptTokenIds,
                                     CompletionTokenIds, Logprobs, Perplexity, Reward, Extra}
  const FINAL_FIELDS: set<Key> := {TotalPromptTokens, TotalCompletionTokens, TotalCachedTokens, TotalCostUsd,
      TotalSteps,
                                   Extra}

  predicate IsAbsentOr(v: Value, ok: bool) {
    v.Null? || ok
  }

  predicate IsNonEmptyText(v: Value) {
    v.Str? && v.s != ""
  }

  predicate IsText(v: Value) {
    v.Str? || v.List?
  }

  // ----- references, results and calls ----------------------------------------------

  predicate ConformsRef(v: Value) {
    && v.Obj?
    && (IsTruthy(Get(v.fields, TrajectoryId)) || IsTruthy(Get(v.fields, TrajectoryPath)))
    && v.fields.Keys <= REF_FIELDS
    && IsAbsentOr(Get(v.fields, TrajectoryId), Get(v.fields, TrajectoryId).Str?)
    && IsAbsentOr(Get(v.fields, TrajectoryPath), Get(v.fields, TrajectoryPath).Str?)
    && IsAbsentOr(Get(v.fields, SessionId), Get(v.fields, SessionId).Str?)
  }

  predicate ConformsRefs(v: Value) {
    v.Null? || (v.List? && forall i :: 0 <= i < |v.items| ==> ConformsRef(v.items[i]))
  }

  predicate ConformsResult(v: Value, callIds: set<string>) {
    && v.Obj?
    && IsAbsentOr(Get(v.fields, SourceCallId),
                  Get(v.fields, SourceCallId).Str? && Get(v.fields, SourceCallId).s in callIds)
    && IsAbsentOr(Get(v.fields, Content), IsText(Get(v.fields, Content)))
    && v.fields.Keys <= RESULT_FIELDS
    && ConformsRefs(Get(v.fields, SubagentRef))
  }

  predicate ConformsCall(v: Value) {
    && v.Obj?
    && IsNonEmptyText(Get(v.fields, ToolCallId))
    && IsNonEmptyText(Get(v.fields, FunctionName))
    && Get(v.fields, Arguments).Obj?
    && v.fields.Keys <= CALL_FIELDS
  }

  /** The id that a tool call declares, if it is usable. */
  function CallId(v: Value): Option<string> {
    if v.Obj? && IsNonEmptyText(Get(v.fields, ToolCallId)) then Some(Get(v.fields, ToolCallId).s) else None
  }

  function CallIds(calls: seq<Value>): set<string> {
    set c | c in calls && CallId(c).Some? :: CallId(c).value
  }

  predicate HaveDistinctIds(calls: seq<Value>) {
    forall i, j :: 0 <= i < j < |calls| ==> CallId(calls[i]) != CallId(calls[j])
  }

  predicate ConformsCalls(calls: seq<Value>) {
    (forall i :: 0 <= i < |calls| ==> ConformsCall(calls[i])) && HaveDistinctIds(calls)
  }

  // ----- steps ------------------------------------------------------------------------

  predicate ConformsHeader(d: Dict, index: int) {
    && EqualsInt(Get(d, StepId), index)
    && d.Keys <= STEP_FIELDS
    && Get(d, Source).Str? && Get(d, Source).s in {SYSTEM, USER, AGENT}
    && IsText(Get(d, Message))
    && IsAbsentOr(Get(d, Timestamp), Get(d, Timestamp).Str?)
    && IsAbsentOr(Get(d, ReasoningEffort), Get(d, ReasoningEffort).Str? || IsNumber(Get(d, ReasoningEffort)))
    && IsAbsentOr(Get(d, IsCopiedContext), Get(d, IsCopiedContext).Bool?)
    && IsAbsentOr(Get(d, LlmCallCount), Get(d, LlmCallCount).Int? && Get(d, LlmCallCount).i >= 0)
  }

  predicate IsAgentStep(d: Dict) {
    Get(d, Source) == Str(AGENT)
  }

  /** Only agent steps carry agent fields, and steps without a model call carry no metrics or reasoning. */
  predicate ConformsRole(d: Dict) {
    && (!IsAgentStep(d) ==>
          && Get(d, ModelName).Null? && Get(d, ReasoningEffort).Null? && Get(d, ReasoningContent).Null?
          && Get(d, ToolCalls).Null? && Get(d, Metrics).Null?)
    && (IsAgentStep(d) && EqualsInt(Get(d, LlmCallCount), 0) ==>
          Get(d, Metrics).Null? && Get(d, ReasoningContent).Null?)
  }

  function CallsOf(d: Dict): seq<Value> {
    if Get(d, ToolCalls).List? then Get(d, ToolCalls).items else []
  }

  predicate ConformsToolCalls(d: Dict) {
    IsAbsentOr(Get(d, ToolCalls), Get(d, ToolCalls).List? && ConformsCalls(CallsOf(d)))
  }

  /** The results of a step, when its observation has the right shape. */
  function ResultsOf(d: Dict): seq<Value> {
    var o := Get(d, Observation);
    if o.Obj? && Get(o.fields, Results).List? then Get(o.fields, Results).items else []
  }

  predicate ConformsObservation(d: Dict) {
    IsAbsentOr(Get(d, Observation),
               && Get(d, Observation).Obj?
               && Get(Get(d, Observation).fields, Results).List?
               && forall i :: 0 <= i < |ResultsOf(d)| ==> ConformsResult(ResultsOf(d)[i], CallIds(CallsOf(d))))
  }

  predicate ConformsMetrics(v: Value) {
    v.Null? || (v.Obj? && ConformsCounts(v.fields))
  }

  predicate ConformsCounts(m: Dict) {
    && m.Keys <= METRICS_FIELDS
    && IsAbsentOr(Get(m, PromptTokens), Get(m, PromptTokens).Int?)
    && IsAbsentOr(Get(m, CompletionTokens), Get(m, CompletionTokens).Int?)
    && IsAbsentOr(Get(m, CachedTokens), Get(m, CachedTokens).Int?)
    && IsAbsentOr(Get(m, CostUsd), IsNumber(Get(m, CostUsd)))
    && IsAbsentOr(Get(m, Extra), Get(m, Extra).Obj?)
  }

  predicate ConformsStep(d: Dict, index: int) {
    && ConformsHeader(d, index)
    && ConformsRole(d)
    && ConformsToolCalls(d)
    && ConformsObservation(d)
    && ConformsMetrics(Get(d, Metrics))
  }

  // ----- documents ----------------------------------------------------------------------

  predicate ConformsAgent(v: Value) {
    && v.Obj?
    && IsNonEmptyText(Get(v.fields, AgentName)) && IsNonEmptyText(Get(v.fields, Version))
    && IsAbsentOr(Get(v.fields, ModelName), Get(v.fields, ModelName).Str?)
    && v.fields.Keys <= AGENT_FIELDS
    && IsAbsentOr(Get(v.fields, ToolDefinitions), Get(v.fields, ToolDefinitions).List?)
    && IsAbsentOr(Get(v.fields, Extra), Get(v.fields, Extra).Obj?)
  }

  predicate ConformsRoot(d: Dict) {
    && Get(d, SchemaVersion) == Str(SCHEMA)
    && ConformsAgent(Get(d, Agent))
    && IsAbsentOr(Get(d, SessionId), Get(d, SessionId).Str?)
    && IsAbsentOr(Get(d, TrajectoryId), Get(d, TrajectoryId).Str?)
    && IsAbsentOr(Get(d, Notes), Get(d, Notes).Str?)
    && IsAbsentOr(Get(d, Extra), Get(d, Extra).Obj?)
    && IsAbsentOr(Get(d, ContinuedRef), Get(d, ContinuedRef).Str?)
    && d.Keys <= ROOT_FIELDS
  }

  predicate ConformsEmbedded(v: Value) {
    v.Null? || (v.List? && forall i :: 0 <= i < |v.items| ==>
                                         v.items[i].Obj? && Get(v.items[i].fields, TrajectoryId).Str?)
  }

  predicate ConformsFinal(v: Value) {
    v.Null? || (v.Obj? && ConformsTotals(v.fields))
  }

  predicate ConformsTotals(m: Dict) {
    && m.Keys <= FINAL_FIELDS
    && IsAbsentOr(Get(m, TotalPromptTokens), Get(m, TotalPromptTokens).Int?)
    && IsAbsentOr(Get(m, TotalCompletionTokens), Get(m, TotalCompletionTokens).Int?)
    && IsAbsentOr(Get(m, TotalCachedTokens), Get(m, TotalCachedTokens).Int?)
    && IsAbsentOr(Get(m, TotalSteps), Get(m, TotalSteps).Int?)
    && IsAbsentOr(Get(m, TotalCostUsd), IsNumber(Get(m, TotalCostUsd)))
    && IsAbsentOr(Get(m, Extra), Get(m, Extra).Obj?)
  }

  /** Steps are numbered from one and conform one by one. */
  predicate ConformsSteps(steps: seq<Value>) {
    steps != [] && forall i :: 0 <= i < |steps| ==> steps[i].Obj? && ConformsStep(steps[i].fields, i + 1)
  }

  predicate Conforms(document: Value) {
    && document.Obj?
    && ConformsRoot(document.fields)
    && Get(document.fields, Steps).List? && ConformsSteps(Get(document.fields, Steps).items)
    && ConformsFinal(Get(document.fields, FinalMetrics))
    && ConformsEmbedded(Get(document.fields, SubagentTrajectories))
  }
}
