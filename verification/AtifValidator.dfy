/**
  * The validator that runs before a trajectory is published (code_auditor/trajectory.py): loops that
  * collect problems. It reports none exactly for the conforming documents.
  */
module AtifValidator {
  import opened Atif

  type Problems = seq<string>

  function When(bad: bool, problem: string): Problems {
    if bad then [problem] else []
  }

  method ValidateRef(v: Value) returns (problems: Problems)
    ensures problems == [] <==> ConformsRef(v)
  {
    if !v.Obj? {
      return ["reference must be an object"];
    }
    var ref := v.fields;
    problems := When(!IsTruthy(Get(ref, TrajectoryId)) && !IsTruthy(Get(ref, TrajectoryPath)),
                     "must set trajectory_id or trajectory_path");
    problems := problems + When(!(ref.Keys <= REF_FIELDS), "reference has unknown fields");
    for i := 0 to 3
      invariant problems == [] <==>
                && (IsTruthy(Get(ref, TrajectoryId)) || IsTruthy(Get(ref, TrajectoryPath)))
                && ref.Keys <= REF_FIELDS
                && (i > 0 ==> IsAbsentOr(Get(ref, TrajectoryId), Get(ref, TrajectoryId).Str?))
                && (i > 1 ==> IsAbsentOr(Get(ref, TrajectoryPath), Get(ref, TrajectoryPath).Str?))
                && (i > 2 ==> IsAbsentOr(Get(ref, SessionId), Get(ref, SessionId).Str?))
    {
      var value := Get(ref, [TrajectoryId, TrajectoryPath, SessionId][i]);
      problems := problems + When(!value.Null? && !value.Str?, "must be a string when present");
    }
  }

  method ValidateResult(v: Value, callIds: set<string>) returns (problems: Problems)
    ensures problems == [] <==> ConformsResult(v, callIds)
  {
    if !v.Obj? {
      return ["result must be an object"];
    }
    var result := v.fields;
    var source := Get(result, SourceCallId);
    problems := [];
    if !source.Null? {
      if !source.Str? {
        problems := ["source_call_id must be a string"];
      } else if source.s !in callIds {
        problems := ["source_call_id does not match a tool_call"];
      }
    }
    problems := problems + When(!Get(result, Content).Null? && !IsText(Get(result, Content)), "content must be text");
    problems := problems + When(!(result.Keys <= RESULT_FIELDS), "result has unknown fields");
    var refs := Get(result, SubagentRef);
    if !refs.Null? {
      if !refs.List? {
        problems := problems + ["subagent_trajectory_ref must be an array"];
        return;
      }
      ghost var before := problems;
      for i := 0 to |refs.items|
        invariant problems == [] <==> before == [] && forall k :: 0 <= k < i ==> ConformsRef(refs.items[k])
      {
        var more := ValidateRef(refs.items[i]);
        problems := problems + more;
      }
    }
  }

  method ValidateCall(v: Value, seen: set<string>) returns (problems: Problems, callIds: set<string>)
    ensures callIds == seen + if CallId(v).Some? then {CallId(v).value} else {}
    ensures problems == [] <==> ConformsCall(v) && CallId(v).Some? && CallId(v).value !in seen
  {
    problems, callIds := [], seen;
    if !v.Obj? {
      problems := ["tool call must be an object"];
      return;
    }
    var call := v.fields;
    var id := Get(call, ToolCallId);
    if !IsNonEmptyText(id) {
      problems := ["tool_call_id must be a non-empty string"];
    } else if id.s in seen {
      problems := ["tool_call_id must be unique in the step"];
    } else {
      callIds := seen + {id.s};
    }
    problems := problems + When(!IsNonEmptyText(Get(call, FunctionName)), "function_name must be a non-empty string");
    problems := problems + When(!Get(call, Arguments).Obj?, "arguments must be a JSON object");
    problems := problems + When(!(call.Keys <= CALL_FIELDS), "tool call has unknown fields");
  }

  /** The calls of one step; the ids that results may refer to are collected on the way. */
  method ValidateCalls(calls: seq<Value>) returns (problems: Problems, callIds: set<string>)
    ensures callIds == CallIds(calls)
    ensures problems == [] <==> ConformsCalls(calls)
  {
    problems, callIds := [], {};
    for i := 0 to |calls|
      invariant callIds == CallIds(calls[..i])
      invariant problems == [] <==> ConformsCalls(calls[..i])
    {
      assert calls[..i + 1] == calls[..i] + [calls[i]];
      CallsGrow(calls[..i], calls[i]);
      var more;
      more, callIds := ValidateCall(calls[i], callIds);
      problems := problems + more;
    }
    assert calls[..|calls|] == calls;
  }

  lemma {:induction false} CallsGrow(calls: seq<Value>, call: Value)
    ensures CallIds(calls + [call]) == CallIds(calls) + if CallId(call).Some? then {CallId(call).value} else {}
    ensures ConformsCalls(calls + [call]) <==>
            ConformsCalls(calls) && ConformsCall(call) && CallId(call).Some? && CallId(call).value !in CallIds(calls)
  {
    var more := calls + [call];
    assert forall i :: 0 <= i < |calls| ==> more[i] == calls[i];
    assert more[|calls|] == call;
    assert forall c :: c in more <==> c in calls || c == call;
    if ConformsCalls(more) {
      assert forall i, j :: 0 <= i < j < |calls| ==> CallId(more[i]) != CallId(more[j]);
    }
    if ConformsCalls(calls) && ConformsCall(call) && CallId(call).value !in CallIds(calls) {
      forall i, j | 0 <= i < j < |more|
        ensures CallId(more[i]) != CallId(more[j])
      {
        if j == |calls| {
          assert calls[i] in calls;
        }
      }
    }
  }

  method ValidateMetrics(v: Value) returns (problems: Problems)
    ensures problems == [] <==> ConformsMetrics(v)
  {
    if v.Null? {
      return [];
    }
    if !v.Obj? {
      return ["metrics must be an object"];
    }
    var m := v.fields;
    problems := When(!(m.Keys <= METRICS_FIELDS), "metrics has unknown fields");
    problems := problems + When(!Get(m, PromptTokens).Null? && !Get(m, PromptTokens).Int?, "must be an integer");
    problems := problems + When(!Get(m, CompletionTokens).Null? && !Get(m, CompletionTokens).Int?,
        "must be an integer");
    problems := problems + When(!Get(m, CachedTokens).Null? && !Get(m, CachedTokens).Int?, "must be an integer");
    problems := problems + When(!Get(m, CostUsd).Null? && !IsNumber(Get(m, CostUsd)), "cost_usd must be a number");
    problems := problems + When(!Get(m, Extra).Null? && !Get(m, Extra).Obj?, "extra must be an object");
  }

  method ValidateObservation(step: Dict, callIds: set<string>) returns (problems: Problems)
    requires callIds == CallIds(CallsOf(step))
    ensures problems == [] <==> ConformsObservation(step)
  {
    problems := [];
    var observation := Get(step, Observation);
    if observation.Null? {
      return;
    }
    if !observation.Obj? {
      return ["observation must be an object"];
    }
    var results := Get(observation.fields, Results);
    if !results.List? {
      return ["observation.results must be an array"];
    }
    assert ResultsOf(step) == results.items;
    for i := 0 to |results.items|
      invariant problems == [] <==> forall k :: 0 <= k < i ==> ConformsResult(results.items[k], callIds)
    {
      var more := ValidateResult(results.items[i], callIds);
      problems := problems + more;
    }
  }

  method ValidateHeader(step: Dict, index: int) returns (problems: Problems)
    ensures problems == [] <==> ConformsHeader(step, index)
  {
    var source, count := Get(step, Source), Get(step, LlmCallCount);
    var effort, copied, time := Get(step, ReasoningEffort), Get(step, IsCopiedContext), Get(step, Timestamp);
    problems := When(!EqualsInt(Get(step, StepId), index), "step_id must be sequential from 1");
    problems := problems + When(!(step.Keys <= STEP_FIELDS), "step has unknown fields");
    problems := problems + When(!(source.Str? && source.s in {SYSTEM, USER, AGENT}), "unknown source");
    problems := problems + When(!IsText(Get(step, Message)), "message must be a string or an array");
    problems := problems + When(!time.Null? && !time.Str?, "timestamp must be a string");
    problems := problems + When(!effort.Null? && !effort.Str? && !IsNumber(effort), "bad reasoning_effort");
    problems := problems + When(!copied.Null? && !copied.Bool?, "is_copied_context must be a boolean");
    problems := problems + When(!count.Null? && !count.Int?, "llm_call_count must be an integer");
    problems := problems + When(count.Int? && count.i < 0, "llm_call_count must not be negative");
  }

  method ValidateRole(step: Dict) returns (problems: Problems)
    ensures problems == [] <==> ConformsRole(step)
  {
    problems := [];
    if !IsAgentStep(step) {
      problems := When(!Get(step, ModelName).Null?, "model_name is only valid on agent steps")
                  + When(!Get(step, ReasoningEffort).Null?, "reasoning_effort is only valid on agent steps")
                  + When(!Get(step, ReasoningContent).Null?, "reasoning_content is only valid on agent steps")
                  + When(!Get(step, ToolCalls).Null?, "tool_calls is only valid on agent steps")
                  + When(!Get(step, Metrics).Null?, "metrics is only valid on agent steps");
    } else if EqualsInt(Get(step, LlmCallCount), 0) {
      problems := When(!Get(step, Metrics).Null?, "metrics must be absent when llm_call_count is 0")
                  + When(!Get(step, ReasoningContent).Null?,
                      "reasoning_content must be absent when llm_call_count is 0");
    }
  }

  method ValidateStep(step: Dict, index: int) returns (problems: Problems)
    ensures problems == [] <==> ConformsStep(step, index)
  {
    problems := ValidateHeader(step, index);
    var role := ValidateRole(step);
    var calls, callIds := [], {};
    var toolCalls := Get(step, ToolCalls);
    if toolCalls.List? {
      calls, callIds := ValidateCalls(toolCalls.items);
    } else if !toolCalls.Null? {
      calls := ["tool_calls must be an array"];
    }
    assert callIds == CallIds(CallsOf(step));
    var observation := ValidateObservation(step, callIds);
    var metrics := ValidateMetrics(Get(step, Metrics));
    problems := problems + role + calls + observation + metrics;
  }

  method ValidateAgent(v: Value) returns (problems: Problems)
    ensures problems == [] <==> ConformsAgent(v)
  {
    if !v.Obj? {
      return ["agent must be an object"];
    }
    var a := v.fields;
    problems := When(!IsNonEmptyText(Get(a, AgentName)), "agent.name must be a non-empty string");
    problems := problems + When(!IsNonEmptyText(Get(a, Version)), "agent.version must be a non-empty string");
    problems := problems + When(!Get(a, ModelName).Null? && !Get(a, ModelName).Str?, "model_name must be a string");
    problems := problems + When(!(a.Keys <= AGENT_FIELDS), "agent has unknown fields");
    problems := problems + When(!Get(a, ToolDefinitions).Null? && !Get(a, ToolDefinitions).List?, "must be an array");
    problems := problems + When(!Get(a, Extra).Null? && !Get(a, Extra).Obj?, "agent.extra must be an object");
  }

  method ValidateRoot(d: Dict) returns (problems: Problems)
    ensures problems == [] <==> ConformsRoot(d)
  {
    problems := ValidateAgent(Get(d, Agent));
    problems := problems + When(Get(d, SchemaVersion) != Str(SCHEMA), "unsupported schema_version");
    problems := problems + When(!Get(d, SessionId).Null? && !Get(d, SessionId).Str?, "session_id must be a string");
    problems := problems + When(!Get(d, TrajectoryId).Null? && !Get(d, TrajectoryId).Str?, "must be a string");
    problems := problems + When(!Get(d, Notes).Null? && !Get(d, Notes).Str?, "notes must be a string");
    problems := problems + When(!Get(d, Extra).Null? && !Get(d, Extra).Obj?, "extra must be an object");
    problems := problems + When(!Get(d, ContinuedRef).Null? && !Get(d, ContinuedRef).Str?, "must be a string");
    problems := problems + When(!(d.Keys <= ROOT_FIELDS), "unknown root fields");
  }

  method ValidateFinal(v: Value) returns (problems: Problems)
    ensures problems == [] <==> ConformsFinal(v)
  {
    if v.Null? {
      return [];
    }
    if !v.Obj? {
      return ["final_metrics must be an object"];
    }
    var m := v.fields;
    problems := When(!(m.Keys <= FINAL_FIELDS), "final_metrics has unknown fields");
    problems := problems + When(!Get(m, TotalPromptTokens).Null? && !Get(m, TotalPromptTokens).Int?, "not an integer");
    problems := problems
                + When(!Get(m, TotalCompletionTokens).Null? && !Get(m, TotalCompletionTokens).Int?, "not an integer");
    problems := problems + When(!Get(m, TotalCachedTokens).Null? && !Get(m, TotalCachedTokens).Int?, "not an integer");
    problems := problems + When(!Get(m, TotalSteps).Null? && !Get(m, TotalSteps).Int?, "must be an integer");
    problems := problems + When(!Get(m, TotalCostUsd).Null? && !IsNumber(Get(m, TotalCostUsd)), "must be a number");
    problems := problems + When(!Get(m, Extra).Null? && !Get(m, Extra).Obj?, "extra must be an object");
  }

  method ValidateEmbedded(v: Value) returns (problems: Problems)
    ensures problems == [] <==> ConformsEmbedded(v)
  {
    problems := [];
    if v.Null? {
      return;
    }
    if !v.List? {
      return ["subagent_trajectories must be an array"];
    }
    for i := 0 to |v.items|
      invariant problems == [] <==>
                forall k :: 0 <= k < i ==> v.items[k].Obj? && Get(v.items[k].fields, TrajectoryId).Str?
    {
      var sub := v.items[i];
      problems := problems + When(!sub.Obj? || !Get(sub.fields, TrajectoryId).Str?, "must set trajectory_id");
    }
  }

  /** validate_trajectory: no problems exactly for the conforming documents. */
  method ValidateTrajectory(document: Value) returns (problems: Problems)
    ensures problems == [] <==> Conforms(document)
  {
    if !document.Obj? {
      return ["trajectory must be a JSON object"];
    }
    var d := document.fields;
    problems := ValidateRoot(d);
    var steps := Get(d, Steps);
    if !steps.List? {
      problems := problems + ["steps must be an array"];
    } else {
      problems := problems + When(steps.items == [], "steps must not be empty");
      ghost var before := problems;
      for i := 0 to |steps.items|
        invariant problems == [] <==> before == [] && forall k :: 0 <= k < i ==>
                                        steps.items[k].Obj? && ConformsStep(steps.items[k].fields, k + 1)
      {
        if !steps.items[i].Obj? {
          problems := problems + ["step must be an object"];
        } else {
          var more := ValidateStep(steps.items[i].fields, i + 1);
          problems := problems + more;
        }
      }
    }
    var final := ValidateFinal(Get(d, FinalMetrics));
    var embedded := ValidateEmbedded(Get(d, SubagentTrajectories));
    problems := problems + final + embedded;
  }
}
