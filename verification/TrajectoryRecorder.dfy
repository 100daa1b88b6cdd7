/**
  * The mutable recorder (code_auditor/trajectory.py). Every method is tied to the function on its state,
  * so what is proved of whole runs holds of the object.
  */
module TrajectoryRecorder {
  import opened Wrappers
  import opened Atif
  import opened AtifValidator
  import opened RecorderState

  class Recorder {
    const settings: Settings
    var steps: seq<Dict>
    var pending: map<string, nat>
    var lastAgentStep: Option<nat>
    var finalMetrics: Option<Dict>
    var codexTotal: Usage
    var codexPending: Usage
    var codexStep: Option<nat>

    constructor (settings: Settings)
      ensures this.settings == settings && State() == FRESH
    {
      this.settings := settings;
      steps, pending, lastAgentStep, finalMetrics := [], map[], None, None;
      codexTotal, codexPending, codexStep := map[], map[], None;
    }

    function State(): State
      reads this
    {
      RecorderState.State(steps, pending, lastAgentStep, finalMetrics, codexTotal, codexPending, codexStep)
    }

    // ----- step builders -----------------------------------------------------------

    method Append(d: Dict) returns (id: nat)
      modifies this`steps
      ensures State() == AddStep(old(State()), d) && id == |steps|
    {
      id := |steps| + 1;
      steps := steps + [d[StepId := Int(id)]];
    }

    method System(time: string, message: string, extra: Dict) returns (id: nat)
      modifies this`steps
      ensures State() == AddStep(old(State()), PlainStep(SYSTEM, time, message, extra)) && id == |steps|
    {
      id := Append(PlainStep(SYSTEM, time, message, extra));
    }

    method User(time: string, message: string, extra: Dict) returns (id: nat)
      modifies this`steps
      ensures State() == AddStep(old(State()), PlainStep(USER, time, message, extra)) && id == |steps|
    {
      id := Append(PlainStep(USER, time, message, extra));
    }

    method BuildCalls(raw: seq<Call>) returns (calls: seq<Value>)
      ensures calls == CallValues(raw)
    {
      calls := [];
      for i := 0 to |raw|
        invariant |calls| == i && forall j :: 0 <= j < i ==> calls[j] == raw[j].Value()
      {
        calls := calls + [raw[i].Value()];
      }
    }

    method Register(calls: seq<Call>, id: nat)
      modifies this`pending
      ensures pending == old(pending) + AllAt(IdsOf(calls), id)
    {
      var before := pending;
      assert pending == before + AllAt(IdsOf(calls[..0]), id);
      for i := 0 to |calls|
        invariant pending == before + AllAt(IdsOf(calls[..i]), id)
      {
        pending := pending[calls[i].Id() := id];
        OneMoreCall(before, calls, i, id);
      }
      assert calls[..|calls|] == calls;
    }

    method AgentStep(a: AgentArgs) returns (id: nat)
      modifies this
      ensures State() == RecorderState.AgentStep(old(State()), settings, a) && id == |old(steps)| + 1
    {
      var calls := BuildCalls(a.calls);
      id := Append(StepWithCalls(settings, a, calls));
      lastAgentStep := Some(id);
      Register(a.calls, id);
    }

    method ToolResult(r: ResultArgs)
      modifies this
      ensures State() == RecorderState.ToolResult(old(State()), r)
    {
      var target := 0;
      if r.callId in pending {
        target := pending[r.callId];
        pending := pending - {r.callId};
      } else {
        assert pending - {r.callId} == pending;
      }
      if 1 <= target <= |steps| {
        steps := steps[target - 1 := AddResult(steps[target - 1], MatchedResult(r))];
      } else {
        var _ := Append(AddResult(OrphanStep(r.time), OrphanedResult(r)));
      }
    }

    method Deterministic(a: AgentArgs, results: seq<ResultArgs>) returns (id: nat)
      modifies this
      ensures State() == RecorderState.Deterministic(old(State()), settings, a, results) && id == |old(steps)| + 1
    {
      id := AgentStep(a.(llmCalls := 0));
      ghost var begun := State();
      for i := 0 to |results|
        invariant State() == ToolResults(begun, results[..i])
      {
        ToolResult(results[i]);
        assert results[..i + 1][..i] == results[..i];
      }
      assert results[..|results|] == results;
    }

    // ----- delegations -----------------------------------------------------------------

    /** The index of the first step that refers to the path, or the number of steps. */
    method FindReferring(path: string) returns (i: nat)
      ensures i == FirstReferring(steps, path)
    {
      i := 0;
      while i < |steps|
        invariant i <= |steps| && forall k :: 0 <= k < i ==> !StepRefersTo(steps[k], path)
      {
        var found := SearchStep(steps[i], path);
        if found {
          break;
        }
        i := i + 1;
      }
      FirstIsUnique(steps, path, i);
    }

    method SearchStep(d: Dict, path: string) returns (found: bool)
      ensures found <==> StepRefersTo(d, path)
    {
      var results := ResultsOf(d);
      for j := 0 to |results|
        invariant forall i :: 0 <= i < j ==> !ResultRefersTo(results[i], path)
      {
        var refs := RefsOfResult(results[j]);
        for k := 0 to |refs|
          invariant forall i :: 0 <= i < k ==> !RefersTo(refs[i], path)
        {
          if RefersTo(refs[k], path) {
            assert ResultRefersTo(results[j], path);
            return true;
          }
        }
      }
      return false;
    }

    method AddSubagent(a: SubagentArgs) returns (id: nat)
      modifies this
      ensures State() == RecorderState.AddSubagent(old(State()), settings, a)
      ensures id == FirstReferring(old(steps), a.path) + 1
    {
      var i := FindReferring(a.path);
      if i < |steps| {
        steps := steps[i := Bump(steps[i])];
        return i + 1;
      }
      id := Deterministic(DelegationCall(a), [DelegationResult(settings, a)]);
    }

    // ----- metrics ---------------------------------------------------------------------

    method Merge(existing: Dict, m: Dict) returns (merged: Dict)
      ensures merged == MergeMetrics(existing, m)
    {
      merged := existing;
      var todo := m.Keys;
      while todo != {}
        invariant todo <= m.Keys
        invariant forall k :: IsMergedAt(merged, existing, m, todo, k)
        decreases |todo|
      {
        var k :| k in todo;
        ghost var before := merged;
        if Replaces(existing, m, k) {
          merged := merged[k := MergedValue(existing, m, k)];
        }
        forall x
          ensures IsMergedAt(merged, existing, m, todo - {k}, x)
        {
          assert IsMergedAt(before, existing, m, todo, x);
        }
        todo := todo - {k};
      }
      AllMerged(merged, existing, m);
    }

    method RecordStepMetrics(id: Option<nat>, usage: Option<Dict>, cost: Option<real>, extra: Dict)
      modifies this`steps
      ensures State() == RecorderState.RecordStepMetrics(old(State()), id, usage, cost, extra)
    {
      var m := StepMetrics(usage, cost, extra);
      if m == map[] {
        return;
      }
      var target := MetricsTarget(State(), id);
      if target.None? {
        return;
      }
      var d := steps[target.value - 1];
      if Get(d, Metrics).Obj? {
        var merged := Merge(d[Metrics].fields, m);
        steps := steps[target.value - 1 := d[Metrics := Obj(merged)]];
      } else {
        steps := steps[target.value - 1 := d[Metrics := Obj(m)]];
      }
    }

    method RecordUsage(usage: Option<Dict>, cost: Option<real>)
      modifies this`steps
      ensures State() == RecorderState.RecordStepMetrics(old(State()), old(lastAgentStep), usage, cost, map[])
    {
      RecordStepMetrics(lastAgentStep, usage, cost, map[]);
    }

    method FlushUsage()
      modifies this
      ensures State() == RecorderState.FlushUsage(old(State()))
    {
      if codexPending == map[] || codexStep.None? {
        return;
      }
      var taken := codexPending;
      codexPending := map[];
      RecordStepMetrics(codexStep, Some(AsReport(taken)), None, map[]);
    }

    method Collect(delta: Usage)
      modifies this`codexPending
      ensures codexPending == AddUsage(old(codexPending), delta)
    {
      var before := codexPending;
      var todo := delta.Keys;
      while todo != {}
        invariant todo <= delta.Keys
        invariant forall c :: IsCollectedAt(codexPending, before, delta, todo, c)
        decreases |todo|
      {
        var c :| c in todo;
        ghost var earlier := codexPending;
        assert IsCollectedAt(earlier, before, delta, todo, c);
        codexPending := codexPending[c := At(codexPending, c) + delta[c]];
        OneMoreCollected(earlier, codexPending, before, delta, todo, c);
        todo := todo - {c};
      }
      AllCollected(codexPending, before, delta);
    }

    method RecordCodexUsage(usage: Dict)
      modifies this
      ensures State() == CodexUsage(old(State()), usage)
    {
      var current := UsageNumbers(usage);
      ObserveTotals(current);
    }

    method ObserveTotals(current: Usage)
      modifies this
      ensures State() == Observe(old(State()), current)
    {
      var delta := UsageDelta(current, codexTotal);
      codexTotal := current;
      Collect(delta);
      FlushUsage();
    }

    method AddTurn(a: TurnArgs)
      modifies this
      ensures State() == RecorderState.AddTurn(old(State()), settings, a)
    {
      var id := AgentStep(TurnStep(a));
      codexStep := Some(id);
      FlushUsage();
    }

    method CompleteTurn(a: TurnArgs)
      modifies this
      ensures State() == CodexTurn(old(State()), settings, a)
    {
      if a.usage.Some? {
        RecordCodexUsage(a.usage.value);
      }
      if a.message != "" || a.reasoning != "" || codexPending != map[] {
        AddTurn(a);
      }
    }

    // ----- finishing -------------------------------------------------------------------

    method SumMetric(k: Key) returns (total: Value)
      ensures total == Total(steps, k)
    {
      total := Null;
      for i := 0 to |steps|
        invariant total == Total(steps[..i], k)
      {
        var v := MetricOf(steps[i], k);
        assert steps[..i + 1][..i] == steps[..i];
        if IsNumber(v) {
          total := if total.Null? then v else AddValues(total, v);
        }
      }
      assert steps[..|steps|] == steps;
    }

    method Finish(usageTotals: Dict)
      modifies this
      ensures State() == RecorderState.Finish(old(State()), usageTotals)
    {
      var numbered: seq<Dict> := [];
      for i := 0 to |steps|
        invariant |numbered| == i && forall j :: 0 <= j < i ==> numbered[j] == steps[j][StepId := Int(j + 1)]
      {
        numbered := numbered + [steps[i][StepId := Int(i + 1)]];
      }
      assert numbered == Renumbered(steps);
      steps := numbered;
      var prompt := SumMetric(PromptTokens);
      var completion := SumMetric(CompletionTokens);
      var cached := SumMetric(CachedTokens);
      var cost := SumMetric(CostUsd);
      var own := Compact(map[TotalPromptTokens := prompt, TotalCompletionTokens := completion,
                             TotalCachedTokens := cached,
                             TotalCostUsd := if cost.Null? then Null else Float(AsReal(cost)),
                             TotalSteps := Int(|steps|)]);
      finalMetrics := Some(Override(own, usageTotals));
    }

    // ----- publication -----------------------------------------------------------------

    method ToDict() returns (document: Value)
      ensures document == ToDocument(State(), settings)
    {
      var written: seq<Value> := [];
      for i := 0 to |steps|
        invariant |written| == i && forall j :: 0 <= j < i ==> written[j] == Obj(StepOut(steps[j], j + 1))
      {
        written := written + [Obj(StepOut(steps[i], i + 1))];
      }
      assert written == StepsOut(steps);
      document := DocumentOf(State(), settings, written);
    }

    /** A document is published under its own name only when it passes the validator. */
    method Write() returns (document: Value, published: bool)
      ensures document == ToDocument(State(), settings)
      ensures published <==> Conforms(document)
    {
      document := ToDict();
      var problems := ValidateTrajectory(document);
      published := problems == [];
    }
  }

  lemma {:induction false} OneMoreCall(pending: map<string, nat>, calls: seq<Call>, i: nat, n: nat)
    requires i < |calls|
    ensures pending + AllAt(IdsOf(calls[..i + 1]), n) == (pending + AllAt(IdsOf(calls[..i]), n))[calls[i].Id() := n]
  {
    assert calls[..i + 1] == calls[..i] + [calls[i]];
    assert IdsOf(calls[..i + 1]) == IdsOf(calls[..i]) + {calls[i].Id()};
  }

  /** A collection in progress: the counters still to do are as they were. */
  predicate IsCollectedAt(pending: Usage, before: Usage, delta: Usage, todo: set<Counter>, c: Counter) {
    if c in delta && c !in todo then c in pending && pending[c] == At(before, c) + delta[c]
    else (c in pending <==> c in before) && (c in before ==> pending[c] == before[c])
  }

  lemma {:induction false} OneMoreCollected(
      earlier: Usage, pending: Usage, before: Usage, delta: Usage, todo: set<Counter>, c: Counter)
    requires c in todo && c in delta && forall x :: IsCollectedAt(earlier, before, delta, todo, x)
    requires pending == earlier[c := At(earlier, c) + delta[c]]
    ensures forall x :: IsCollectedAt(pending, before, delta, todo - {c}, x)
  {
    var rest := todo - {c};
    forall x
      ensures IsCollectedAt(pending, before, delta, rest, x)
    {
      assert IsCollectedAt(earlier, before, delta, todo, x);
    }
  }

  lemma {:induction false} AllCollected(pending: Usage, before: Usage, delta: Usage)
    requires forall c :: IsCollectedAt(pending, before, delta, {}, c)
    ensures pending == AddUsage(before, delta)
  {
    var expected := AddUsage(before, delta);
    forall c
      ensures c in pending <==> c in expected
      ensures c in pending ==> pending[c] == expected[c]
    {
      assert IsCollectedAt(pending, before, delta, {}, c);
    }
  }

  /** A merge in progress: the keys still to do are as they were. */
  predicate IsMergedAt(merged: Dict, existing: Dict, m: Dict, todo: set<Key>, k: Key) {
    if k in m && k !in todo && Replaces(existing, m, k) then k in merged && merged[k] == MergedValue(existing, m, k)
    else (k in merged <==> k in existing) && (k in existing ==> merged[k] == existing[k])
  }

  lemma {:induction false} AllMerged(merged: Dict, existing: Dict, m: Dict)
    requires forall k :: IsMergedAt(merged, existing, m, {}, k)
    ensures merged == MergeMetrics(existing, m)
  {
    var expected := MergeMetrics(existing, m);
    forall k
      ensures k in merged <==> k in expected
      ensures k in merged ==> merged[k] == expected[k]
    {
      assert IsMergedAt(merged, existing, m, {}, k);
    }
  }

  /** There is only one first step that refers to a path. */
  lemma {:induction false} FirstIsUnique(steps: seq<Dict>, path: string, i: nat)
    requires i <= |steps| && (forall k :: 0 <= k < i ==> !StepRefersTo(steps[k], path))
    requires i < |steps| ==> StepRefersTo(steps[i], path)
    ensures i == FirstReferring(steps, path)
  {
  }
}
