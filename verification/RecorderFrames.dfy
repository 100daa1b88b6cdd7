/**
  * What recorder calls leave alone in steps that are there already (code_auditor/trajectory.py:537-1091):
  * whom a step is from, what it says and asks for, and, unless the call reports usage, its figures.
  */
module RecorderFrames {
  import opened Wrappers
  import opened Atif
  import opened RecorderState
  import opened RecorderInvariant
  import opened RecorderRuns

  /** Results change the observation and finish the number; repeated delegations also change the extra field. */
  predicate IsFramed(k: Key) {
    k != StepId && k != Observation
  }

  /** Steps hold what they held in a field, and new steps have no figures. */
  ghost predicate Keep(steps: seq<Dict>, steps': seq<Dict>, k: Key) {
    |steps| <= |steps'| && forall i :: KeepsAt(steps, steps', k, i)
  }

  predicate KeepsAt(steps: seq<Dict>, steps': seq<Dict>, k: Key, i: int) {
    0 <= i < |steps'| ==>
      if i < |steps| then Get(steps'[i], k) == Get(steps[i], k) else k == Metrics ==> Get(steps'[i], k).Null?
  }

  lemma {:induction false} KeepTogether(a: seq<Dict>, b: seq<Dict>, c: seq<Dict>, k: Key)
    requires Keep(a, b, k) && Keep(b, c, k)
    ensures Keep(a, c, k)
  {
    forall i
      ensures KeepsAt(a, c, k, i)
    {
      assert KeepsAt(a, b, k, i) && KeepsAt(b, c, k, i);
    }
  }

  lemma {:induction false} KeepSame(steps: seq<Dict>, k: Key)
    ensures Keep(steps, steps, k)
  {
    forall i
      ensures KeepsAt(steps, steps, k, i)
    {
    }
  }

  lemma {:induction false} KeepUpdated(steps: seq<Dict>, i: nat, d: Dict, k: Key)
    requires i < |steps| && Get(d, k) == Get(steps[i], k)
    ensures Keep(steps, steps[i := d], k)
  {
    var steps' := steps[i := d];
    forall j
      ensures KeepsAt(steps, steps', k, j)
    {
    }
  }

  lemma {:induction false} KeepLonger(steps: seq<Dict>, d: Dict, k: Key)
    requires k == Metrics ==> Get(d, k).Null?
    ensures Keep(steps, steps + [d], k)
  {
    var steps' := steps + [d];
    forall j
      ensures KeepsAt(steps, steps', k, j)
    {
    }
  }

  lemma {:induction false} StepKeeps(st: State, d: Dict, k: Key)
    requires IsFramed(k) && (k == Metrics ==> Get(d, k).Null?)
    ensures Keep(st.steps, AddStep(st, d).steps, k)
  {
    NumberedFields(d, |st.steps| + 1, k);
    KeepLonger(st.steps, d[StepId := Int(|st.steps| + 1)], k);
  }

  lemma {:induction false} PlainKeepsFields(st: State, source: string, time: string, message: string, extra: Dict,
      k: Key)
    requires IsFramed(k)
    ensures Keep(st.steps, AddStep(st, PlainStep(source, time, message, extra)).steps, k)
  {
    var d := PlainStep(source, time, message, extra);
    PlainFields(source, time, message, extra);
    PlainIsAbsent(d, source, Metrics);
    StepKeeps(st, d, k);
  }

  lemma {:induction false} AgentKeepsFields(st: State, s: Settings, a: AgentArgs, k: Key)
    requires IsFramed(k)
    ensures Keep(st.steps, AgentStep(st, s, a).steps, k)
  {
    AgentField(s, a, Metrics);
    StepKeeps(st, AgentDict(s, a), k);
  }

  lemma {:induction false} ResultOnly(d: Dict, v: Value, k: Key)
    requires k != Observation
    ensures Get(AddResult(d, v), k) == Get(d, k)
  {
  }

  lemma {:induction false} ResultKeepsFields(st: State, r: ResultArgs, k: Key)
    requires IsFramed(k)
    ensures Keep(st.steps, ToolResult(st, r).steps, k)
  {
    var target := TargetOf(st, r);
    if 1 <= target <= |st.steps| {
      ResultIsMatched(st, r, target);
      ResultOnly(st.steps[target - 1], MatchedResult(r), k);
      KeepUpdated(st.steps, target - 1, AddResult(st.steps[target - 1], MatchedResult(r)), k);
    } else {
      ResultIsOrphaned(st, r);
      OrphanKeepsFields(st, r, k);
    }
  }

  lemma {:induction false} OrphanKeepsFields(st: State, r: ResultArgs, k: Key)
    requires IsFramed(k)
    ensures Keep(st.steps, AddStep(st, AddResult(OrphanStep(r.time), OrphanedResult(r))).steps, k)
  {
    OrphanShape(r.time);
    ResultOnly(OrphanStep(r.time), OrphanedResult(r), Metrics);
    StepKeeps(st, AddResult(OrphanStep(r.time), OrphanedResult(r)), k);
  }

  lemma {:induction false} ResultsKeepFields(st: State, rs: seq<ResultArgs>, k: Key)
    requires IsFramed(k)
    ensures Keep(st.steps, ToolResults(st, rs).steps, k)
    decreases |rs|
  {
    if rs == [] {
      KeepSame(st.steps, k);
    } else {
      var most := rs[..|rs| - 1];
      ResultsKeepFields(st, most, k);
      ResultKeepsFields(ToolResults(st, most), rs[|rs| - 1], k);
      KeepTogether(st.steps, ToolResults(st, most).steps, ToolResults(st, rs).steps, k);
    }
  }

  lemma {:induction false} DeterministicKeepsFields(st: State, s: Settings, a: AgentArgs, rs: seq<ResultArgs>, k: Key)
    requires IsFramed(k)
    ensures Keep(st.steps, Deterministic(st, s, a, rs).steps, k)
  {
    var st1 := AgentStep(st, s, a.(llmCalls := 0));
    AgentKeepsFields(st, s, a.(llmCalls := 0), k);
    ResultsKeepFields(st1, rs, k);
    KeepTogether(st.steps, st1.steps, ToolResults(st1, rs).steps, k);
  }

  lemma {:induction false} DelegationKeepsFields(st: State, s: Settings, a: SubagentArgs, k: Key)
    requires IsFramed(k) && k != Extra
    ensures Keep(st.steps, AddSubagent(st, s, a).steps, k)
  {
    var i := FirstReferring(st.steps, a.path);
    if i < |st.steps| {
      KeepUpdated(st.steps, i, Bump(st.steps[i]), k);
    } else {
      DeterministicKeepsFields(st, s, DelegationCall(a), [DelegationResult(s, a)], k);
    }
  }

  lemma {:induction false} FinishKeepsFields(st: State, u: Dict, k: Key)
    requires IsFramed(k)
    ensures Keep(st.steps, Finish(st, u).steps, k)
  {
    var steps' := Renumbered(st.steps);
    forall i
      ensures KeepsAt(st.steps, steps', k, i)
    {
      if 0 <= i < |st.steps| {
        NumberedFields(st.steps[i], i + 1, k);
      }
    }
  }

  /** A call that may put figures on a step. */
  predicate PutsFigures(e: Event) {
    e.Used? || e.CodexTotals? || e.CodexTurned?
  }

  lemma {:induction false} OthersKeepFields(st: State, s: Settings, e: Event, k: Key)
    requires IsFramed(k) && !PutsFigures(e) && (e.Delegated? ==> k != Extra)
    ensures Keep(st.steps, Apply(st, s, e).steps, k)
  {
    match e {
      case SystemMessage(time, message, extra) => PlainKeepsFields(st, SYSTEM, time, message, extra, k);
      case UserMessage(time, message, extra) => PlainKeepsFields(st, USER, time, message, extra, k);
      case AgentTurn(a) => AgentKeepsFields(st, s, a, k);
      case Returned(r) => ResultKeepsFields(st, r, k);
      case NoModelCall(a, rs) => DeterministicKeepsFields(st, s, a, rs, k);
      case Delegated(a) => DelegationKeepsFields(st, s, a, k);
      case Finished(totals) => FinishKeepsFields(st, totals, k);
    }
  }

  // ----- reports ----------------------------------------------------------------------------------

  lemma {:induction false} ReportKeepsFields(st: State, id: Option<nat>, m: Dict, k: Key)
    requires IsFramed(k) && k != Metrics
    ensures Keep(st.steps, Report(st, id, m).steps, k)
  {
    var t := MetricsTarget(st, id);
    if m == map[] || t.None? {
      KeepSame(st.steps, k);
    } else {
      KeepUpdated(st.steps, t.value - 1, PutMetrics(st.steps[t.value - 1], m), k);
    }
  }

  /** A step that is not from the agent and has figures: the validator never accepts it. */
  predicate IsSpoiled(d: Dict) {
    !IsAgentStep(d) && Get(d, Metrics) != Null
  }

  /** Once a step is spoiled, it stays so. */
  ghost predicate StaySpoiled(steps: seq<Dict>, steps': seq<Dict>) {
    |steps| <= |steps'| && forall i :: StaysSpoiledAt(steps, steps', i)
  }

  predicate StaysSpoiledAt(steps: seq<Dict>, steps': seq<Dict>, i: int) {
    0 <= i < |steps| <= |steps'| && IsSpoiled(steps[i]) ==> IsSpoiled(steps'[i])
  }

  lemma {:induction false} SpoiledByFields(steps: seq<Dict>, steps': seq<Dict>)
    requires Keep(steps, steps', Source) && Keep(steps, steps', Metrics)
    ensures StaySpoiled(steps, steps')
  {
    forall i
      ensures StaysSpoiledAt(steps, steps', i)
    {
      assert KeepsAt(steps, steps', Source, i) && KeepsAt(steps, steps', Metrics, i);
    }
  }

  lemma {:induction false} SpoiledTogether(a: seq<Dict>, b: seq<Dict>, c: seq<Dict>)
    requires StaySpoiled(a, b) && StaySpoiled(b, c)
    ensures StaySpoiled(a, c)
  {
    forall i
      ensures StaysSpoiledAt(a, c, i)
    {
      assert StaysSpoiledAt(a, b, i) && StaysSpoiledAt(b, c, i);
    }
  }

  lemma {:induction false} ReportStaysSpoiled(st: State, id: Option<nat>, m: Dict)
    ensures StaySpoiled(st.steps, Report(st, id, m).steps)
  {
    var steps' := Report(st, id, m).steps;
    forall i
      ensures StaysSpoiledAt(st.steps, steps', i)
    {
    }
  }

  lemma {:induction false} FlushStaysSpoiled(st: State)
    ensures StaySpoiled(st.steps, FlushUsage(st).steps)
  {
    KeepSame(st.steps, Source);
    KeepSame(st.steps, Metrics);
    SpoiledByFields(st.steps, st.steps);
    ReportStaysSpoiled(st.(codexPending := map[]), st.codexStep,
                       StepMetrics(Some(AsReport(st.codexPending)), None, map[]));
  }

  lemma {:induction false} ObserveStaysSpoiled(st: State, current: Usage)
    ensures StaySpoiled(st.steps, Observe(st, current).steps)
  {
    FlushStaysSpoiled(st.(codexTotal := current,
                      codexPending := AddUsage(st.codexPending, UsageDelta(current, st.codexTotal))));
  }

  lemma {:induction false} AddTurnStaysSpoiled(st: State, s: Settings, a: TurnArgs)
    ensures StaySpoiled(st.steps, AddTurn(st, s, a).steps)
  {
    var st1 := AgentStep(st, s, TurnStep(a)).(codexStep := Some(|st.steps| + 1));
    AgentKeepsFields(st, s, TurnStep(a), Source);
    AgentKeepsFields(st, s, TurnStep(a), Metrics);
    SpoiledByFields(st.steps, st1.steps);
    FlushStaysSpoiled(st1);
    SpoiledTogether(st.steps, st1.steps, FlushUsage(st1).steps);
  }

  lemma {:induction false} TurnStaysSpoiled(st: State, s: Settings, a: TurnArgs)
    ensures StaySpoiled(st.steps, CodexTurn(st, s, a).steps)
  {
    var st1 := if a.usage.Some? then CodexUsage(st, a.usage.value) else st;
    KeepSame(st.steps, Source);
    KeepSame(st.steps, Metrics);
    SpoiledByFields(st.steps, st.steps);
    if a.usage.Some? {
      ObserveStaysSpoiled(st, UsageNumbers(a.usage.value));
    }
    AddTurnStaysSpoiled(st1, s, a);
    SpoiledTogether(st.steps, st1.steps, AddTurn(st1, s, a).steps);
  }

  lemma {:induction false} EventStaysSpoiled(st: State, s: Settings, e: Event)
    ensures StaySpoiled(st.steps, Apply(st, s, e).steps)
  {
    match e {
      case Used(usage, cost, extra) => ReportStaysSpoiled(st, st.lastAgentStep, StepMetrics(usage, cost, extra));
      case CodexTotals(totals) => ObserveStaysSpoiled(st, UsageNumbers(totals));
      case CodexTurned(a) => TurnStaysSpoiled(st, s, a);
      case _ =>
        OthersKeepFields(st, s, e, Source);
        OthersKeepFields(st, s, e, Metrics);
        SpoiledByFields(st.steps, Apply(st, s, e).steps);
    }
  }
}
