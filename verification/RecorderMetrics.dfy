/**
  * Usage reports (code_auditor/trajectory.py:768-815, 1000-1042) keep the invariant, exactly when they go to
  * an agent step.
  */
module RecorderMetrics {
  import opened Wrappers
  import opened Atif
  import opened RecorderState
  import opened RecorderInvariant

  /** What the figures of a step note besides. */
  function NoteIn(m: Dict, k: Key): Value {
    if Get(m, Extra).Obj? then Get(m[Extra].fields, k) else Null
  }

  lemma {:induction false} ExtraOfUsage(u: Dict, written: Value, reasoning: Value)
    requires written ==
             NonZeroOrNull(Number(u, [CacheCreationInputTokens, CacheCreationInputTokensCamel, CacheWriteInputTokens]))
    requires reasoning == NonZeroOrNull(Number(u, [ReasoningOutputTokensCamel, ReasoningOutputTokens, ReasoningTokens]))
    ensures Get(MetricsFromUsage(u), Extra) ==
            ObjOrNull(Compact(map[CacheCreationInputTokens := written, ReasoningTokens := reasoning]))
  {
  }

  lemma {:induction false} TwoNotes(m: Dict, written: Value, reasoning: Value)
    requires Get(m, Extra) == ObjOrNull(Compact(map[CacheCreationInputTokens := written, ReasoningTokens := reasoning]))
    ensures NoteIn(m, CacheCreationInputTokens) == written && NoteIn(m, ReasoningTokens) == reasoning
  {
    var d := map[CacheCreationInputTokens := written, ReasoningTokens := reasoning];
    assert Get(Compact(d), CacheCreationInputTokens) == written && Get(Compact(d), ReasoningTokens) == reasoning;
  }

  predicate IsGoodCount(k: Key, v: Value) {
    match k
    case PromptTokens => v.Null? || v.Int?
    case CompletionTokens => v.Null? || v.Int?
    case CachedTokens => v.Null? || v.Int?
    case CostUsd => v.Null? || IsNumber(v)
    case Extra => v.Null? || v.Obj?
    case _ => true
  }

  predicate IsGoodCountIn(m: Dict, k: Key) {
    IsGoodCount(k, Get(m, k))
  }

  lemma {:induction false} CountsOneByOne(m: Dict)
    ensures ConformsCounts(m) <==> m.Keys <= METRICS_FIELDS && forall k :: IsGoodCountIn(m, k)
  {
    if m.Keys <= METRICS_FIELDS && forall k :: IsGoodCountIn(m, k) {
      assert IsGoodCountIn(m, PromptTokens) && IsGoodCountIn(m, CompletionTokens) && IsGoodCountIn(m, CachedTokens);
      assert IsGoodCountIn(m, CostUsd) && IsGoodCountIn(m, Extra);
    }
  }

  lemma {:induction false} UsageMetricsConform(usage: Dict)
    ensures ConformsCounts(MetricsFromUsage(usage))
  {
    assert {PromptTokens, CompletionTokens, CachedTokens, Extra} <= METRICS_FIELDS;
  }

  lemma {:induction false} StepMetricsConform(usage: Option<Dict>, cost: Option<real>, extra: Dict)
    ensures ConformsCounts(StepMetrics(usage, cost, extra))
  {
    if usage.Some? {
      UsageMetricsConform(usage.value);
    }
    var m := if usage.Some? then MetricsFromUsage(usage.value) else map[];
    var priced := if cost.Some? then m[CostUsd := Float(cost.value)] else m;
    assert {CostUsd, Extra} <= METRICS_FIELDS;
    assert ConformsCounts(m);
    assert ConformsCounts(priced);
  }

  /** Every merged figure is an old one, a new one, or an object of extra fields. */
  lemma {:induction false} MergedFigure(a: Dict, m: Dict, k: Key)
    ensures Get(MergeMetrics(a, m), k) == Get(a, k) || Get(MergeMetrics(a, m), k) == Get(m, k)
            || (k == Extra && Get(MergeMetrics(a, m), k).Obj?)
  {
  }

  lemma {:induction false} MergedConform(a: Dict, m: Dict)
    requires ConformsCounts(a) && ConformsCounts(m)
    ensures ConformsCounts(MergeMetrics(a, m))
  {
    CountsOneByOne(a);
    CountsOneByOne(m);
    CountsOneByOne(MergeMetrics(a, m));
    var merged := MergeMetrics(a, m);
    forall k
      ensures IsGoodCountIn(merged, k)
    {
      assert IsGoodCountIn(a, k) && IsGoodCountIn(m, k);
      MergedFigure(a, m, k);
    }
  }

  lemma {:induction false} MetricsRole(d: Dict, d': Dict)
    requires ConformsRole(d) && DiffersOnlyIn(d, d', Metrics) && IsAgentStep(d) && !IsDeterministicStep(d)
    ensures ConformsRole(d')
  {
  }

  /** An agent step that made a model call may carry metrics. */
  lemma {:induction false} MetricsAreSound(d: Dict, d': Dict, n: nat)
    requires IsSound(d, n) && DiffersOnlyIn(d, d', Metrics) && ConformsMetrics(Get(d', Metrics))
    requires IsAgentStep(d) && !IsDeterministicStep(d)
    ensures IsSound(d', n) && IsKept(d, d') && (IsClean(d') <==> IsClean(d))
  {
    assert Meets(d, n, HeaderRules) && Meets(d, n, RoleRules) && Meets(d, n, CallRules) && Meets(d, n, ResultRules);
    SameHeader(d, d', Metrics, n);
    MetricsRole(d, d');
    CallsFollow(d, d');
    ResultsFollow(d, d');
    forall a: Aspect
      ensures Meets(d', n, a)
    {
    }
  }

  /** Any other step may not. */
  lemma {:induction false} MetricsOnOthers(d: Dict, d': Dict, n: nat)
    requires DiffersOnlyIn(d, d', Metrics) && Get(d', Metrics).Obj? && !IsAgentStep(d)
    ensures !IsSound(d', n)
  {
    assert !ConformsRole(d');
    assert !Meets(d', n, RoleRules);
  }

  lemma {:induction false} PutMetricsConforms(d: Dict, m: Dict)
    requires ConformsMetrics(Get(d, Metrics)) && ConformsCounts(m)
    ensures DiffersOnlyIn(d, PutMetrics(d, m), Metrics)
    ensures ConformsMetrics(Get(PutMetrics(d, m), Metrics)) && Get(PutMetrics(d, m), Metrics).Obj?
  {
    if Get(d, Metrics).Obj? {
      MergedConform(d[Metrics].fields, m);
    }
  }

  /** What a usage report does once its step is chosen. */
  lemma {:induction false} PutMetricsKeeps(st: State, i: nat, m: Dict)
    requires IsValid(st) && i < |st.steps| && ConformsCounts(m) && !IsDeterministicStep(st.steps[i])
    ensures var st' := st.(steps := st.steps[i := PutMetrics(st.steps[i], m)]);
            && (IsValid(st') <==> IsAgentStep(st.steps[i]))
            && (IsAgentStep(st.steps[i]) ==> (AllClean(st'.steps) <==> AllClean(st.steps)))
  {
    var d := st.steps[i];
    var d' := PutMetrics(d, m);
    assert IsSoundAt(st.steps, i);
    assert Meets(d, i + 1, MetricRules);
    PutMetricsConforms(d, m);
    if IsAgentStep(d) {
      MetricsAreSound(d, d', i + 1);
      StepKept(st, i, d');
    } else {
      MetricsOnOthers(d, d', i + 1);
      assert !IsSoundAt(st.steps[i := d'], i);
    }
  }

  predicate Names(st: State, id: Option<nat>) {
    id.Some? && 1 <= id.value <= |st.steps|
  }

  /** A report that names no step, or a step that may not carry metrics, goes to the last agent step. */
  lemma {:induction false} TargetIsUsable(st: State, id: Option<nat>)
    requires IsValid(st)
    ensures var t := MetricsTarget(st, id);
            && (t.Some? ==> Names(st, t) && !IsDeterministicStep(st.steps[t.value - 1]))
            && (t.Some? && !IsAgentStep(st.steps[t.value - 1]) ==> t == id)
            && (Names(st, id) && !IsDeterministicStep(st.steps[id.value - 1]) ==> t == id)
  {
  }

  predicate MayCarry(st: State, id: Option<nat>) {
    !Names(st, id) || IsAgentStep(st.steps[id.value - 1]) || IsDeterministicStep(st.steps[id.value - 1])
  }

  lemma {:induction false} ReportKeeps(st: State, id: Option<nat>, m: Dict)
    requires IsValid(st) && ConformsCounts(m)
    ensures var st' := Report(st, id, m);
            && (IsValid(st') <==> m == map[] || MayCarry(st, id))
            && (IsValid(st') ==> (AllClean(st'.steps) <==> AllClean(st.steps)))
            && st' == st.(steps := st'.steps) && |st'.steps| == |st.steps|
  {
    var t := MetricsTarget(st, id);
    TargetIsUsable(st, id);
    if m != map[] && t.Some? {
      PutMetricsKeeps(st, t.value - 1, m);
    }
  }

  /**
    * record_step_metrics keeps the invariant exactly when it does not put figures on a system or user
    * step that the caller names.
    */
  lemma {:induction false} NamedMetrics(st: State, id: Option<nat>, usage: Option<Dict>, cost: Option<real>,
      extra: Dict)
    requires IsValid(st)
    ensures var st' := RecordStepMetrics(st, id, usage, cost, extra);
            && (IsValid(st') <==> StepMetrics(usage, cost, extra) == map[] || MayCarry(st, id))
            && (IsValid(st') ==> (AllClean(st'.steps) <==> AllClean(st.steps)))
            && st' == st.(steps := st'.steps) && |st'.steps| == |st.steps|
  {
    StepMetricsConform(usage, cost, extra);
    ReportKeeps(st, id, StepMetrics(usage, cost, extra));
  }

  /** record_usage reports on the last agent step, which is always in order. */
  lemma {:induction false} UsageKeeps(st: State, usage: Option<Dict>, cost: Option<real>, extra: Dict)
    requires IsValid(st)
    ensures var st' := RecordStepMetrics(st, st.lastAgentStep, usage, cost, extra);
            IsValid(st') && (AllClean(st'.steps) <==> AllClean(st.steps)) && |st'.steps| == |st.steps|
  {
    NamedMetrics(st, st.lastAgentStep, usage, cost, extra);
  }

  // ----- Codex turns ---------------------------------------------------------------------------

  lemma {:induction false} FlushKeeps(st: State)
    requires IsValid(st)
    ensures IsValid(FlushUsage(st)) && (AllClean(FlushUsage(st).steps) <==> AllClean(st.steps))
    ensures |FlushUsage(st).steps| == |st.steps| && FlushUsage(st).finalMetrics == st.finalMetrics
  {
    var emptied := st.(codexPending := map[]);
    assert IsValid(emptied) by {
      PendingOnly(st, emptied);
    }
    NamedMetrics(emptied, st.codexStep, Some(AsReport(st.codexPending)), None, map[]);
  }

  /** The invariant is about the steps, the pending calls and the remembered step numbers only. */
  lemma {:induction false} PendingOnly(st: State, st': State)
    requires IsValid(st) && st'.steps == st.steps && st'.pending == st.pending
    requires st'.lastAgentStep == st.lastAgentStep
    requires st'.codexStep.Some? ==> IsAgentAt(st.steps, st'.codexStep.value)
    ensures IsValid(st')
  {
    forall id
      ensures IsPendingAt(st', id)
    {
      assert IsPendingAt(st, id);
    }
  }

  lemma {:induction false} CodexUsageKeeps(st: State, usage: Dict)
    requires IsValid(st)
    ensures IsValid(CodexUsage(st, usage)) && (AllClean(CodexUsage(st, usage).steps) <==> AllClean(st.steps))
    ensures |CodexUsage(st, usage).steps| == |st.steps| && CodexUsage(st, usage).finalMetrics == st.finalMetrics
  {
    var current := UsageNumbers(usage);
    ObserveKeeps(st, current);
  }

  lemma {:induction false} ObserveKeeps(st: State, current: Usage)
    requires IsValid(st)
    ensures IsValid(Observe(st, current)) && (AllClean(Observe(st, current).steps) <==> AllClean(st.steps))
    ensures |Observe(st, current).steps| == |st.steps| && Observe(st, current).finalMetrics == st.finalMetrics
  {
    var pending := AddUsage(st.codexPending, UsageDelta(current, st.codexTotal));
    var st1 := st.(codexTotal := current, codexPending := pending);
    PendingOnly(st, st1);
    FlushKeeps(st1);
  }

  lemma {:induction false} AddTurnKeeps(st: State, s: Settings, a: TurnArgs)
    requires IsValid(st)
    ensures IsValid(AddTurn(st, s, a)) && (AllClean(AddTurn(st, s, a).steps) <==> AllClean(st.steps))
    ensures |AddTurn(st, s, a).steps| == |st.steps| + 1 && AddTurn(st, s, a).finalMetrics == st.finalMetrics
  {
    var st1 := AgentStep(st, s, TurnStep(a));
    AgentStepKeeps(st, s, TurnStep(a));
    var st2 := st1.(codexStep := Some(|st.steps| + 1));
    PendingOnly(st1, st2);
    FlushKeeps(st2);
  }

  lemma {:induction false} CodexTurnKeeps(st: State, s: Settings, a: TurnArgs)
    requires IsValid(st)
    ensures IsValid(CodexTurn(st, s, a)) && (AllClean(CodexTurn(st, s, a).steps) <==> AllClean(st.steps))
    ensures |CodexTurn(st, s, a).steps| >= |st.steps| && CodexTurn(st, s, a).finalMetrics == st.finalMetrics
  {
    if a.usage.Some? {
      CodexUsageKeeps(st, a.usage.value);
    }
    AddTurnKeeps(if a.usage.Some? then CodexUsage(st, a.usage.value) else st, s, a);
  }
}
