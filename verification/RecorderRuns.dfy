/**
  * Whole runs of the recorder (code_auditor/trajectory.py:359-1148): after any sequence of recorder calls
  * on a fresh recorder, exactly when the document passes the validator.
  */
module RecorderRuns {
  import opened Wrappers
  import opened Atif
  import opened RecorderState
  import opened RecorderInvariant
  import opened RecorderMetrics

  /** One call on the recorder. */
  datatype Event =
    | SystemMessage(time: string, message: string, extra: Dict)
    | UserMessage(time: string, message: string, extra: Dict)
    | AgentTurn(agent: AgentArgs)
    | Returned(result: ResultArgs)
    | NoModelCall(agent: AgentArgs, results: seq<ResultArgs>)
    | Delegated(sub: SubagentArgs)
    | Used(usage: Option<Dict>, cost: Option<real>, extra: Dict)
    | CodexTotals(totals: Dict)
    | CodexTurned(turn: TurnArgs)
    | Finished(usageTotals: Dict)

  function Apply(st: State, s: Settings, e: Event): State {
    match e
    case SystemMessage(time, message, extra) => AddStep(st, PlainStep(SYSTEM, time, message, extra))
    case UserMessage(time, message, extra) => AddStep(st, PlainStep(USER, time, message, extra))
    case AgentTurn(a) => AgentStep(st, s, a)
    case Returned(r) => ToolResult(st, r)
    case NoModelCall(a, rs) => Deterministic(st, s, a, rs)
    case Delegated(a) => AddSubagent(st, s, a)
    case Used(usage, cost, extra) => RecordStepMetrics(st, st.lastAgentStep, usage, cost, extra)
    case CodexTotals(totals) => CodexUsage(st, totals)
    case CodexTurned(a) => CodexTurn(st, s, a)
    case Finished(totals) => Finish(st, totals)
  }

  function RunFrom(st: State, s: Settings, events: seq<Event>): State {
    if events == [] then st else Apply(RunFrom(st, s, events[..|events| - 1]), s, events[|events| - 1])
  }

  function Run(s: Settings, events: seq<Event>): State {
    RunFrom(FRESH, s, events)
  }

  // ----- what callers are responsible for -------------------------------------------------------

  /** Call ids of one step are distinct, given references conform, and a new child document is named. */
  ghost predicate IsInOrder(st: State, e: Event) {
    match e
    case AgentTurn(a) => HaveDistinctCallIds(a.calls)
    case Returned(r) => AreGoodRefs(r.refs)
    case NoModelCall(a, rs) => HaveDistinctCallIds(a.calls) && HaveGoodRefs(rs)
    case Delegated(a) => NamesItsChild(a) || FirstReferring(st.steps, a.path) < |st.steps|
    case _ => true
  }

  ghost predicate AreInOrder(st: State, s: Settings, events: seq<Event>) {
    if events == [] then true else
      var most := events[..|events| - 1];
      AreInOrder(st, s, most) && IsInOrder(RunFrom(st, s, most), events[|events| - 1])
  }

  lemma {:induction false} RunMore(st: State, s: Settings, events: seq<Event>, e: Event)
    ensures RunFrom(st, s, events + [e]) == Apply(RunFrom(st, s, events), s, e)
    ensures AreInOrder(st, s, events + [e]) <==> AreInOrder(st, s, events) && IsInOrder(RunFrom(st, s, events), e)
  {
    assert (events + [e])[..|events|] == events;
  }

  lemma {:induction false} LastApart(a: seq<Event>, b: seq<Event>)
    requires b != []
    ensures b == b[..|b| - 1] + [b[|b| - 1]]
    ensures a + b == (a + b[..|b| - 1]) + [b[|b| - 1]]
  {
  }

  lemma {:induction false} StateMore(st: State, s: Settings, events: seq<Event>, e: Event, now: State)
    requires now == RunFrom(st, s, events)
    ensures RunFrom(st, s, events + [e]) == Apply(now, s, e)
  {
    assert (events + [e])[..|events|] == events;
  }

  lemma {:induction false} StatesTogether(st: State, s: Settings, a: seq<Event>, b: seq<Event>, mid: State)
    requires mid == RunFrom(st, s, a)
    ensures RunFrom(st, s, a + b) == RunFrom(mid, s, b)
    decreases |b|
  {
    if b == [] {
      assert a + b == a;
    } else {
      var most, e := b[..|b| - 1], b[|b| - 1];
      var now := RunFrom(mid, s, most);
      StatesTogether(st, s, a, most, mid);
      StateMore(st, s, a + most, e, now);
      StateMore(mid, s, most, e, now);
      LastApart(a, b);
    }
  }

  lemma {:induction false} OrderMore(st: State, s: Settings, events: seq<Event>, e: Event, now: State)
    requires now == RunFrom(st, s, events)
    ensures AreInOrder(st, s, events + [e]) <==> AreInOrder(st, s, events) && IsInOrder(now, e)
  {
    RunMore(st, s, events, e);
  }

  lemma {:induction false} OrdersTogether(st: State, s: Settings, a: seq<Event>, b: seq<Event>, mid: State)
    requires mid == RunFrom(st, s, a)
    ensures AreInOrder(st, s, a + b) <==> AreInOrder(st, s, a) && AreInOrder(mid, s, b)
    decreases |b|
  {
    if b == [] {
      assert a + b == a;
    } else {
      var most, e := b[..|b| - 1], b[|b| - 1];
      var now := RunFrom(mid, s, most);
      OrdersTogether(st, s, a, most, mid);
      StatesTogether(st, s, a, most, mid);
      OrderMore(st, s, a + most, e, now);
      OrderMore(mid, s, most, e, now);
      LastApart(a, b);
    }
  }

  lemma {:induction false} RunTogether(st: State, s: Settings, a: seq<Event>, b: seq<Event>)
    ensures RunFrom(st, s, a + b) == RunFrom(RunFrom(st, s, a), s, b)
    ensures AreInOrder(st, s, a + b) <==> AreInOrder(st, s, a) && AreInOrder(RunFrom(st, s, a), s, b)
  {
    StatesTogether(st, s, a, b, RunFrom(st, s, a));
    OrdersTogether(st, s, a, b, RunFrom(st, s, a));
  }

  lemma {:induction false} OneCall(st: State, s: Settings, e: Event)
    ensures RunFrom(st, s, [e]) == Apply(st, s, e)
    ensures AreInOrder(st, s, [e]) <==> IsInOrder(st, e)
  {
    assert [e][..0] == [];
  }

  lemma {:induction false} TwoCalls(st: State, s: Settings, first: Event, second: Event)
    ensures RunFrom(st, s, [first] + [second]) == Apply(Apply(st, s, first), s, second)
  {
    OneCall(st, s, first);
    RunMore(st, s, [first], second);
  }

  /** Run-level totals override the recorder's own figures, so they have to be figures of the right kind. */
  ghost predicate AreGoodTotals(u: Dict) {
    forall k :: IsGoodTotal(u, k)
  }

  predicate IsGoodTotal(u: Dict, k: Key) {
    k in u && k != Extra && IsNumeric(u[k]) ==>
      match k
      case TotalPromptTokens => u[k].Int?
      case TotalCompletionTokens => u[k].Int?
      case TotalCachedTokens => u[k].Int?
      case TotalSteps => u[k].Int?
      case TotalCostUsd => IsNumber(u[k])
      case _ => false
  }

  /** The totals given to the last finish, if there was one. */
  function LastTotals(events: seq<Event>): Option<Dict> {
    if events == [] then None
    else if events[|events| - 1].Finished? then Some(events[|events| - 1].usageTotals)
    else LastTotals(events[..|events| - 1])
  }

  ghost predicate TotalsAreGood(events: seq<Event>) {
    LastTotals(events).Some? ==> AreGoodTotals(LastTotals(events).value)
  }

  // ----- finish ------------------------------------------------------------------------------------

  /** Writing another step number, and leaving out null fields, changes nothing else. */
  lemma {:induction false} Rewritten(d: Dict, n: int, d': Dict, n': int)
    requires IsSound(d, n) && DiffersOnlyIn(d, d', StepId) && Get(d', StepId) == Int(n')
    ensures IsSound(d', n') && IsKept(d, d') && (IsClean(d') <==> IsClean(d))
  {
    assert Meets(d, n, HeaderRules) && Meets(d, n, RoleRules);
    RewrittenHeader(d, n, d', n');
    RewrittenRole(d, d');
    assert Get(d', ToolCalls) == Get(d, ToolCalls) && Get(d', Observation) == Get(d, Observation);
    assert Get(d', Metrics) == Get(d, Metrics);
    RestFollows(d, n, d', n');
  }

  lemma {:induction false} RestFollows(d: Dict, n: int, d': Dict, n': int)
    requires IsSound(d, n) && ConformsHeader(d', n') && ConformsRole(d')
    requires Get(d', ToolCalls) == Get(d, ToolCalls) && Get(d', Observation) == Get(d, Observation)
    requires Get(d', Metrics) == Get(d, Metrics)
    ensures IsSound(d', n') && CallsOf(d') == CallsOf(d) && ResultsOf(d') == ResultsOf(d)
  {
    assert Meets(d, n, CallRules) && Meets(d, n, ResultRules) && Meets(d, n, MetricRules);
    CallsFollow(d, d');
    ResultsFollow(d, d');
    forall a: Aspect
      ensures Meets(d', n', a)
    {
    }
  }

  lemma {:induction false} RewrittenHeader(d: Dict, n: int, d': Dict, n': int)
    requires ConformsHeader(d, n) && DiffersOnlyIn(d, d', StepId) && Get(d', StepId) == Int(n')
    ensures ConformsHeader(d', n')
  {
    assert StepId in STEP_FIELDS;
  }

  lemma {:induction false} RewrittenRole(d: Dict, d': Dict)
    requires ConformsRole(d) && DiffersOnlyIn(d, d', StepId)
    ensures ConformsRole(d') && IsAgentStep(d') == IsAgentStep(d)
  {
  }

  lemma {:induction false} NumberedAgain(d: Dict, n: nat)
    ensures DiffersOnlyIn(d, d[StepId := Int(n)], StepId)
  {
  }

  ghost predicate AreRewritten(steps: seq<Dict>, steps': seq<Dict>) {
    |steps'| == |steps| && forall i :: IsRewrittenAt(steps, steps', i)
  }

  ghost predicate IsRewrittenAt(steps: seq<Dict>, steps': seq<Dict>, i: int)
    requires |steps'| == |steps|
  {
    0 <= i < |steps| ==> DiffersOnlyIn(steps[i], steps'[i], StepId) && Get(steps'[i], StepId) == Int(i + 1)
  }

  lemma {:induction false} AllRewritten(st: State, steps': seq<Dict>)
    requires IsValid(st) && AreRewritten(st.steps, steps')
    ensures IsValid(st.(steps := steps')) && (AllClean(steps') <==> AllClean(st.steps))
  {
    var st' := st.(steps := steps');
    forall i | 0 <= i < |st.steps|
      ensures IsSound(steps'[i], i + 1) && IsKept(st.steps[i], steps'[i])
      ensures IsClean(steps'[i]) <==> IsClean(st.steps[i])
    {
      assert IsSoundAt(st.steps, i) && IsRewrittenAt(st.steps, steps', i);
      Rewritten(st.steps[i], i + 1, steps'[i], i + 1);
    }
    forall i
      ensures IsSoundAt(steps', i)
    {
    }
    forall id
      ensures IsPendingAt(st', id)
    {
      assert IsPendingAt(st, id);
    }
    CleanFollows(st.steps, steps');
  }

  lemma {:induction false} CleanFollows(steps: seq<Dict>, steps': seq<Dict>)
    requires |steps'| == |steps| && forall i :: 0 <= i < |steps| ==> (IsClean(steps'[i]) <==> IsClean(steps[i]))
    ensures AllClean(steps') <==> AllClean(steps)
  {
    forall i
      ensures IsCleanAt(steps', i) <==> IsCleanAt(steps, i)
    {
    }
  }

  lemma {:induction false} RenumberedKeeps(st: State)
    requires IsValid(st)
    ensures IsValid(st.(steps := Renumbered(st.steps))) && (AllClean(Renumbered(st.steps)) <==> AllClean(st.steps))
  {
    var steps' := Renumbered(st.steps);
    forall i
      ensures IsRewrittenAt(st.steps, steps', i)
    {
      if 0 <= i < |st.steps| {
        NumberedAgain(st.steps[i], i + 1);
      }
    }
    AllRewritten(st, steps');
  }

  /** Token totals over steps with whole token counts are whole. */
  lemma {:induction false} TotalIsWhole(steps: seq<Dict>, k: Key)
    requires forall i :: 0 <= i < |steps| ==> MetricOf(steps[i], k).Null? || MetricOf(steps[i], k).Int?
    ensures Total(steps, k).Null? || Total(steps, k).Int?
    decreases |steps|
  {
    if steps != [] {
      TotalIsWhole(steps[..|steps| - 1], k);
    }
  }

  lemma {:induction false} TokensAreWhole(st: State, k: Key)
    requires IsValid(st) && (k == PromptTokens || k == CompletionTokens || k == CachedTokens)
    ensures Total(st.steps, k).Null? || Total(st.steps, k).Int?
  {
    forall i | 0 <= i < |st.steps|
      ensures MetricOf(st.steps[i], k).Null? || MetricOf(st.steps[i], k).Int?
    {
      assert IsSoundAt(st.steps, i);
      assert Meets(st.steps[i], i + 1, MetricRules);
    }
    TotalIsWhole(st.steps, k);
  }

  predicate IsGoodFinal(m: Dict, k: Key) {
    match k
    case TotalPromptTokens => Get(m, k).Null? || Get(m, k).Int?
    case TotalCompletionTokens => Get(m, k).Null? || Get(m, k).Int?
    case TotalCachedTokens => Get(m, k).Null? || Get(m, k).Int?
    case TotalSteps => Get(m, k).Null? || Get(m, k).Int?
    case TotalCostUsd => Get(m, k).Null? || IsNumber(Get(m, k))
    case Extra => Get(m, k).Null? || Get(m, k).Obj?
    case _ => k !in m
  }

  lemma {:induction false} GoodFinalKeys(m: Dict)
    requires forall k :: IsGoodFinal(m, k)
    ensures m.Keys <= FINAL_FIELDS
  {
    forall k | k in m
      ensures k in FINAL_FIELDS
    {
      assert IsGoodFinal(m, k);
    }
  }

  lemma {:induction false} GoodFinalFields(m: Dict)
    requires forall k :: IsGoodFinal(m, k)
    ensures ConformsTotals(m)
  {
    GoodFinalKeys(m);
    assert IsGoodFinal(m, TotalPromptTokens) && IsGoodFinal(m, TotalCompletionTokens);
    assert IsGoodFinal(m, TotalCachedTokens) && IsGoodFinal(m, TotalSteps);
    assert IsGoodFinal(m, TotalCostUsd) && IsGoodFinal(m, Extra);
  }

  lemma {:induction false} GoodFinalField(m: Dict, k: Key)
    requires ConformsTotals(m)
    ensures IsGoodFinal(m, k)
  {
    if k in m {
      assert k in FINAL_FIELDS;
    }
  }

  /** What a figure counts in a sum. */
  function Amount(v: Value): real {
    if IsNumber(v) then AsReal(v) else 0.0
  }

  /** The recorder's own totals, without any run-level accounting. */
  function OwnTotal(steps: seq<Dict>, k: Key): Value {
    match k
    case TotalPromptTokens => Total(steps, PromptTokens)
    case TotalCompletionTokens => Total(steps, CompletionTokens)
    case TotalCachedTokens => Total(steps, CachedTokens)
    case TotalCostUsd => CostTotal(steps)
    case TotalSteps => Int(|steps|)
    case _ => Null
  }

  predicate Overrides(u: Dict, k: Key) {
    k in u && k != Extra && IsNumeric(u[k])
  }

  predicate IsFinalField(m: Dict, steps: seq<Dict>, u: Dict, k: Key) {
    if k == Extra then Get(m, k) == if Get(u, k).Obj? && IsTruthy(Get(u, k)) then u[k] else Null
    else if Overrides(u, k) then k in m && m[k] == u[k]
    else (k in m <==> OwnTotal(steps, k) != Null) && Get(m, k) == OwnTotal(steps, k)
  }

  lemma {:induction false} OwnField(steps: seq<Dict>, k: Key)
    ensures (k in OwnTotals(steps) <==> OwnTotal(steps, k) != Null) && Get(OwnTotals(steps), k) == OwnTotal(steps, k)
  {
  }

  lemma {:induction false} FinalField(steps: seq<Dict>, u: Dict, k: Key)
    ensures IsFinalField(FinishTotals(steps, u), steps, u, k)
  {
    OwnField(steps, k);
    Overridden(OwnTotals(steps), u, k);
  }

  lemma {:induction false} Overridden(own: Dict, u: Dict, k: Key)
    requires Extra !in own
    ensures var m := Override(own, u);
            if k == Extra then Get(m, k) == if Get(u, k).Obj? && IsTruthy(Get(u, k)) then u[k] else Null
            else if Overrides(u, k) then k in m && m[k] == u[k]
            else (k in m <==> k in own) && Get(m, k) == Get(own, k)
  {
  }

  lemma {:induction false} FieldIsGood(st: State, m: Dict, u: Dict, k: Key)
    requires IsValid(st) && IsFinalField(m, st.steps, u, k)
    ensures IsGoodFinal(m, k) <==> IsGoodTotal(u, k)
  {
    OwnIsGood(st, k);
  }

  lemma {:induction false} OwnIsGood(st: State, k: Key)
    requires IsValid(st)
    ensures k == TotalPromptTokens || k == TotalCompletionTokens || k == TotalCachedTokens || k == TotalSteps ==>
              OwnTotal(st.steps, k).Null? || OwnTotal(st.steps, k).Int?
    ensures k == TotalCostUsd ==> OwnTotal(st.steps, k).Null? || IsNumber(OwnTotal(st.steps, k))
  {
    TokensAreWhole(st, PromptTokens);
    TokensAreWhole(st, CompletionTokens);
    TokensAreWhole(st, CachedTokens);
  }

  lemma {:induction false} TotalsConform(st: State, m: Dict, u: Dict)
    requires IsValid(st) && forall k :: IsFinalField(m, st.steps, u, k)
    ensures ConformsTotals(m) <==> AreGoodTotals(u)
  {
    forall k
      ensures IsGoodFinal(m, k) <==> IsGoodTotal(u, k)
    {
      FieldIsGood(st, m, u, k);
    }
    if ConformsTotals(m) {
      forall k
        ensures IsGoodTotal(u, k)
      {
        GoodFinalField(m, k);
      }
    }
    if AreGoodTotals(u) {
      forall k
        ensures IsGoodFinal(m, k)
      {
        assert IsGoodTotal(u, k);
      }
      GoodFinalFields(m);
    }
  }

  /** What is known of the recorded totals. */
  predicate HasGoodTotals(st: State) {
    st.finalMetrics.Some? ==> ConformsTotals(st.finalMetrics.value)
  }

  lemma {:induction false} FinishKeeps(st: State, u: Dict)
    requires IsValid(st)
    ensures IsValid(Finish(st, u)) && (AllClean(Finish(st, u).steps) <==> AllClean(st.steps))
    ensures HasGoodTotals(Finish(st, u)) <==> AreGoodTotals(u)
  {
    RenumberedKeeps(st);
    var st' := st.(steps := Renumbered(st.steps));
    var m := FinishTotals(st'.steps, u);
    forall k
      ensures IsFinalField(m, st'.steps, u, k)
    {
      FinalField(st'.steps, u, k);
    }
    TotalsConform(st', m, u);
    WithTotals(st', m);
  }

  lemma {:induction false} WithTotals(st: State, m: Dict)
    requires IsValid(st)
    ensures IsValid(st.(finalMetrics := Some(m)))
  {
    PendingOnly(st, st.(finalMetrics := Some(m)));
  }

  // ----- every call keeps the invariant ----------------------------------------------------------

  lemma {:induction false} ResultsKeepTotals(st: State, rs: seq<ResultArgs>)
    ensures ToolResults(st, rs).finalMetrics == st.finalMetrics
    decreases |rs|
  {
    if rs != [] {
      ResultsKeepTotals(st, rs[..|rs| - 1]);
    }
  }

  /** Only finish sets totals. */
  lemma {:induction false} TotalsStay(st: State, s: Settings, e: Event)
    requires IsValid(st) && !e.Finished?
    ensures Apply(st, s, e).finalMetrics == st.finalMetrics
  {
    match e {
      case NoModelCall(a, rs) => ResultsKeepTotals(AgentStep(st, s, a.(llmCalls := 0)), rs);
      case Delegated(a) =>
        ResultsKeepTotals(AgentStep(st, s, DelegationCall(a).(llmCalls := 0)), [DelegationResult(s, a)]);
      case Used(usage, cost, extra) => NamedMetrics(st, st.lastAgentStep, usage, cost, extra);
      case CodexTotals(totals) => CodexUsageKeeps(st, totals);
      case CodexTurned(a) => CodexTurnKeeps(st, s, a);
      case _ =>
    }
  }

  lemma {:induction false} PlainKeeps(st: State, source: string, time: string, message: string, extra: Dict)
    requires IsValid(st) && (source == SYSTEM || source == USER)
    ensures var st' := AddStep(st, PlainStep(source, time, message, extra));
            IsValid(st') && (AllClean(st'.steps) <==> AllClean(st.steps))
  {
    PlainStepIsSound(source, time, message, extra, |st.steps| + 1);
    StepAdded(st, PlainStep(source, time, message, extra));
  }

  predicate ReportsUsage(e: Event) {
    e.Used? || e.CodexTotals? || e.CodexTurned? || e.Finished?
  }

  lemma {:induction false} UsageEventKeeps(st: State, s: Settings, e: Event)
    requires IsValid(st) && ReportsUsage(e)
    ensures IsValid(Apply(st, s, e)) && (AllClean(Apply(st, s, e).steps) <==> AllClean(st.steps))
  {
    match e {
      case Used(usage, cost, extra) => UsageKeeps(st, usage, cost, extra);
      case CodexTotals(totals) => CodexUsageKeeps(st, totals);
      case CodexTurned(a) => CodexTurnKeeps(st, s, a);
      case Finished(totals) => FinishKeeps(st, totals);
    }
  }

  lemma {:induction false} StepEventKeeps(st: State, s: Settings, e: Event)
    requires IsValid(st) && !ReportsUsage(e)
    ensures IsValid(Apply(st, s, e))
    ensures AllClean(Apply(st, s, e).steps) <==> AllClean(st.steps) && IsInOrder(st, e)
  {
    match e {
      case SystemMessage(time, message, extra) => PlainKeeps(st, SYSTEM, time, message, extra);
      case UserMessage(time, message, extra) => PlainKeeps(st, USER, time, message, extra);
      case AgentTurn(a) => AgentStepKeeps(st, s, a);
      case Returned(r) => ToolResultKeeps(st, r);
      case NoModelCall(a, rs) => DeterministicKeeps(st, s, a, rs);
      case Delegated(a) => AddSubagentKeeps(st, s, a);
    }
  }

  /** The invariant of whole runs: the state is valid, and as clean and well totalled as the calls so far. */
  ghost predicate Reflects(st: State, start: State, s: Settings, events: seq<Event>) {
    && IsValid(st)
    && (AllClean(st.steps) <==> AreInOrder(start, s, events))
    && (HasGoodTotals(st) <==> TotalsAreGood(events))
  }

  /** What one call makes of the invariant. */
  ghost predicate Follows(st: State, st': State, e: Event) {
    && IsValid(st')
    && (AllClean(st'.steps) <==> AllClean(st.steps) && IsInOrder(st, e))
    && (HasGoodTotals(st') <==> if e.Finished? then AreGoodTotals(e.usageTotals) else HasGoodTotals(st))
  }

  lemma {:induction false} ApplyFollows(st: State, s: Settings, e: Event)
    requires IsValid(st)
    ensures Follows(st, Apply(st, s, e), e)
  {
    if ReportsUsage(e) {
      UsageEventKeeps(st, s, e);
    } else {
      StepEventKeeps(st, s, e);
    }
    if e.Finished? {
      FinishKeeps(st, e.usageTotals);
    } else {
      TotalsStay(st, s, e);
    }
  }

  lemma {:induction false} StepReflects(st: State, st': State, start: State, s: Settings, events: seq<Event>)
    requires events != [] && Reflects(st, start, s, events[..|events| - 1])
    requires st == RunFrom(start, s, events[..|events| - 1]) && Follows(st, st', events[|events| - 1])
    ensures Reflects(st', start, s, events)
  {
  }

  /** From any valid and clean state on. */
  lemma {:induction false} RunReflects(start: State, s: Settings, events: seq<Event>)
    requires IsValid(start) && AllClean(start.steps) && HasGoodTotals(start)
    ensures Reflects(RunFrom(start, s, events), start, s, events)
    decreases |events|
  {
    if events != [] {
      var st, e := RunFrom(start, s, events[..|events| - 1]), events[|events| - 1];
      RunReflects(start, s, events[..|events| - 1]);
      ApplyFollows(st, s, e);
      StepReflects(st, Apply(st, s, e), start, s, events);
    }
  }

  lemma {:induction false} FreshIsValid()
    ensures IsValid(FRESH) && AllClean(FRESH.steps) && HasGoodTotals(FRESH)
  {
  }

  // ----- the document ------------------------------------------------------------------------------

  lemma {:induction false} StepsAreRewritten(steps: seq<Dict>, steps': seq<Dict>)
    requires |steps'| == |steps| && forall i :: 0 <= i < |steps| ==> steps'[i] == StepOut(steps[i], i + 1)
    ensures AreRewritten(steps, steps')
  {
    forall i
      ensures IsRewrittenAt(steps, steps', i)
    {
      if 0 <= i < |steps| {
        WrittenStep(steps[i], i + 1);
      }
    }
  }

  lemma {:induction false} WrittenStep(d: Dict, n: nat)
    ensures DiffersOnlyIn(d, StepOut(d, n), StepId) && Get(StepOut(d, n), StepId) == Int(n)
  {
  }

  lemma {:induction false} CleanSteps(st: State, vs: seq<Value>)
    requires IsValid(st) && |vs| == |st.steps| && forall i :: 0 <= i < |vs| ==> vs[i] == Obj(st.steps[i])
    ensures ConformsSteps(vs) <==> st.steps != [] && AllClean(st.steps)
  {
    forall i | 0 <= i < |vs|
      ensures ConformsStep(vs[i].fields, i + 1) <==> IsCleanAt(st.steps, i)
    {
      assert IsSoundAt(st.steps, i);
      SoundAndClean(st.steps[i], i + 1);
    }
    if ConformsSteps(vs) {
      forall i
        ensures IsCleanAt(st.steps, i)
      {
        if 0 <= i < |vs| {
          assert ConformsStep(vs[i].fields, i + 1);
        }
      }
    }
  }

  lemma {:induction false} StepsConform(st: State)
    requires IsValid(st)
    ensures ConformsSteps(StepsOut(st.steps)) <==> st.steps != [] && AllClean(st.steps)
  {
    var steps' := seq(|st.steps|, i requires 0 <= i < |st.steps| => StepOut(st.steps[i], i + 1));
    StepsAreRewritten(st.steps, steps');
    AllRewritten(st, steps');
    CleanSteps(st.(steps := steps'), StepsOut(st.steps));
  }

  lemma {:induction false} AgentConforms(s: Settings)
    ensures ConformsAgent(Obj(AgentOut(s))) <==> s.agentName != "" && s.version != ""
  {
    assert {AgentName, Version, ModelName} <= AGENT_FIELDS;
  }

  /** The fields of the document. */
  lemma {:induction false} DocumentFields(st: State, s: Settings)
    ensures ToDocument(st, s).Obj?
    ensures var d := ToDocument(st, s).fields;
            && Get(d, SchemaVersion) == Str(SCHEMA) && Get(d, Agent) == Obj(AgentOut(s))
            && Get(d, Steps) == List(StepsOut(st.steps)) && Get(d, FinalMetrics) == Obj(FinalOut(st))
  {
  }

  lemma {:induction false} DocumentOptions(st: State, s: Settings)
    ensures ToDocument(st, s).Obj?
    ensures var d := ToDocument(st, s).fields;
            && Get(d, SessionId) == TextOrNull(s.sessionId) && Get(d, TrajectoryId) == Str(s.trajectoryId)
            && Get(d, Extra) == ObjOrNull(s.extra) && Get(d, Notes) == TextOrNull(s.notes)
            && Get(d, ContinuedRef).Null? && Get(d, SubagentTrajectories).Null?
            && d.Keys <= ROOT_FIELDS
  {
    assert {SchemaVersion, Agent, Steps, FinalMetrics, SessionId, TrajectoryId, Extra, Notes} <= ROOT_FIELDS;
  }

  lemma {:induction false} RootConforms(d: Dict, s: Settings)
    requires Get(d, SchemaVersion) == Str(SCHEMA) && Get(d, Agent) == Obj(AgentOut(s))
    requires Get(d, SessionId) == TextOrNull(s.sessionId) && Get(d, TrajectoryId) == Str(s.trajectoryId)
    requires Get(d, Extra) == ObjOrNull(s.extra) && Get(d, Notes) == TextOrNull(s.notes)
    requires Get(d, ContinuedRef).Null? && d.Keys <= ROOT_FIELDS
    ensures ConformsRoot(d) <==> ConformsAgent(Obj(AgentOut(s)))
  {
  }

  lemma {:induction false} FinalConforms(st: State)
    ensures ConformsFinal(Obj(FinalOut(st))) <==> HasGoodTotals(st)
  {
    assert TotalSteps in FINAL_FIELDS;
  }

  lemma {:induction false} DocumentConforms(st: State, s: Settings)
    requires IsValid(st)
    ensures Conforms(ToDocument(st, s)) <==>
            s.agentName != "" && s.version != "" && st.steps != [] && AllClean(st.steps) && HasGoodTotals(st)
  {
    DocumentFields(st, s);
    DocumentOptions(st, s);
    RootConforms(ToDocument(st, s).fields, s);
    AgentConforms(s);
    StepsConform(st);
    FinalConforms(st);
  }

  /**
    * The validator passes the document of a run on a fresh recorder if and only if the recorder has a
    * name, a version and a step, no step was given two calls with one id, every reference that was given
    * conforms, every new child was named, and the totals given last are figures.
    */
  lemma {:induction false} RunsConform(s: Settings, events: seq<Event>)
    ensures Conforms(ToDocument(Run(s, events), s)) <==>
            && s.agentName != "" && s.version != "" && Run(s, events).steps != []
            && AreInOrder(FRESH, s, events) && TotalsAreGood(events)
  {
    FreshIsValid();
    RunReflects(FRESH, s, events);
    DocumentConforms(Run(s, events), s);
  }

  // ----- figures on a step the caller names -----------------------------------------------------

  lemma {:induction false} FiguresOnOtherSteps(st: State, s: Settings, i: nat)
    requires i < |st.steps| && !IsAgentStep(st.steps[i]) && Get(st.steps[i], Metrics) != Null
    ensures !Conforms(ToDocument(st, s))
  {
    var d := StepOut(st.steps[i], i + 1);
    WrittenStep(st.steps[i], i + 1);
    assert Get(d, Source) == Get(st.steps[i], Source) && Get(d, Metrics) == Get(st.steps[i], Metrics);
    assert !ConformsRole(d);
    DocumentFields(st, s);
    var vs := StepsOut(st.steps);
    assert vs[i] == Obj(d);
    assert !ConformsSteps(vs);
  }

  lemma {:induction false} FiguresPut(st: State, id: Option<nat>, m: Dict)
    requires m != map[] && Names(st, id) && !IsDeterministicStep(st.steps[id.value - 1])
    ensures |Report(st, id, m).steps| == |st.steps|
    ensures var i := id.value - 1;
            var d := Report(st, id, m).steps[i];
            Get(d, Metrics) != Null && IsAgentStep(d) == IsAgentStep(st.steps[i])
  {
    assert MetricsTarget(st, id) == id;
  }

  lemma {:induction false} ConformsAlike(st: State, st': State, s: Settings)
    requires IsValid(st) && IsValid(st') && (AllClean(st'.steps) <==> AllClean(st.steps))
    requires |st'.steps| == |st.steps| && st'.finalMetrics == st.finalMetrics
    ensures Conforms(ToDocument(st', s)) <==> Conforms(ToDocument(st, s))
  {
    DocumentConforms(st, s);
    DocumentConforms(st', s);
  }

  lemma {:induction false} ReportStaysGood(st: State, s: Settings, id: Option<nat>, m: Dict)
    requires IsValid(st) && ConformsCounts(m) && (m == map[] || MayCarry(st, id))
    ensures Conforms(ToDocument(Report(st, id, m), s)) <==> Conforms(ToDocument(st, s))
  {
    ReportKeeps(st, id, m);
    ConformsAlike(st, Report(st, id, m), s);
  }

  lemma {:induction false} ReportBreaks(st: State, s: Settings, id: Option<nat>, m: Dict)
    requires m != map[] && !MayCarry(st, id)
    ensures !Conforms(ToDocument(Report(st, id, m), s))
  {
    FiguresPut(st, id, m);
    FiguresOnOtherSteps(Report(st, id, m), s, id.value - 1);
  }

  lemma {:induction false} ReportConforms(st: State, s: Settings, id: Option<nat>, m: Dict)
    requires IsValid(st) && Conforms(ToDocument(st, s)) && ConformsCounts(m)
    ensures Conforms(ToDocument(Report(st, id, m), s)) <==> m == map[] || MayCarry(st, id)
  {
    if m == map[] || MayCarry(st, id) {
      ReportStaysGood(st, s, id, m);
    } else {
      ReportBreaks(st, s, id, m);
    }
  }

  /**
    * A report on a named step keeps a conforming document conforming exactly when it carries no figures,
    * names no step, or names an agent step or one without a model call (which it leaves alone).
    */
  lemma {:induction false} NamedMetricsConform(
      st: State, s: Settings, id: Option<nat>, usage: Option<Dict>, cost: Option<real>, extra: Dict)
    requires IsValid(st) && Conforms(ToDocument(st, s))
    ensures Conforms(ToDocument(RecordStepMetrics(st, id, usage, cost, extra), s)) <==>
            StepMetrics(usage, cost, extra) == map[] || MayCarry(st, id)
  {
    StepMetricsConform(usage, cost, extra);
    ReportConforms(st, s, id, StepMetrics(usage, cost, extra));
  }

  /** A user step is no agent step, and says nothing of model calls. */
  lemma {:induction false} UserStep(time: string, message: string, extra: Dict, n: nat)
    ensures var d := PlainStep(USER, time, message, extra)[StepId := Int(n)];
            !IsAgentStep(d) && !IsDeterministicStep(d)
  {
    var plain := PlainStep(USER, time, message, extra);
    PlainFields(USER, time, message, extra);
    PlainIsAbsent(plain, USER, LlmCallCount);
    NumberedFields(plain, n, Source);
    NumberedFields(plain, n, LlmCallCount);
    SourcesDiffer();
  }

  lemma {:induction false} MessageAlone(s: Settings, e: Event)
    requires e.UserMessage?
    ensures var st := Run(s, [e]);
            && IsValid(st) && |st.steps| == 1 && !MayCarry(st, Some(1))
            && AreInOrder(FRESH, s, [e]) && TotalsAreGood([e])
  {
    OneCall(FRESH, s, e);
    assert LastTotals([e][..0]) == None;
    FreshIsValid();
    RunReflects(FRESH, s, [e]);
    UserStep(e.time, e.message, e.extra, 1);
  }

  lemma {:induction false} CostIsAFigure(cost: real)
    ensures StepMetrics(None, Some(cost), map[]) != map[]
  {
    assert CostUsd in StepMetrics(None, Some(cost), map[]);
  }

  /** A cost reported on a user step by its number: the document conformed before, and does not any more. */
  lemma {:induction false} CostOnUserStep(s: Settings, e: Event)
    requires s.agentName != "" && s.version != "" && e == UserMessage("", "hello", map[])
    ensures var st := Run(s, [e]);
            && Conforms(ToDocument(st, s))
            && !Conforms(ToDocument(RecordStepMetrics(st, Some(1), None, Some(1.0), map[]), s))
  {
    MessageAlone(s, e);
    RunsConform(s, [e]);
    CostIsAFigure(1.0);
    NamedMetricsConform(Run(s, [e]), s, Some(1), None, Some(1.0), map[]);
  }
}
