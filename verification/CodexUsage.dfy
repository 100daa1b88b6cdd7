/**
  * Codex reports cumulative totals (code_auditor/trajectory.py:1021-1042, 1371-1408). The growth collected
  * from them telescopes: up to the first message step it is the sum of the totals at which the counters
  * stood before each reset.
  */
module CodexUsage {
  import opened Wrappers
  import opened Atif
  import opened RecorderState
  import opened RecorderInvariant
  import opened RecorderMetrics
  import opened RecorderRuns

  function Before(us: seq<Usage>): Usage {
    if us == [] then map[] else us[|us| - 1]
  }

  /** The sum, over a sequence of cumulative totals, of what each one adds to a counter. */
  function Growth(us: seq<Usage>, c: Counter): real {
    if us == [] then 0.0 else
      var most := us[..|us| - 1];
      Growth(most, c) + At(UsageDelta(us[|us| - 1], Before(most)), c)
  }

  /** The counter has run up to here: next it is reset, missing, or not reported any more. */
  predicate EndsRun(us: seq<Usage>, c: Counter, i: int)
    requires 0 <= i < |us|
  {
    i + 1 == |us| || c !in us[i] || c !in us[i + 1] || us[i + 1][c] < us[i][c]
  }

  /** The sum of the last values of the nondecreasing runs among the first k totals. */
  function RunEnds(us: seq<Usage>, c: Counter, k: nat): real
    requires k <= |us|
  {
    if k == 0 then 0.0 else RunEnds(us, c, k - 1) + if EndsRun(us, c, k - 1) then At(us[k - 1], c) else 0.0
  }

  lemma {:induction false} GrowthSoFar(us: seq<Usage>, c: Counter, k: nat)
    requires 0 < k <= |us|
    ensures Growth(us[..k], c) == RunEnds(us, c, k - 1) + At(us[k - 1], c)
  {
    var first := us[..k];
    assert first[..k - 1] == us[..k - 1];
    if k == 1 {
      assert us[..0] == [];
    } else {
      GrowthSoFar(us, c, k - 1);
      assert Before(us[..k - 1]) == us[k - 2];
    }
  }

  /** The growths add up to the last values of the maximal nondecreasing runs. */
  lemma {:induction false} GrowthTelescopes(us: seq<Usage>, c: Counter)
    ensures Growth(us, c) == RunEnds(us, c, |us|)
  {
    if us != [] {
      GrowthSoFar(us, c, |us|);
      assert us[..|us|] == us;
    }
  }

  predicate NeverFalls(us: seq<Usage>, c: Counter) {
    forall i :: 0 <= i < |us| - 1 ==> !EndsRun(us, c, i)
  }

  lemma {:induction false} NoRunEnds(us: seq<Usage>, c: Counter, k: nat)
    requires k < |us| && NeverFalls(us, c)
    ensures RunEnds(us, c, k) == 0.0
  {
    if k > 0 {
      NoRunEnds(us, c, k - 1);
      assert !EndsRun(us, c, k - 1);
    }
  }

  /** A counter that never falls has grown to its latest total. */
  lemma {:induction false} SteadyGrowth(us: seq<Usage>, c: Counter)
    requires NeverFalls(us, c)
    ensures Growth(us, c) == At(Before(us), c)
  {
    GrowthTelescopes(us, c);
    if us != [] {
      NoRunEnds(us, c, |us| - 1);
    }
  }

  // ----- what the recorder collects ----------------------------------------------------------

  /** The cumulative totals reported in a run, oldest first. */
  function TotalsOf(events: seq<Event>): seq<Usage> {
    if events == [] then [] else TotalsOf(events[..|events| - 1]) + TotalsIn(events[|events| - 1])
  }

  /** Those of a call: a completed turn may bring its own. */
  function TotalsIn(e: Event): seq<Usage> {
    if e.CodexTotals? then [UsageNumbers(e.totals)]
    else if e.CodexTurned? && e.turn.usage.Some? then [UsageNumbers(e.turn.usage.value)] else []
  }

  /** The state of the Codex counters before the first message step. */
  ghost predicate HasCollected(st: State, us: seq<Usage>) {
    && st.codexStep.None? && st.codexTotal == Before(us)
    && (st.codexPending == map[] <==> us == [])
    && (us != [] ==> PromptC in st.codexPending)
    && forall c :: HasGrown(st.codexPending, us, c)
  }

  predicate HasGrown(pending: Usage, us: seq<Usage>, c: Counter) {
    && At(pending, c) == Growth(us, c)
    && (c in pending <==> exists i :: 0 <= i < |us| && c in us[i])
  }

  lemma {:induction false} OneMoreTotal(pending: Usage, us: seq<Usage>, u: Usage, c: Counter)
    requires HasGrown(pending, us, c)
    ensures HasGrown(AddUsage(pending, UsageDelta(u, Before(us))), us + [u], c)
  {
    var us' := us + [u];
    assert us'[..|us|] == us;
    assert us'[|us|] == u;
    assert forall i :: 0 <= i < |us| ==> us'[i] == us[i];
  }

  lemma {:induction false} Observed(st: State, us: seq<Usage>, u: Usage)
    requires HasCollected(st, us) && PromptC in u
    ensures HasCollected(Observe(st, u), us + [u])
  {
    var pending := AddUsage(st.codexPending, UsageDelta(u, Before(us)));
    var us' := us + [u];
    assert PromptC in pending;
    forall c
      ensures HasGrown(pending, us', c)
    {
      assert HasGrown(st.codexPending, us, c);
      OneMoreTotal(st.codexPending, us, u, c);
    }
    assert Before(us') == u;
  }

  /** Other calls leave the counters alone. */
  predicate SameCounters(st: State, st': State) {
    st'.codexStep == st.codexStep && st'.codexTotal == st.codexTotal && st'.codexPending == st.codexPending
  }

  lemma {:induction false} ResultsLeaveCounters(st: State, rs: seq<ResultArgs>)
    ensures SameCounters(st, ToolResults(st, rs))
    decreases |rs|
  {
    if rs != [] {
      ResultsLeaveCounters(st, rs[..|rs| - 1]);
    }
  }

  lemma {:induction false} CountersStay(st: State, s: Settings, e: Event)
    requires !e.CodexTotals? && !e.CodexTurned?
    ensures SameCounters(st, Apply(st, s, e))
  {
    match e {
      case NoModelCall(a, rs) => ResultsLeaveCounters(AgentStep(st, s, a.(llmCalls := 0)), rs);
      case Delegated(a) =>
        ResultsLeaveCounters(AgentStep(st, s, DelegationCall(a).(llmCalls := 0)), [DelegationResult(s, a)]);
      case _ =>
    }
  }

  lemma {:induction false} EventCollected(st: State, s: Settings, e: Event, us: seq<Usage>)
    requires HasCollected(st, us) && !e.CodexTurned?
    ensures HasCollected(Apply(st, s, e), us + TotalsIn(e))
  {
    if e.CodexTotals? {
      Observed(st, us, UsageNumbers(e.totals));
    } else {
      CountersStay(st, s, e);
      SameCollected(st, Apply(st, s, e), us);
      assert us + TotalsIn(e) == us;
    }
  }

  lemma {:induction false} SameCollected(st: State, st': State, us: seq<Usage>)
    requires HasCollected(st, us) && SameCounters(st, st')
    ensures HasCollected(st', us)
  {
  }

  /** Until the first turn, the recorder has collected the growth of everything reported. */
  lemma {:induction false} CollectedBeforeTurns(s: Settings, events: seq<Event>)
    requires forall i :: 0 <= i < |events| ==> !events[i].CodexTurned?
    ensures HasCollected(Run(s, events), TotalsOf(events))
    decreases |events|
  {
    if events == [] {
      NothingCollected();
    } else {
      CollectedBeforeTurns(s, events[..|events| - 1]);
      EventCollected(Run(s, events[..|events| - 1]), s, events[|events| - 1], TotalsOf(events[..|events| - 1]));
    }
  }

  lemma {:induction false} NothingCollected()
    ensures HasCollected(FRESH, [])
  {
    forall c
      ensures HasGrown(map[], [], c)
    {
    }
  }

  // ----- the first message step ----------------------------------------------------------------

  /** The totals known when a turn completes: its own usage comes last. */
  function TotalsAt(events: seq<Event>, a: TurnArgs): seq<Usage> {
    TotalsOf(events) + TotalsIn(CodexTurned(a))
  }

  lemma {:induction false} TokensOfReport(u: Usage)
    requires PromptC in u
    ensures var m := StepMetrics(Some(AsReport(u)), None, map[]);
            && Get(m, PromptTokens) == Int(Truncated(u[PromptC]))
            && (OutputC in u ==> Get(m, CompletionTokens) == Int(Truncated(u[OutputC])))
            && m != map[]
  {
    var r := AsReport(u);
    assert Get(r, PromptTokens) == Float(u[PromptC]);
    assert OutputC in u ==> Get(r, OutputTokens) == Float(u[OutputC]);
    assert Number(r, [PromptTokens, TotalPromptTokens]) == Some(u[PromptC]);
  }

  lemma {:induction false} TurnFields(s: Settings, a: TurnArgs, n: nat)
    ensures var d := AgentDict(s, TurnStep(a))[StepId := Int(n)];
            Get(d, Metrics).Null? && !IsDeterministicStep(d)
  {
    var d := AgentDict(s, TurnStep(a));
    AgentField(s, TurnStep(a), Metrics);
    AgentField(s, TurnStep(a), LlmCallCount);
    NumberedFields(d, n, Metrics);
    NumberedFields(d, n, LlmCallCount);
  }

  /** Collected usage goes to the message step as it is, when that step has no figures yet. */
  lemma {:induction false} FlushedTo(st: State, i: nat)
    requires st.codexStep == Some(i + 1) && i < |st.steps| && st.codexPending != map[]
    requires Get(st.steps[i], Metrics).Null? && !IsDeterministicStep(st.steps[i])
    ensures var m := StepMetrics(Some(AsReport(st.codexPending)), None, map[]);
            m != map[] ==> FlushUsage(st).steps == st.steps[i := st.steps[i][Metrics := Obj(m)]]
  {
    var st1 := st.(codexPending := map[]);
    assert MetricsTarget(st1, st.codexStep) == Some(i + 1);
  }

  lemma {:induction false} NewTurnStep(st: State, s: Settings, a: TurnArgs)
    requires st.codexPending != map[]
    ensures var m := StepMetrics(Some(AsReport(st.codexPending)), None, map[]);
            var steps' := AddTurn(st, s, a).steps;
            m != map[] ==> |steps'| == |st.steps| + 1 && Get(steps'[|st.steps|], Metrics) == Obj(m)
  {
    TurnFields(s, a, |st.steps| + 1);
    FlushedTo(AgentStep(st, s, TurnStep(a)).(codexStep := Some(|st.steps| + 1)), |st.steps|);
  }

  /** The figures of a step are the token counts that the totals come to. */
  ghost predicate HasTokens(d: Dict, us: seq<Usage>) {
    && Get(d, Metrics).Obj?
    && Get(d[Metrics].fields, PromptTokens) == Int(Truncated(RunEnds(us, PromptC, |us|)))
    && ((exists i :: 0 <= i < |us| && OutputC in us[i]) ==>
          Get(d[Metrics].fields, CompletionTokens) == Int(Truncated(RunEnds(us, OutputC, |us|))))
  }

  lemma {:induction false} CollectedTokens(d: Dict, st: State, us: seq<Usage>)
    requires HasCollected(st, us) && us != []
    requires Get(d, Metrics) == Obj(StepMetrics(Some(AsReport(st.codexPending)), None, map[]))
    ensures HasTokens(d, us)
  {
    assert HasGrown(st.codexPending, us, PromptC) && HasGrown(st.codexPending, us, OutputC);
    TokensOfReport(st.codexPending);
    GrowthTelescopes(us, PromptC);
    GrowthTelescopes(us, OutputC);
  }

  lemma {:induction false} TurnCollected(st: State, s: Settings, a: TurnArgs, us: seq<Usage>)
    requires HasCollected(st, us) && us != []
    ensures |AddTurn(st, s, a).steps| == |st.steps| + 1 && HasTokens(AddTurn(st, s, a).steps[|st.steps|], us)
  {
    TokensOfReport(st.codexPending);
    NewTurnStep(st, s, a);
    CollectedTokens(AddTurn(st, s, a).steps[|st.steps|], st, us);
  }

  /**
    * The first turn's message step gets the collected tokens: for each counter, the sum of the totals
    * before every reset.
    */
  lemma {:induction false} FirstTurnGetsTheTotals(s: Settings, events: seq<Event>, a: TurnArgs)
    requires (forall i :: 0 <= i < |events| ==> !events[i].CodexTurned?) && TotalsAt(events, a) != []
    ensures var before, after := Run(s, events).steps, CodexTurn(Run(s, events), s, a).steps;
            |after| == |before| + 1 && HasTokens(after[|before|], TotalsAt(events, a))
  {
    var st := Run(s, events);
    CollectedBeforeTurns(s, events);
    if a.usage.Some? {
      Observed(st, TotalsOf(events), UsageNumbers(a.usage.value));
      ObservedSteps(st, UsageNumbers(a.usage.value));
      TurnCollected(CodexUsage(st, a.usage.value), s, a, TotalsAt(events, a));
    } else {
      assert TotalsAt(events, a) == TotalsOf(events);
      TurnCollected(st, s, a, TotalsAt(events, a));
    }
  }

  lemma {:induction false} ObservedSteps(st: State, u: Usage)
    requires st.codexStep.None?
    ensures Observe(st, u).steps == st.steps
  {
  }

  /** For counters that never fall, these are the latest totals. */
  lemma {:induction false} SteadyTokens(d: Dict, us: seq<Usage>)
    requires HasTokens(d, us) && us != []
    ensures NeverFalls(us, PromptC) ==>
              Get(d[Metrics].fields, PromptTokens) == Int(Truncated(At(us[|us| - 1], PromptC)))
    ensures NeverFalls(us, OutputC) && OutputC in us[|us| - 1] ==>
              Get(d[Metrics].fields, CompletionTokens) == Int(Truncated(us[|us| - 1][OutputC]))
  {
    GrowthTelescopes(us, PromptC);
    GrowthTelescopes(us, OutputC);
    if NeverFalls(us, PromptC) {
      SteadyGrowth(us, PromptC);
    }
    if NeverFalls(us, OutputC) {
      SteadyGrowth(us, OutputC);
    }
  }

  // ----- counters as Codex names them ---------------------------------------------------------

  /** Totals as the Codex app server reports them, with cached input counted in the input. */
  predicate IsCodexReport(u: Dict) {
    && Get(u, TotalTokensCamel).Int? && Get(u, InputTokensCamel).Int? && Get(u, OutputTokensCamel).Int?
    && Get(u, CachedInputTokensCamel).Int? && Get(u, ReasoningOutputTokensCamel).Int?
    && InputTokens !in u && OutputTokens !in u && TotalTokens !in u
    && CacheReadInputTokens !in u && CachedInputTokens !in u
  }

  lemma {:induction false} LaterSpelling(u: Dict, names: seq<Key>)
    requires names != []
    ensures Number(u, names) == if IsNumber(Get(u, names[0])) then Some(AsReal(Get(u, names[0])))
                                else Number(u, names[1..])
  {
  }

  lemma {:induction false} CodexNumbers(u: Dict)
    requires IsCodexReport(u)
    ensures Number(u, [InputTokens, InputTokensCamel]) == Some(u[InputTokensCamel].i as real)
    ensures Number(u, [OutputTokens, OutputTokensCamel]) == Some(u[OutputTokensCamel].i as real)
    ensures Number(u, [TotalTokens, TotalTokensCamel]) == Some(u[TotalTokensCamel].i as real)
    ensures Number(u, [CacheReadInputTokens, CachedInputTokens, CachedInputTokensCamel]) ==
            Some(u[CachedInputTokensCamel].i as real)
  {
    LaterSpelling(u, [CacheReadInputTokens, CachedInputTokens, CachedInputTokensCamel]);
    LaterSpelling(u, [CachedInputTokens, CachedInputTokensCamel]);
    LaterSpelling(u, [CachedInputTokensCamel]);
  }

  /** The prompt is everything that is no output; what is cached is part of it and is not added again. */
  lemma {:induction false} CodexCounters(u: Dict)
    requires IsCodexReport(u)
    ensures var total, output := u[TotalTokensCamel].i, u[OutputTokensCamel].i;
            && At(UsageNumbers(u), PromptC) == (if total >= output then total - output else 0) as real
            && PromptC in UsageNumbers(u) && At(UsageNumbers(u), OutputC) == output as real
            && At(UsageNumbers(u), InputC) == u[InputTokensCamel].i as real
            && At(UsageNumbers(u), CacheReadC) == u[CachedInputTokensCamel].i as real
  {
    CodexNumbers(u);
  }

  function Cut(u: Usage, c: Counter): Value {
    if c in u then Int(Truncated(u[c])) else Null
  }

  function CutUnlessZero(u: Usage, c: Counter): Value {
    if At(u, c) == 0.0 then Null else Cut(u, c)
  }

  function InUsage(u: Usage, c: Counter): Option<real> {
    if c in u then Some(u[c]) else None
  }

  function NumberIn(d: Dict, k: Key): Option<real> {
    if IsNumber(Get(d, k)) then Some(AsReal(Get(d, k))) else None
  }

  /** A number with three spellings. */
  lemma {:induction false} Spelled(d: Dict, a: Key, b: Key, c: Key)
    ensures Number(d, [a, b, c]) == if NumberIn(d, a).Some? then NumberIn(d, a)
                                    else if NumberIn(d, b).Some? then NumberIn(d, b) else NumberIn(d, c)
  {
    LaterSpelling(d, [a, b, c]);
    assert [a, b, c][1..] == [b, c] && [b, c][1..] == [c];
    LaterSpelling(d, [b, c]);
    LaterSpelling(d, [c]);
  }

  lemma {:induction false} ReportField(u: Usage, k: Key, c: Counter)
    requires k == CacheReadInputTokens ==> c == CacheReadC
    requires k == CacheWriteInputTokens ==> c == CacheWriteC
    requires k == ReasoningOutputTokens ==> c == ReasoningC
    requires k in {CacheReadInputTokens, CacheWriteInputTokens, ReasoningOutputTokens}
    ensures Get(AsReport(u), k) == if InUsage(u, c).Some? then Float(InUsage(u, c).value) else Null
  {
  }

  lemma {:induction false} AbsentField(u: Usage, k: Key)
    requires k in {CachedInputTokensCamel, CachedTokens, CacheCreationInputTokens, CacheCreationInputTokensCamel,
                   ReasoningOutputTokensCamel, ReasoningTokens}
    ensures Get(AsReport(u), k).Null?
  {
  }

  lemma {:induction false} CacheReads(u: Usage)
    ensures Number(AsReport(u), [CacheReadInputTokens, CachedInputTokensCamel, CachedTokens]) ==
            InUsage(u, CacheReadC)
  {
    ReportField(u, CacheReadInputTokens, CacheReadC);
    AbsentField(u, CachedInputTokensCamel);
    AbsentField(u, CachedTokens);
    Spelled(AsReport(u), CacheReadInputTokens, CachedInputTokensCamel, CachedTokens);
  }

  lemma {:induction false} CacheWrites(u: Usage)
    ensures Number(AsReport(u), [CacheCreationInputTokens, CacheCreationInputTokensCamel, CacheWriteInputTokens]) ==
            InUsage(u, CacheWriteC)
  {
    ReportField(u, CacheWriteInputTokens, CacheWriteC);
    AbsentField(u, CacheCreationInputTokens);
    AbsentField(u, CacheCreationInputTokensCamel);
    Spelled(AsReport(u), CacheCreationInputTokens, CacheCreationInputTokensCamel, CacheWriteInputTokens);
  }

  lemma {:induction false} Reasonings(u: Usage)
    ensures Number(AsReport(u), [ReasoningOutputTokensCamel, ReasoningOutputTokens, ReasoningTokens]) ==
            InUsage(u, ReasoningC)
  {
    ReportField(u, ReasoningOutputTokens, ReasoningC);
    AbsentField(u, ReasoningOutputTokensCamel);
    AbsentField(u, ReasoningTokens);
    Spelled(AsReport(u), ReasoningOutputTokensCamel, ReasoningOutputTokens, ReasoningTokens);
  }

  /** What a message step shows of collected counters besides its prompt and completion tokens. */
  lemma {:induction false} ReportShowsCounters(u: Usage)
    ensures var m := MetricsFromUsage(AsReport(u));
            && Get(m, CachedTokens) == Cut(u, CacheReadC)
            && NoteIn(m, CacheCreationInputTokens) == CutUnlessZero(u, CacheWriteC)
            && NoteIn(m, ReasoningTokens) == CutUnlessZero(u, ReasoningC)
  {
    CacheReads(u);
    CacheWrites(u);
    Reasonings(u);
    ExtraOfUsage(AsReport(u), CutUnlessZero(u, CacheWriteC), CutUnlessZero(u, ReasoningC));
    TwoNotes(MetricsFromUsage(AsReport(u)), CutUnlessZero(u, CacheWriteC), CutUnlessZero(u, ReasoningC));
  }

  // ----- after the first message step ---------------------------------------------------------

  lemma {:induction false} MergedPrompt(existing: Dict, m: Dict)
    requires Get(existing, PromptTokens).Int? && Get(m, PromptTokens).Int?
    ensures Get(MergeMetrics(existing, m), PromptTokens) == Get(m, PromptTokens)
  {
    assert Replaces(existing, m, PromptTokens);
  }

  predicate ShowsPrompt(d: Dict, n: int) {
    Get(d, Metrics).Obj? && Get(d[Metrics].fields, PromptTokens) == Int(n)
  }

  predicate HasPrompt(d: Dict) {
    Get(d, Metrics).Obj? && Get(d[Metrics].fields, PromptTokens).Int?
  }

  function PromptOf(d: Dict): int
    requires HasPrompt(d)
  {
    Get(d[Metrics].fields, PromptTokens).i
  }

  lemma {:induction false} PutPrompt(d: Dict, m: Dict, n: int)
    requires HasPrompt(d) && Get(m, PromptTokens) == Int(n)
    ensures ShowsPrompt(PutMetrics(d, m), n)
  {
    MergedPrompt(d[Metrics].fields, m);
  }

  lemma {:induction false} FlushReplaces(st: State, i: nat, m: Dict)
    requires i < |st.steps| && !IsDeterministicStep(st.steps[i]) && m != map[]
    ensures Report(st, Some(i + 1), m).steps == st.steps[i := PutMetrics(st.steps[i], m)]
  {
    assert MetricsTarget(st, Some(i + 1)) == Some(i + 1);
  }

  lemma {:induction false} ObservedAlone(st: State, u: Usage)
    requires st.codexPending == map[]
    ensures Observe(st, u) == FlushUsage(st.(codexTotal := u, codexPending := UsageDelta(u, st.codexTotal)))
  {
    assert AddUsage(map[], UsageDelta(u, st.codexTotal)) == UsageDelta(u, st.codexTotal);
  }

  lemma {:induction false} FlushShows(st: State, i: nat)
    requires i < |st.steps| && st.codexStep == Some(i + 1) && PromptC in st.codexPending
    requires !IsDeterministicStep(st.steps[i]) && HasPrompt(st.steps[i])
    ensures |FlushUsage(st).steps| == |st.steps|
    ensures ShowsPrompt(FlushUsage(st).steps[i], Truncated(st.codexPending[PromptC]))
  {
    var m := StepMetrics(Some(AsReport(st.codexPending)), None, map[]);
    TokensOfReport(st.codexPending);
    FlushReplaces(st.(codexPending := map[]), i, m);
    PutPrompt(st.steps[i], m, Truncated(st.codexPending[PromptC]));
  }

  /** A step shows one figure. */
  lemma {:induction false} ShowsOne(d: Dict, growth: int, shown: int)
    requires ShowsPrompt(d, growth)
    ensures ShowsPrompt(d, shown + growth) <==> shown == 0
  {
  }

  lemma {:induction false} FlushReplacesFigure(st: State, after: State, i: nat, shown: int, growth: int)
    requires i < |st.steps| && st.codexStep == Some(i + 1) && PromptC in st.codexPending && after == FlushUsage(st)
    requires !IsDeterministicStep(st.steps[i]) && HasPrompt(st.steps[i])
    requires growth == Truncated(st.codexPending[PromptC])
    ensures |after.steps| == |st.steps| && ShowsPrompt(after.steps[i], growth)
    ensures ShowsPrompt(after.steps[i], shown + growth) <==> shown == 0
  {
    FlushShows(st, i);
    ShowsOne(after.steps[i], growth, shown);
  }

  /**
    * Later totals replace the step's figure by the growth since the previous report; they add to it
    * exactly when it is zero.
    */
  lemma {:induction false} LaterTotalsReplace(st: State, i: nat, u: Usage, after: State, shown: int, growth: int)
    requires i < |st.steps| && st.codexStep == Some(i + 1) && st.codexPending == map[] && PromptC in u
    requires !IsDeterministicStep(st.steps[i]) && HasPrompt(st.steps[i]) && after == Observe(st, u)
    requires shown == PromptOf(st.steps[i]) && growth == Truncated(UsageDelta(u, st.codexTotal)[PromptC])
    ensures |after.steps| == |st.steps| && ShowsPrompt(after.steps[i], growth)
    ensures ShowsPrompt(after.steps[i], shown + growth) <==> shown == 0
  {
    ObservedAlone(st, u);
    FlushReplacesFigure(st.(codexTotal := u, codexPending := UsageDelta(u, st.codexTotal)), after, i, shown, growth);
  }
}
