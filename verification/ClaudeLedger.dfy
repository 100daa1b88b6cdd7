/**
  * The account of a run whose usage is reported per model call, as Claude does (code_auditor/trajectory.py:
  * 768-815, 1044-1091, 1167-1228): the totals of the document are those of the newest report on each step.
  */
module ClaudeLedger {
  import opened Wrappers
  import opened Atif
  import opened RecorderState
  import opened RecorderInvariant
  import opened RecorderMetrics
  import opened RecorderRuns
  import opened RecorderFrames

  // ----- what was billed --------------------------------------------------------------------

  /** Usage as Anthropic reports it: the input tokens exclude what was read from or written to the cache. */
  predicate IsAnthropic(u: Dict) {
    && Get(u, InputTokens).Int? && Get(u, OutputTokens).Int?
    && Get(u, CacheReadInputTokens).Int? && Get(u, CacheCreationInputTokens).Int?
    && PromptTokens !in u && TotalPromptTokens !in u
  }

  /** One of the four figures of a report: all input tokens, output tokens, tokens read from the cache, cost. */
  function Figure(usage: Option<Dict>, cost: Option<real>, k: Key): Option<real>
    requires usage.Some? ==> IsAnthropic(usage.value)
  {
    if k == CostUsd then cost
    else if usage.None? then None
    else
      var u := usage.value;
      match k
      case PromptTokens =>
        Some((u[InputTokens].i + u[CacheReadInputTokens].i + u[CacheCreationInputTokens].i) as real)
      case CompletionTokens => Some(u[OutputTokens].i as real)
      case CachedTokens => Some(u[CacheReadInputTokens].i as real)
      case _ => None
  }

  predicate IsFigure(k: Key) {
    k == PromptTokens || k == CompletionTokens || k == CachedTokens || k == CostUsd
  }

  predicate IsClaudeCall(e: Event) {
    !e.CodexTotals? && !e.CodexTurned? && (e.Used? && e.usage.Some? ==> IsAnthropic(e.usage.value))
  }

  /** One figure: of all earlier turns, of the latest one, and whether the latest turn was a model call. */
  datatype Bill = Bill(settled: real, current: Option<real>, isOpen: bool)

  /** Whether a call makes a step that later reports are about, and if so, whether it takes them. */
  function TurnMade(st: State, e: Event): Option<bool> {
    match e
    case AgentTurn(a) => Some(a.llmCalls != 0)
    case NoModelCall(_, _) => Some(false)
    case Delegated(a) => if FirstReferring(st.steps, a.path) < |st.steps| then None else Some(false)
    case _ => None
  }

  function Billed(b: Bill, st: State, e: Event, k: Key): Bill
    requires IsClaudeCall(e)
  {
    var turn := TurnMade(st, e);
    if turn.Some? then Bill(b.settled + OrZero(b.current), None, turn.value)
    else if e.Used? && b.isOpen && Figure(e.usage, e.cost, k).Some? then
      b.(current := Figure(e.usage, e.cost, k))
    else b
  }

  predicate IsClaudeRun(events: seq<Event>) {
    forall i :: 0 <= i < |events| ==> IsClaudeCall(events[i])
  }

  function BillOf(s: Settings, events: seq<Event>, k: Key): Bill
    requires IsClaudeRun(events)
  {
    if events == [] then Bill(0.0, None, false) else
      var most := events[..|events| - 1];
      Billed(BillOf(s, most, k), Run(s, most), events[|events| - 1], k)
  }

  function Sum(b: Bill): real {
    b.settled + OrZero(b.current)
  }

  // ----- sums over steps --------------------------------------------------------------------

  lemma {:induction false} TotalSplit(steps: seq<Dict>, k: Key)
    requires steps != []
    ensures Amount(Total(steps, k)) ==
            Amount(Total(steps[..|steps| - 1], k)) + Amount(MetricOf(steps[|steps| - 1], k))
  {
  }

  lemma {:induction false} TotalKept(steps: seq<Dict>, steps': seq<Dict>, k: Key)
    requires Keep(steps, steps', Metrics)
    ensures Amount(Total(steps', k)) == Amount(Total(steps, k))
    decreases |steps'|
  {
    if |steps'| > 0 {
      var n := |steps'| - 1;
      assert KeepsAt(steps, steps', Metrics, n);
      KeepShorter(steps, steps', Metrics);
      TotalSplit(steps', k);
      if |steps| > n {
        TotalSplit(steps, k);
        TotalKept(steps[..n], steps'[..n], k);
      } else {
        TotalKept(steps, steps'[..n], k);
      }
    }
  }

  lemma {:induction false} KeepShorter(steps: seq<Dict>, steps': seq<Dict>, k: Key)
    requires Keep(steps, steps', k) && steps' != []
    ensures var n := |steps'| - 1; Keep(if |steps| > n then steps[..n] else steps, steps'[..n], k)
  {
    var n := |steps'| - 1;
    var most := if |steps| > n then steps[..n] else steps;
    forall i
      ensures KeepsAt(most, steps'[..n], k, i)
    {
      assert KeepsAt(steps, steps', k, i);
    }
  }

  lemma {:induction false} TotalUpdated(steps: seq<Dict>, i: nat, d: Dict, k: Key)
    requires i < |steps|
    ensures Amount(Total(steps[i := d], k)) ==
            Amount(Total(steps, k)) - Amount(MetricOf(steps[i], k)) + Amount(MetricOf(d, k))
    decreases |steps|
  {
    var n := |steps| - 1;
    TotalSplit(steps, k);
    TotalSplit(steps[i := d], k);
    if i < n {
      TotalUpdated(steps[..n], i, d, k);
      assert steps[i := d][..n] == steps[..n][i := d];
    } else {
      assert steps[i := d][..n] == steps[..n];
    }
  }

  // ----- what a step shows ------------------------------------------------------------------

  predicate HasFigure(m: Dict, k: Key, figure: Option<real>) {
    if figure.None? then k !in m else k in m && IsNumber(m[k]) && AsReal(m[k]) == figure.value
  }

  predicate ShowsFigure(d: Dict, k: Key, figure: Option<real>) {
    if Get(d, Metrics).Obj? then HasFigure(d[Metrics].fields, k, figure) else Get(d, Metrics).Null? && figure.None?
  }

  lemma {:induction false} FigureAmount(d: Dict, k: Key, figure: Option<real>)
    requires ShowsFigure(d, k, figure)
    ensures Amount(MetricOf(d, k)) == OrZero(figure)
  {
  }

  lemma {:induction false} FigureReplaced(d: Dict, m: Dict, k: Key, before: Option<real>, figure: Option<real>)
    requires ShowsFigure(d, k, before) && HasFigure(m, k, figure) && k != Extra
    ensures ShowsFigure(PutMetrics(d, m), k, if figure.Some? then figure else before)
    ensures IsDeterministicStep(PutMetrics(d, m)) == IsDeterministicStep(d)
  {
    assert Get(PutMetrics(d, m), LlmCallCount) == Get(d, LlmCallCount);
  }

  lemma {:induction false} FirstSpelling(u: Dict, names: seq<Key>)
    requires names != []
    ensures IsNumber(Get(u, names[0])) ==> Number(u, names) == Some(AsReal(Get(u, names[0])))
    ensures !IsNumber(Get(u, names[0])) ==> Number(u, names) == Number(u, names[1..])
  {
  }

  lemma {:induction false} AnthropicNumbers(u: Dict)
    requires IsAnthropic(u)
    ensures Number(u, [PromptTokens, TotalPromptTokens]) == None
    ensures Number(u, [InputTokens, InputTokensCamel]) == Some(u[InputTokens].i as real)
    ensures Number(u, [CacheReadInputTokens, CachedInputTokensCamel, CachedTokens]) ==
            Some(u[CacheReadInputTokens].i as real)
    ensures Number(u, [CacheCreationInputTokens, CacheCreationInputTokensCamel, CacheWriteInputTokens]) ==
            Some(u[CacheCreationInputTokens].i as real)
    ensures Number(u, [OutputTokens, OutputTokensCamel, CompletionTokens]) == Some(u[OutputTokens].i as real)
  {
    FirstSpelling(u, [PromptTokens, TotalPromptTokens]);
    FirstSpelling(u, [TotalPromptTokens]);
  }

  lemma {:induction false} Whole(i: int)
    ensures Truncated(i as real) == i
  {
  }

  lemma {:induction false} UsageFigures(u: Dict, k: Key)
    requires IsAnthropic(u) && IsFigure(k)
    ensures HasFigure(MetricsFromUsage(u), k, Figure(Some(u), None, k))
  {
    AnthropicNumbers(u);
    Whole(u[InputTokens].i + u[CacheReadInputTokens].i + u[CacheCreationInputTokens].i);
    Whole(u[OutputTokens].i);
    Whole(u[CacheReadInputTokens].i);
  }

  lemma {:induction false} ReportFigures(usage: Option<Dict>, cost: Option<real>, extra: Dict, k: Key)
    requires (usage.Some? ==> IsAnthropic(usage.value)) && IsFigure(k)
    ensures HasFigure(StepMetrics(usage, cost, extra), k, Figure(usage, cost, k))
  {
    var m := if usage.Some? then MetricsFromUsage(usage.value) else map[];
    if usage.Some? {
      UsageFigures(usage.value, k);
    }
    PricedFigures(m, cost, k);
    assert Get(StepMetrics(usage, cost, extra), k) == Get(Priced(m, cost), k);
  }

  function Priced(m: Dict, cost: Option<real>): Dict {
    if cost.Some? then m[CostUsd := Float(cost.value)] else m
  }

  lemma {:induction false} PricedFigures(m: Dict, cost: Option<real>, k: Key)
    ensures Get(Priced(m, cost), k) == if k == CostUsd && cost.Some? then Float(cost.value) else Get(m, k)
  {
  }

  // ----- the document shows what was billed -------------------------------------------------

  /** Reports go to the last agent step, which shows the current figure; or there is no step that takes them. */
  predicate PointsAtTurn(st: State, b: Bill, k: Key) {
    var last := StepAt(st, st.lastAgentStep);
    if b.isOpen then last.Some? && !IsDeterministicStep(last.value) && ShowsFigure(last.value, k, b.current)
    else b.current.None? && (last.Some? ==> IsDeterministicStep(last.value))
  }

  predicate ShowsBill(st: State, b: Bill, k: Key) {
    Amount(Total(st.steps, k)) == Sum(b) && PointsAtTurn(st, b, k)
  }

  lemma {:induction false} ResultsKeepLast(st: State, rs: seq<ResultArgs>)
    ensures ToolResults(st, rs).lastAgentStep == st.lastAgentStep
    decreases |rs|
  {
    if rs != [] {
      ResultsKeepLast(st, rs[..|rs| - 1]);
    }
  }

  lemma {:induction false} LastStays(st: State, s: Settings, e: Event)
    requires IsClaudeCall(e) && TurnMade(st, e).None?
    ensures Apply(st, s, e).lastAgentStep == st.lastAgentStep
  {
  }

  lemma {:induction false} TurnAppends(st: State, s: Settings, a: AgentArgs)
    ensures var st', n := AgentStep(st, s, a), |st.steps|;
            && st'.lastAgentStep == Some(n + 1) && |st'.steps| == n + 1
            && Get(st'.steps[n], LlmCallCount) == Int(a.llmCalls)
  {
    AgentField(s, a, LlmCallCount);
    NumberedFields(AgentDict(s, a), |st.steps| + 1, LlmCallCount);
  }

  lemma {:induction false} DeterministicAppends(st: State, s: Settings, a: AgentArgs, rs: seq<ResultArgs>)
    ensures var st', n := Deterministic(st, s, a, rs), |st.steps|;
            && st'.lastAgentStep == Some(n + 1) && |st'.steps| > n && Get(st'.steps[n], LlmCallCount) == Int(0)
  {
    var st1 := AgentStep(st, s, a.(llmCalls := 0));
    TurnAppends(st, s, a.(llmCalls := 0));
    ResultsKeepLast(st1, rs);
    ResultsKeepFields(st1, rs, LlmCallCount);
    assert KeepsAt(st1.steps, ToolResults(st1, rs).steps, LlmCallCount, |st.steps|);
  }

  /** The step at the place, without figures, is the last turn; it takes reports or not. */
  predicate IsLastTurn(st: State, n: nat, isOpen: bool) {
    && st.lastAgentStep == Some(n + 1) && n < |st.steps| && Get(st.steps[n], Metrics).Null?
    && (IsDeterministicStep(st.steps[n]) <==> !isOpen)
  }

  lemma {:induction false} AgentIsLast(st: State, s: Settings, a: AgentArgs)
    ensures IsLastTurn(AgentStep(st, s, a), |st.steps|, a.llmCalls != 0)
  {
    TurnAppends(st, s, a);
    AgentKeepsFields(st, s, a, Metrics);
    assert KeepsAt(st.steps, AgentStep(st, s, a).steps, Metrics, |st.steps|);
  }

  lemma {:induction false} DeterministicIsLast(st: State, s: Settings, a: AgentArgs, rs: seq<ResultArgs>)
    ensures IsLastTurn(Deterministic(st, s, a, rs), |st.steps|, false)
  {
    DeterministicAppends(st, s, a, rs);
    DeterministicKeepsFields(st, s, a, rs, Metrics);
    assert KeepsAt(st.steps, Deterministic(st, s, a, rs).steps, Metrics, |st.steps|);
  }

  /** A call that makes a turn makes it the last one, without figures. */
  lemma {:induction false} TurnIsLast(st: State, s: Settings, e: Event)
    requires TurnMade(st, e).Some?
    ensures IsLastTurn(Apply(st, s, e), |st.steps|, TurnMade(st, e).value)
  {
    match e {
      case AgentTurn(a) => AgentIsLast(st, s, a);
      case NoModelCall(a, rs) => DeterministicIsLast(st, s, a, rs);
      case Delegated(a) => DeterministicIsLast(st, s, DelegationCall(a), [DelegationResult(s, a)]);
    }
  }

  lemma {:induction false} TurnOpens(st: State, st': State, b: Bill, isOpen: bool, k: Key)
    requires ShowsBill(st, b, k) && Keep(st.steps, st'.steps, Metrics) && IsLastTurn(st', |st.steps|, isOpen)
    ensures ShowsBill(st', Bill(Sum(b), None, isOpen), k)
  {
    TotalKept(st.steps, st'.steps, k);
  }

  lemma {:induction false} TurnIsBilled(st: State, s: Settings, e: Event, b: Bill, k: Key)
    requires ShowsBill(st, b, k) && IsClaudeCall(e) && TurnMade(st, e).Some?
    ensures ShowsBill(Apply(st, s, e), Billed(b, st, e, k), k)
  {
    TurnIsLast(st, s, e);
    OthersKeepFields(st, s, e, Metrics);
    TurnOpens(st, Apply(st, s, e), b, TurnMade(st, e).value, k);
  }

  lemma {:induction false} SameTurn(st: State, st': State, b: Bill, k: Key)
    requires ShowsBill(st, b, k) && st'.lastAgentStep == st.lastAgentStep
    requires Keep(st.steps, st'.steps, Metrics) && Keep(st.steps, st'.steps, LlmCallCount)
    requires st.lastAgentStep.Some? ==> 1 <= st.lastAgentStep.value <= |st.steps|
    ensures ShowsBill(st', b, k)
  {
    TotalKept(st.steps, st'.steps, k);
    if st.lastAgentStep.Some? {
      var i := st.lastAgentStep.value - 1;
      assert KeepsAt(st.steps, st'.steps, Metrics, i) && KeepsAt(st.steps, st'.steps, LlmCallCount, i);
    }
  }

  lemma {:induction false} OtherIsBilled(st: State, s: Settings, e: Event, b: Bill, k: Key)
    requires ShowsBill(st, b, k) && IsClaudeCall(e) && TurnMade(st, e).None? && !e.Used?
    requires st.lastAgentStep.Some? ==> 1 <= st.lastAgentStep.value <= |st.steps|
    ensures ShowsBill(Apply(st, s, e), Billed(b, st, e, k), k)
  {
    LastStays(st, s, e);
    OthersKeepFields(st, s, e, Metrics);
    OthersKeepFields(st, s, e, LlmCallCount);
    SameTurn(st, Apply(st, s, e), b, k);
  }

  lemma {:induction false} FigurePut(st: State, b: Bill, k: Key, i: nat, d: Dict, figure: Option<real>)
    requires ShowsBill(st, b, k) && b.isOpen && st.lastAgentStep == Some(i + 1)
    requires ShowsFigure(d, k, figure) && !IsDeterministicStep(d)
    ensures ShowsBill(st.(steps := st.steps[i := d]), b.(current := figure), k)
  {
    TotalUpdated(st.steps, i, d, k);
    FigureAmount(st.steps[i], k, b.current);
    FigureAmount(d, k, figure);
  }

  lemma {:induction false} ReportShown(st: State, b: Bill, k: Key, m: Dict, figure: Option<real>)
    requires ShowsBill(st, b, k) && HasFigure(m, k, figure) && k != Extra
    ensures ShowsBill(Report(st, st.lastAgentStep, m),
                      if b.isOpen && figure.Some? then b.(current := figure) else b, k)
  {
    if b.isOpen && m != map[] {
      var i := st.lastAgentStep.value - 1;
      FigureReplaced(st.steps[i], m, k, b.current, figure);
      FigurePut(st, b, k, i, PutMetrics(st.steps[i], m), if figure.Some? then figure else b.current);
    }
  }

  lemma {:induction false} ReportIsBilled(st: State, s: Settings, e: Event, b: Bill, k: Key)
    requires ShowsBill(st, b, k) && IsClaudeCall(e) && e.Used? && IsFigure(k)
    ensures ShowsBill(Apply(st, s, e), Billed(b, st, e, k), k)
  {
    ReportFigures(e.usage, e.cost, e.extra, k);
    ReportShown(st, b, k, StepMetrics(e.usage, e.cost, e.extra), Figure(e.usage, e.cost, k));
  }

  lemma {:induction false} CallIsBilled(st: State, s: Settings, e: Event, b: Bill, k: Key)
    requires ShowsBill(st, b, k) && IsClaudeCall(e) && IsFigure(k)
    requires st.lastAgentStep.Some? ==> 1 <= st.lastAgentStep.value <= |st.steps|
    ensures ShowsBill(Apply(st, s, e), Billed(b, st, e, k), k)
    ensures var last := Apply(st, s, e).lastAgentStep; last.Some? ==> 1 <= last.value <= |Apply(st, s, e).steps|
  {
    if TurnMade(st, e).Some? {
      TurnIsLast(st, s, e);
      TurnIsBilled(st, s, e, b, k);
    } else if e.Used? {
      ReportIsBilled(st, s, e, b, k);
    } else {
      LastStays(st, s, e);
      OthersKeepFields(st, s, e, Metrics);
      OtherIsBilled(st, s, e, b, k);
    }
  }

  lemma {:induction false} RunIsBilled(s: Settings, events: seq<Event>, k: Key)
    requires IsClaudeRun(events) && IsFigure(k)
    ensures ShowsBill(Run(s, events), BillOf(s, events, k), k)
    ensures var st := Run(s, events); st.lastAgentStep.Some? ==> 1 <= st.lastAgentStep.value <= |st.steps|
    decreases |events|
  {
    if events != [] {
      var most := events[..|events| - 1];
      RunIsBilled(s, most, k);
      CallIsBilled(Run(s, most), s, events[|events| - 1], BillOf(s, most, k), k);
    }
  }

  function TotalOf(k: Key): Key
    requires IsFigure(k)
  {
    match k
    case PromptTokens => TotalPromptTokens
    case CompletionTokens => TotalCompletionTokens
    case CachedTokens => TotalCachedTokens
    case _ => TotalCostUsd
  }

  predicate IsGiven(totals: Dict, k: Key) {
    k in totals && (totals[k].Int? || totals[k].Float? || totals[k].Bool?)
  }

  lemma {:induction false} FinalFigure(steps: seq<Dict>, totals: Dict, k: Key)
    requires IsFigure(k)
    ensures var shown := Get(FinishTotals(steps, totals), TotalOf(k));
            if IsGiven(totals, TotalOf(k)) then shown == totals[TotalOf(k)]
            else Amount(shown) == Amount(Total(steps, k))
  {
    FinalField(steps, totals, TotalOf(k));
  }

  /**
    * The totals of a finished run: each is the one given to the finish, and otherwise the sum over the model
    * calls of the newest figure reported for them. Reports that follow a turn without a model call count
    * nowhere.
    */
  lemma {:induction false} TotalsAreBilled(s: Settings, events: seq<Event>, totals: Dict, k: Key)
    requires IsClaudeRun(events) && IsFigure(k)
    ensures var st := Finish(Run(s, events), totals);
            && st.finalMetrics.Some?
            && var shown := Get(st.finalMetrics.value, TotalOf(k));
               if IsGiven(totals, TotalOf(k)) then shown == totals[TotalOf(k)]
               else Amount(shown) == Sum(BillOf(s, events, k))
  {
    var st := Run(s, events);
    RunIsBilled(s, events, k);
    FinishKeepsFields(st, totals, Metrics);
    TotalKept(st.steps, Renumbered(st.steps), k);
    FinalFigure(Renumbered(st.steps), totals, k);
  }

  /** The number of steps is given to the finish, or that of the document. */
  lemma {:induction false} StepsAreCounted(s: Settings, events: seq<Event>, totals: Dict)
    ensures var st := Finish(Run(s, events), totals);
            && st.finalMetrics.Some?
            && Get(st.finalMetrics.value, TotalSteps) ==
               if IsGiven(totals, TotalSteps) then totals[TotalSteps] else Int(|st.steps|)
  {
    FinalField(Renumbered(Run(s, events).steps), totals, TotalSteps);
  }

  // ----- what else a report says --------------------------------------------------------------

  /** A figure is cut off toward zero. */
  lemma {:induction false} FiguresAreCut(r: real)
    ensures r >= 0.0 ==> 0.0 <= r - Truncated(r) as real < 1.0
    ensures r <= 0.0 ==> 0.0 <= Truncated(r) as real - r < 1.0
  {
  }

  /** Tokens written to the cache and tokens of reasoning are noted unless there are none. */
  lemma {:induction false} UsageNotes(u: Dict)
    requires IsAnthropic(u) && !IsNumber(Get(u, ReasoningOutputTokensCamel)) && Get(u, ReasoningOutputTokens).Int?
    ensures var written, reasoning := u[CacheCreationInputTokens].i, u[ReasoningOutputTokens].i;
            && NoteIn(MetricsFromUsage(u), CacheCreationInputTokens) == (if written == 0 then Null else Int(written))
            && NoteIn(MetricsFromUsage(u), ReasoningTokens) == (if reasoning == 0 then Null else Int(reasoning))
  {
    AnthropicNumbers(u);
    FirstSpelling(u, [ReasoningOutputTokensCamel, ReasoningOutputTokens, ReasoningTokens]);
    FirstSpelling(u, [ReasoningOutputTokens, ReasoningTokens]);
    Whole(u[CacheCreationInputTokens].i);
    Whole(u[ReasoningOutputTokens].i);
    var written := if u[CacheCreationInputTokens].i == 0 then Null else u[CacheCreationInputTokens];
    var reasoning := if u[ReasoningOutputTokens].i == 0 then Null else u[ReasoningOutputTokens];
    ExtraOfUsage(u, written, reasoning);
    TwoNotes(MetricsFromUsage(u), written, reasoning);
  }

  /** What the caller notes on a report comes before what the usage says. */
  lemma {:induction false} ReportNotes(usage: Option<Dict>, cost: Option<real>, extra: Dict, k: Key)
    ensures NoteIn(StepMetrics(usage, cost, extra), k) ==
            if k in extra then extra[k] else if usage.Some? then NoteIn(MetricsFromUsage(usage.value), k) else Null
  {
    var m := if usage.Some? then MetricsFromUsage(usage.value) else map[];
    var priced := Priced(m, cost);
    PricedFigures(m, cost, Extra);
    assert NoteIn(priced, k) == NoteIn(m, k);
    assert extra == map[] ==> StepMetrics(usage, cost, extra) == priced;
  }

  function MetricNote(d: Dict, k: Key): Value {
    if Get(d, Metrics).Obj? then NoteIn(d[Metrics].fields, k) else Null
  }

  /** Something that is there and is no number is not replaced. */
  lemma {:induction false} OddFiguresStay(existing: Dict, m: Dict, k: Key)
    requires k in existing && !IsNumber(existing[k]) && k != Extra
    ensures k in MergeMetrics(existing, m) && MergeMetrics(existing, m)[k] == existing[k]
  {
  }

  lemma {:induction false} ExtraIsMerged(existing: Dict, m: Dict)
    requires Get(m, Extra).Obj? || Extra !in m
    ensures Get(MergeMetrics(existing, m), Extra) ==
            if Get(m, Extra).Obj?
            then Obj((if Get(existing, Extra).Obj? then existing[Extra].fields else map[]) + m[Extra].fields)
            else Get(existing, Extra)
  {
  }

  /** The notes of a report are added to those of the step; a newer one replaces an older one. */
  lemma {:induction false} NotesAreMerged(d: Dict, m: Dict, k: Key)
    requires Get(m, Extra).Obj? || Extra !in m
    ensures MetricNote(PutMetrics(d, m), k) ==
            if Get(m, Extra).Obj? && k in m[Extra].fields then m[Extra].fields[k] else MetricNote(d, k)
  {
    if Get(d, Metrics).Obj? {
      ExtraIsMerged(d[Metrics].fields, m);
      assert Get(PutMetrics(d, m), Metrics) == Obj(MergeMetrics(d[Metrics].fields, m));
    } else {
      assert Get(PutMetrics(d, m), Metrics) == Obj(m);
    }
  }
}
