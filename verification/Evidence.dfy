/**
  * No tool result is lost (code_auditor/trajectory.py:625-766): every one that was given is in the document,
  * exactly as often as it was given, whether or not its call was known. Of delegations to one child only
  * the first one's summary is kept.
  */
module Evidence {
  import opened Wrappers
  import opened Atif
  import opened RecorderState
  import opened RecorderInvariant
  import opened RecorderRuns
  import opened Delegations

  /** A text, and the call that it is the result of. */
  datatype Item = Item(callId: string, text: string)

  /** The call that a result names: the one it belongs to, or the unknown one in its extra field. */
  function CallNamed(d: Dict): Value {
    if SourceCallId in d then d[SourceCallId]
    else if Get(d, Extra).Obj? then Get(d[Extra].fields, UnknownSourceCallId) else Null
  }

  function Matches(v: Value, item: Item): nat {
    if v.Obj? && Get(v.fields, Content) == Str(item.text) && CallNamed(v.fields) == Str(item.callId) then 1 else 0
  }

  function InResults(results: seq<Value>, item: Item): nat {
    if results == [] then 0 else
      InResults(results[..|results| - 1], item) + Matches(results[|results| - 1], item)
  }

  function InStep(d: Dict, item: Item): nat {
    InResults(ResultsOf(d), item)
  }

  /** How many results of the document hold the text. */
  function InSteps(steps: seq<Dict>, item: Item): nat {
    if steps == [] then 0 else InSteps(steps[..|steps| - 1], item) + InStep(steps[|steps| - 1], item)
  }

  function Same(a: Item, b: Item): nat {
    if a == b then 1 else 0
  }

  function InGiven(rs: seq<ResultArgs>, item: Item): nat {
    if rs == [] then 0 else InGiven(rs[..|rs| - 1], item) + Same(Item(rs[|rs| - 1].callId, rs[|rs| - 1].content), item)
  }

  /** A repeated delegation gives no result, it is only counted. */
  function Summarised(st: State, a: SubagentArgs, item: Item): nat {
    if FirstReferring(st.steps, a.path) < |st.steps| then 0 else Same(Item(a.callId, a.summary), item)
  }

  /** The results that one call gives. */
  function GivenBy(st: State, e: Event, item: Item): nat {
    match e
    case Returned(r) => Same(Item(r.callId, r.content), item)
    case NoModelCall(_, rs) => InGiven(rs, item)
    case Delegated(a) => Summarised(st, a, item)
    case _ => 0
  }

  function Given(s: Settings, events: seq<Event>, item: Item): nat {
    if events == [] then 0 else
      Given(s, events[..|events| - 1], item)
      + GivenBy(Run(s, events[..|events| - 1]), events[|events| - 1], item)
  }

  // ----- counting ---------------------------------------------------------------------------

  lemma {:induction false} CountAppended(steps: seq<Dict>, d: Dict, item: Item)
    ensures InSteps(steps + [d], item) == InSteps(steps, item) + InStep(d, item)
  {
    assert (steps + [d])[..|steps|] == steps;
  }

  lemma {:induction false} CountUpdated(steps: seq<Dict>, i: nat, d: Dict, item: Item)
    requires i < |steps|
    ensures InSteps(steps[i := d], item) == InSteps(steps, item) - InStep(steps[i], item) + InStep(d, item)
    decreases |steps|
  {
    var n := |steps| - 1;
    var most, steps' := steps[..n], steps[i := d];
    if i < n {
      CountUpdated(most, i, d, item);
      assert steps'[..n] == most[i := d];
    } else {
      assert steps'[..n] == most;
    }
  }

  lemma {:induction false} CountKept(steps: seq<Dict>, steps': seq<Dict>, item: Item)
    requires |steps'| == |steps| && forall i :: 0 <= i < |steps| ==> ResultsOf(steps'[i]) == ResultsOf(steps[i])
    ensures InSteps(steps', item) == InSteps(steps, item)
    decreases |steps|
  {
    if steps != [] {
      CountKept(steps[..|steps| - 1], steps'[..|steps| - 1], item);
    }
  }

  lemma {:induction false} CountAdded(d: Dict, v: Value, item: Item)
    ensures InStep(AddResult(d, v), item) == InStep(d, item) + Matches(v, item)
  {
    ResultAdded(d, v);
    LongerResults(ResultsOf(d), v, item);
  }

  lemma {:induction false} LongerResults(results: seq<Value>, v: Value, item: Item)
    ensures InResults(results + [v], item) == InResults(results, item) + Matches(v, item)
  {
    assert (results + [v])[..|results|] == results;
  }

  lemma {:induction false} NewStepHoldsNone(st: State, d: Dict, item: Item)
    requires Get(d, Observation).Null?
    ensures InSteps(AddStep(st, d).steps, item) == InSteps(st.steps, item)
  {
    var d' := d[StepId := Int(|st.steps| + 1)];
    NumberedFields(d, |st.steps| + 1, Observation);
    assert ResultsOf(d') == [];
    CountAppended(st.steps, d', item);
  }

  // ----- results -----------------------------------------------------------------------------

  lemma {:induction false} ResultNames(r: ResultArgs)
    ensures CallNamed(MatchedResult(r).fields) == Str(r.callId)
    ensures CallNamed(OrphanedResult(r).fields) == Str(r.callId)
  {
    ResultFields(r);
    ResultExtras(r);
  }

  lemma {:induction false} ResultHolds(r: ResultArgs, item: Item)
    ensures Matches(MatchedResult(r), item) == Same(Item(r.callId, r.content), item)
    ensures Matches(OrphanedResult(r), item) == Same(Item(r.callId, r.content), item)
  {
    ResultFields(r);
    ResultNames(r);
  }

  lemma {:induction false} MatchedIsKept(steps: seq<Dict>, i: nat, r: ResultArgs, item: Item)
    requires i < |steps|
    ensures InSteps(steps[i := AddResult(steps[i], MatchedResult(r))], item) ==
            InSteps(steps, item) + Same(Item(r.callId, r.content), item)
  {
    ResultHolds(r, item);
    CountAdded(steps[i], MatchedResult(r), item);
    CountUpdated(steps, i, AddResult(steps[i], MatchedResult(r)), item);
  }

  lemma {:induction false} OrphanIsKept(st: State, r: ResultArgs, item: Item)
    ensures InSteps(AddStep(st, AddResult(OrphanStep(r.time), OrphanedResult(r))).steps, item) ==
            InSteps(st.steps, item) + Same(Item(r.callId, r.content), item)
  {
    var d, v, n := OrphanStep(r.time), OrphanedResult(r), |st.steps| + 1;
    OrphanShape(r.time);
    NumberedFields(d, n, Observation);
    assert ResultsOf(d[StepId := Int(n)]) == [];
    NumberedResult(d, v, n);
    CountAdded(d[StepId := Int(n)], v, item);
    ResultHolds(r, item);
    CountAppended(st.steps, AddResult(d, v)[StepId := Int(n)], item);
  }

  /** A result is kept, wherever it goes. */
  lemma {:induction false} ResultIsKept(st: State, r: ResultArgs, item: Item)
    ensures InSteps(ToolResult(st, r).steps, item) == InSteps(st.steps, item) + Same(Item(r.callId, r.content), item)
  {
    var target := TargetOf(st, r);
    if 1 <= target <= |st.steps| {
      ResultIsMatched(st, r, target);
      MatchedIsKept(st.steps, target - 1, r, item);
    } else {
      ResultIsOrphaned(st, r);
      OrphanIsKept(st, r, item);
    }
  }

  lemma {:induction false} ResultsAreKept(st: State, rs: seq<ResultArgs>, item: Item)
    ensures InSteps(ToolResults(st, rs).steps, item) == InSteps(st.steps, item) + InGiven(rs, item)
    decreases |rs|
  {
    if rs != [] {
      ResultsAreKept(st, rs[..|rs| - 1], item);
      ResultIsKept(ToolResults(st, rs[..|rs| - 1]), rs[|rs| - 1], item);
    }
  }

  lemma {:induction false} AgentHoldsNone(st: State, s: Settings, a: AgentArgs, item: Item)
    ensures InSteps(AgentStep(st, s, a).steps, item) == InSteps(st.steps, item)
  {
    AgentField(s, a, Observation);
    NewStepHoldsNone(st, AgentDict(s, a), item);
  }

  lemma {:induction false} DeterministicKeepsAll(st: State, s: Settings, a: AgentArgs, rs: seq<ResultArgs>,
      item: Item)
    ensures InSteps(Deterministic(st, s, a, rs).steps, item) == InSteps(st.steps, item) + InGiven(rs, item)
  {
    AgentHoldsNone(st, s, a.(llmCalls := 0), item);
    ResultsAreKept(AgentStep(st, s, a.(llmCalls := 0)), rs, item);
  }

  lemma {:induction false} BumpKeepsAll(steps: seq<Dict>, i: nat, item: Item)
    requires i < |steps|
    ensures InSteps(steps[i := Bump(steps[i])], item) == InSteps(steps, item)
  {
    assert ResultsOf(Bump(steps[i])) == ResultsOf(steps[i]);
    CountUpdated(steps, i, Bump(steps[i]), item);
  }

  lemma {:induction false} OneGiven(r: ResultArgs, item: Item)
    ensures InGiven([r], item) == Same(Item(r.callId, r.content), item)
  {
    assert [r][..0] == [];
  }

  lemma {:induction false} FirstIsKept(st: State, s: Settings, a: SubagentArgs, item: Item)
    ensures InSteps(Deterministic(st, s, DelegationCall(a), [DelegationResult(s, a)]).steps, item) ==
            InSteps(st.steps, item) + Same(Item(a.callId, a.summary), item)
  {
    var r := DelegationResult(s, a);
    DeterministicKeepsAll(st, s, DelegationCall(a), [r], item);
    OneGiven(r, item);
  }

  lemma {:induction false} DelegationIsKept(st: State, s: Settings, a: SubagentArgs, item: Item)
    ensures InSteps(AddSubagent(st, s, a).steps, item) == InSteps(st.steps, item) + Summarised(st, a, item)
  {
    var i := FirstReferring(st.steps, a.path);
    if i < |st.steps| {
      BumpKeepsAll(st.steps, i, item);
    } else {
      FirstIsKept(st, s, a, item);
    }
  }

  /** What the extra field of a result says: the caller's notes first, then the error mark, then the spill. */
  function NoteOn(r: ResultArgs, k: Key): Value {
    if k in r.extra then r.extra[k] else if k == IsErrorKey && r.isError then Bool(true) else Get(r.spill, k)
  }

  function NoteIn(v: Value, k: Key): Value {
    if v.Obj? && Get(v.fields, Extra).Obj? then Get(v.fields[Extra].fields, k) else Null
  }

  lemma {:induction false} ExtraHolds(r: ResultArgs, k: Key)
    ensures Get(ResultExtra(r), k) == NoteOn(r, k)
  {
  }

  lemma {:induction false} ResultExtras(r: ResultArgs)
    ensures Get(MatchedResult(r).fields, Extra) == ObjOrNull(ResultExtra(r))
    ensures Get(OrphanedResult(r).fields, Extra) == Obj(ResultExtra(r)[UnknownSourceCallId := Str(r.callId)])
  {
  }

  lemma {:induction false} NoteInExtra(v: Value, extra: Dict, k: Key)
    requires v.Obj?
    ensures Get(v.fields, Extra) == ObjOrNull(extra) ==> NoteIn(v, k) == Get(extra, k)
    ensures Get(v.fields, Extra) == Obj(extra) ==> NoteIn(v, k) == Get(extra, k)
  {
  }

  lemma {:induction false} NotesAreKept(r: ResultArgs, k: Key)
    requires k != UnknownSourceCallId
    ensures NoteIn(MatchedResult(r), k) == NoteOn(r, k) && NoteIn(OrphanedResult(r), k) == NoteOn(r, k)
  {
    ResultExtras(r);
    ExtraHolds(r, k);
    NoteInExtra(MatchedResult(r), ResultExtra(r), k);
    NoteInExtra(OrphanedResult(r), ResultExtra(r)[UnknownSourceCallId := Str(r.callId)], k);
  }

  /** A result that belongs to a call of the step. */
  predicate IsResultOf(v: Value, r: ResultArgs) {
    v.Obj? && Get(v.fields, SourceCallId) == Str(r.callId) && Get(v.fields, Content) == Str(r.content)
  }

  /** A result that only says which call it claimed to belong to. */
  predicate IsResultOfUnknown(v: Value, r: ResultArgs) {
    && v.Obj? && SourceCallId !in v.fields && Get(v.fields, Content) == Str(r.content)
    && NoteIn(v, UnknownSourceCallId) == Str(r.callId)
  }

  predicate Appends(steps: seq<Dict>, steps': seq<Dict>) {
    |steps'| == |steps| + 1 && steps'[..|steps|] == steps
  }

  /** A step without a model call that says nothing and is marked as standing for a lone result. */
  predicate IsMarked(d: Dict, time: string) {
    && Get(d, Source) == Str(AGENT) && Get(d, LlmCallCount) == Int(0) && Get(d, Message) == Str("")
    && Get(d, Timestamp) == Str(time) && Get(d, Extra) == Obj(map[OrphanResult := Bool(true)])
  }

  /** A step of its own for one result. */
  predicate IsOrphan(d: Dict, r: ResultArgs) {
    |ResultsOf(d)| == 1 && IsResultOfUnknown(ResultsOf(d)[0], r) && IsMarked(d, r.time)
  }

  lemma {:induction false} StepAppends(st: State, d: Dict)
    ensures Appends(st.steps, AddStep(st, d).steps)
    ensures AddStep(st, d).steps[|st.steps|] == d[StepId := Int(|st.steps| + 1)]
  {
  }

  lemma {:induction false} AgentHasNoResults(s: Settings, a: AgentArgs, n: nat)
    ensures ResultsOf(AgentDict(s, a)[StepId := Int(n)]) == []
  {
    AgentField(s, a, Observation);
    NumberedFields(AgentDict(s, a), n, Observation);
  }

  lemma {:induction false} AgentAppends(st: State, s: Settings, a: AgentArgs)
    ensures Appends(st.steps, AgentStep(st, s, a).steps) && ResultsOf(AgentStep(st, s, a).steps[|st.steps|]) == []
    ensures forall id :: id in IdsOf(a.calls) ==>
                           id in AgentStep(st, s, a).pending && AgentStep(st, s, a).pending[id] == |st.steps| + 1
  {
    StepAppends(st, AgentDict(s, a));
    AgentHasNoResults(s, a, |st.steps| + 1);
  }

  lemma {:induction false} OrphanIsMarked(time: string)
    ensures IsMarked(OrphanStep(time), time)
  {
  }

  lemma {:induction false} ResultInStep(d: Dict, v: Value, n: nat)
    requires IsAgentShaped(d, [], 0)
    ensures var e := AddResult(d, v)[StepId := Int(n)];
            ResultsOf(e) == [v] && forall k :: k != StepId && k != Observation ==> Get(e, k) == Get(d, k)
  {
    NumberedFields(d, n, Observation);
    NumberedResult(d, v, n);
    ResultAdded(d[StepId := Int(n)], v);
  }

  lemma {:induction false} StaysMarked(d: Dict, e: Dict, time: string)
    requires IsMarked(d, time) && forall k :: k != StepId && k != Observation ==> Get(e, k) == Get(d, k)
    ensures IsMarked(e, time)
  {
  }

  lemma {:induction false} OrphanHolds(d: Dict, v: Value, n: nat, r: ResultArgs)
    requires IsAgentShaped(d, [], 0) && IsMarked(d, r.time) && IsResultOfUnknown(v, r)
    ensures IsOrphan(AddResult(d, v)[StepId := Int(n)], r)
  {
    ResultInStep(d, v, n);
    StaysMarked(d, AddResult(d, v)[StepId := Int(n)], r.time);
  }

  lemma {:induction false} OrphanedNames(r: ResultArgs)
    ensures IsResultOfUnknown(OrphanedResult(r), r)
  {
    ResultFields(r);
    ResultExtras(r);
    NoteInExtra(OrphanedResult(r), ResultExtra(r)[UnknownSourceCallId := Str(r.callId)], UnknownSourceCallId);
  }

  lemma {:induction false} OrphanAppends(st: State, r: ResultArgs)
    requires !(1 <= TargetOf(st, r) <= |st.steps|)
    ensures Appends(st.steps, ToolResult(st, r).steps) && IsOrphan(ToolResult(st, r).steps[|st.steps|], r)
  {
    var d, v, n := OrphanStep(r.time), OrphanedResult(r), |st.steps| + 1;
    ResultIsOrphaned(st, r);
    StepAppends(st, AddResult(d, v));
    OrphanShape(r.time);
    OrphanIsMarked(r.time);
    OrphanedNames(r);
    OrphanHolds(d, v, n, r);
  }

  lemma {:induction false} MatchedNames(r: ResultArgs)
    ensures IsResultOf(MatchedResult(r), r)
  {
    ResultFields(r);
  }

  lemma {:induction false} JoinedStep(d: Dict, r: ResultArgs)
    requires ResultsOf(d) == []
    ensures var e := AddResult(d, MatchedResult(r)); |ResultsOf(e)| == 1 && IsResultOf(ResultsOf(e)[0], r)
  {
    MatchedNames(r);
    ResultAdded(d, MatchedResult(r));
  }

  lemma {:induction false} FirstJoins(st: State, r: ResultArgs)
    requires TargetOf(st, r) == |st.steps| >= 1 && ResultsOf(st.steps[|st.steps| - 1]) == []
    ensures var n, st' := |st.steps| - 1, ToolResult(st, r);
            && |st'.steps| == n + 1 && st'.steps[..n] == st.steps[..n] && r.callId !in st'.pending
            && |ResultsOf(st'.steps[n])| == 1 && IsResultOf(ResultsOf(st'.steps[n])[0], r)
  {
    var n := |st.steps| - 1;
    ResultIsMatched(st, r, n + 1);
    JoinedStep(st.steps[n], r);
  }

  /**
    * The first result of a call joins the step that made the call; a second one under the same id becomes
    * a step of its own, without a model call, that names the call as unknown.
    */
  lemma {:induction false} SecondResultIsOrphaned(st: State, s: Settings, a: AgentArgs, first: ResultArgs,
      second: ResultArgs)
    requires first.callId == second.callId && first.callId in IdsOf(a.calls)
    ensures var n, joined := |st.steps|, ToolResult(AgentStep(st, s, a), first);
            && |joined.steps| == n + 1 && joined.steps[..n] == st.steps
            && |ResultsOf(joined.steps[n])| == 1 && IsResultOf(ResultsOf(joined.steps[n])[0], first)
            && Appends(joined.steps, ToolResult(joined, second).steps)
            && IsOrphan(ToolResult(joined, second).steps[n + 1], second)
  {
    AgentAppends(st, s, a);
    FirstJoins(AgentStep(st, s, a), first);
    OrphanAppends(ToolResult(AgentStep(st, s, a), first), second);
  }

  // ----- everything else leaves results alone -------------------------------------------------

  lemma {:induction false} MetricsLeaveResults(d: Dict, m: Dict)
    ensures ResultsOf(PutMetrics(d, m)) == ResultsOf(d)
  {
    assert Get(PutMetrics(d, m), Observation) == Get(d, Observation);
  }

  lemma {:induction false} ReportKeepsAll(st: State, id: Option<nat>, m: Dict, item: Item)
    ensures InSteps(Report(st, id, m).steps, item) == InSteps(st.steps, item)
  {
    var t := MetricsTarget(st, id);
    if m != map[] && t.Some? {
      var i := t.value - 1;
      MetricsLeaveResults(st.steps[i], m);
      CountUpdated(st.steps, i, PutMetrics(st.steps[i], m), item);
    }
  }

  lemma {:induction false} FlushKeepsAll(st: State, item: Item)
    ensures InSteps(FlushUsage(st).steps, item) == InSteps(st.steps, item)
  {
    ReportKeepsAll(st.(codexPending := map[]), st.codexStep,
                   StepMetrics(Some(AsReport(st.codexPending)), None, map[]), item);
  }

  lemma {:induction false} ObserveKeepsAll(st: State, current: Usage, item: Item)
    ensures InSteps(Observe(st, current).steps, item) == InSteps(st.steps, item)
  {
    FlushKeepsAll(st.(codexTotal := current,
                  codexPending := AddUsage(st.codexPending, UsageDelta(current, st.codexTotal))), item);
  }

  lemma {:induction false} TurnKeepsAll(st: State, s: Settings, a: TurnArgs, item: Item)
    ensures InSteps(CodexTurn(st, s, a).steps, item) == InSteps(st.steps, item)
  {
    if a.usage.Some? {
      ObserveKeepsAll(st, UsageNumbers(a.usage.value), item);
    }
    AddTurnKeepsAll(if a.usage.Some? then CodexUsage(st, a.usage.value) else st, s, a, item);
  }

  lemma {:induction false} AddTurnKeepsAll(st: State, s: Settings, a: TurnArgs, item: Item)
    ensures InSteps(AddTurn(st, s, a).steps, item) == InSteps(st.steps, item)
  {
    AgentHoldsNone(st, s, TurnStep(a), item);
    FlushKeepsAll(AgentStep(st, s, TurnStep(a)).(codexStep := Some(|st.steps| + 1)), item);
  }

  lemma {:induction false} FinishKeepsAll(st: State, u: Dict, item: Item)
    ensures InSteps(Finish(st, u).steps, item) == InSteps(st.steps, item)
  {
    var steps' := Renumbered(st.steps);
    forall i | 0 <= i < |st.steps|
      ensures ResultsOf(steps'[i]) == ResultsOf(st.steps[i])
    {
      NumberedFields(st.steps[i], i + 1, Observation);
    }
    CountKept(st.steps, steps', item);
  }

  lemma {:induction false} PlainHoldsNone(st: State, source: string, time: string, message: string, extra: Dict,
      item: Item)
    ensures InSteps(AddStep(st, PlainStep(source, time, message, extra)).steps, item) == InSteps(st.steps, item)
  {
    PlainFields(source, time, message, extra);
    PlainIsAbsent(PlainStep(source, time, message, extra), source, Observation);
    NewStepHoldsNone(st, PlainStep(source, time, message, extra), item);
  }

  // ----- whole runs ---------------------------------------------------------------------------

  predicate KeepsGiven(st: State, st': State, e: Event, item: Item) {
    InSteps(st'.steps, item) == InSteps(st.steps, item) + GivenBy(st, e, item)
  }

  lemma {:induction false} StepEventKeepsGiven(st: State, s: Settings, e: Event, item: Item)
    requires !ReportsUsage(e)
    ensures KeepsGiven(st, Apply(st, s, e), e, item)
  {
    match e {
      case SystemMessage(time, message, extra) => PlainHoldsNone(st, SYSTEM, time, message, extra, item);
      case UserMessage(time, message, extra) => PlainHoldsNone(st, USER, time, message, extra, item);
      case AgentTurn(a) => AgentHoldsNone(st, s, a, item);
      case Returned(r) => ResultIsKept(st, r, item);
      case NoModelCall(a, rs) => DeterministicKeepsAll(st, s, a, rs, item);
      case Delegated(a) => DelegationIsKept(st, s, a, item);
    }
  }

  lemma {:induction false} UsageEventKeepsGiven(st: State, s: Settings, e: Event, item: Item)
    requires ReportsUsage(e)
    ensures KeepsGiven(st, Apply(st, s, e), e, item)
  {
    match e {
      case Used(usage, cost, extra) => ReportKeepsAll(st, st.lastAgentStep, StepMetrics(usage, cost, extra), item);
      case CodexTotals(totals) => ObserveKeepsAll(st, UsageNumbers(totals), item);
      case CodexTurned(a) => TurnKeepsAll(st, s, a, item);
      case Finished(totals) => FinishKeepsAll(st, totals, item);
    }
  }

  /** The document holds each text as a result exactly as often as it was given as one. */
  lemma {:induction false} EvidenceIsKept(s: Settings, events: seq<Event>, item: Item)
    ensures InSteps(Run(s, events).steps, item) == Given(s, events, item)
    decreases |events|
  {
    if events != [] {
      var most, e := events[..|events| - 1], events[|events| - 1];
      EvidenceIsKept(s, most, item);
      if ReportsUsage(e) {
        UsageEventKeepsGiven(Run(s, most), s, e, item);
      } else {
        StepEventKeepsGiven(Run(s, most), s, e, item);
      }
    }
  }

  // ----- repeated delegations -----------------------------------------------------------------

  /** The summary of a delegation is kept exactly when nothing refers to the child yet. */
  lemma {:induction false} SummaryIsKeptOnce(st: State, s: Settings, a: SubagentArgs)
    ensures InSteps(AddSubagent(st, s, a).steps, Item(a.callId, a.summary)) ==
            InSteps(st.steps, Item(a.callId, a.summary)) + 1 <==>
            FirstReferring(st.steps, a.path) == |st.steps|
  {
    DelegationIsKept(st, s, a, Item(a.callId, a.summary));
  }

  lemma {:induction false} ChildIsReferredTo(st: State, s: Settings, a: SubagentArgs)
    requires FirstReferring(st.steps, a.path) == |st.steps|
    ensures FirstReferring(AddSubagent(st, s, a).steps, a.path) < |AddSubagent(st, s, a).steps|
  {
    FirstDelegation(st, s, a);
    StepRefers(AddSubagent(st, s, a).steps[|st.steps|], a.path);
  }

  lemma {:induction false} SecondIsLost(st: State, s: Settings, a: SubagentArgs, b: SubagentArgs, item: Item)
    requires a.path == b.path && a.summary != item.text && FirstReferring(st.steps, a.path) == |st.steps|
    ensures InSteps(AddSubagent(AddSubagent(st, s, a), s, b).steps, item) == InSteps(st.steps, item)
  {
    ChildIsReferredTo(st, s, a);
    DelegationIsKept(st, s, a, item);
    DelegationIsKept(AddSubagent(st, s, a), s, b, item);
  }

  /** Two delegations to one child: what the second one reports is not in the document. */
  lemma {:induction false} SecondSummaryIsLost(s: Settings, a: SubagentArgs, b: SubagentArgs, first: Event,
      second: Event, callId: string)
    requires first == Delegated(a) && second == Delegated(b) && a.path == b.path && a.summary != b.summary
    ensures InSteps(Run(s, [first] + [second]).steps, Item(callId, b.summary)) == 0
  {
    TwoCalls(FRESH, s, first, second);
    SecondIsLost(FRESH, s, a, b, Item(callId, b.summary));
  }
}
