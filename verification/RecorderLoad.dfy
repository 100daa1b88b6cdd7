/**
  * Appending to a document that was written before (load, code_auditor/trajectory.py:407-468): when later
  * calls keep it conforming, and when the remembered agent step is the wrong one.
  */
module RecorderLoad {
  import opened Wrappers
  import opened Atif
  import opened RecorderState
  import opened RecorderInvariant
  import opened RecorderMetrics
  import opened RecorderRuns
  import opened RecorderFrames

  /** Names used when a loaded document has none. */
  datatype Defaults = Defaults(agentName: NonEmpty, version: NonEmpty, trajectoryId: NonEmpty)

  function TextOr(v: Value, otherwise: string): string {
    if v.Str? && v.s != "" then v.s else otherwise
  }

  function FieldsOf(v: Value): Dict {
    if v.Obj? then v.fields else map[]
  }

  /** What load keeps of a document. */
  function LoadedSettings(document: Dict, fallback: Defaults): Settings {
    var agent := FieldsOf(Get(document, Agent));
    Settings(TextOr(Get(agent, AgentName), fallback.agentName), TextOr(Get(agent, Version), fallback.version),
             TextOr(Get(agent, ModelName), ""), "", TextOr(Get(document, SessionId), ""),
             TextOr(Get(document, TrajectoryId), fallback.trajectoryId), FieldsOf(Get(document, Extra)),
             TextOr(Get(document, Notes), ""))
  }

  function LoadedSteps(steps: seq<Value>): seq<Dict> {
    if steps == [] then [] else
      var most, last := LoadedSteps(steps[..|steps| - 1]), steps[|steps| - 1];
      if last.Obj? then most + [last.fields] else most
  }

  predicate HasAgentStep(steps: seq<Dict>) {
    exists i :: 0 <= i < |steps| && IsAgentStep(steps[i])
  }

  /** load: once there is any agent step, the last step of all is remembered as the last agent step. */
  function Loaded(document: Dict): State {
    var steps := LoadedSteps(if Get(document, Steps).List? then Get(document, Steps).items else []);
    State(steps, map[], if HasAgentStep(steps) then Some(|steps|) else None,
          if Get(document, FinalMetrics).Obj? then Some(document[FinalMetrics].fields) else None, map[], map[], None)
  }

  /** The step that is remembered is an agent step, or there is none to remember. */
  predicate RemembersRightly(steps: seq<Dict>) {
    HasAgentStep(steps) ==> IsAgentStep(steps[|steps| - 1])
  }

  predicate ConformsAt(steps: seq<Dict>, i: int) {
    0 <= i < |steps| ==> ConformsStep(steps[i], i + 1)
  }

  ghost predicate AllConform(steps: seq<Dict>) {
    forall i :: ConformsAt(steps, i)
  }

  lemma {:induction false} AllLoaded(steps: seq<Value>)
    requires forall i :: 0 <= i < |steps| ==> steps[i].Obj?
    ensures |LoadedSteps(steps)| == |steps| && forall i :: 0 <= i < |steps| ==> LoadedSteps(steps)[i] == steps[i].fields
    decreases |steps|
  {
    if steps != [] {
      AllLoaded(steps[..|steps| - 1]);
    }
  }

  lemma {:induction false} LoadedStepsConform(steps: seq<Value>)
    requires ConformsSteps(steps)
    ensures AllConform(LoadedSteps(steps))
  {
    AllLoaded(steps);
    var loaded := LoadedSteps(steps);
    forall i
      ensures ConformsAt(loaded, i)
    {
      if 0 <= i < |steps| {
        assert ConformsStep(steps[i].fields, i + 1);
      }
    }
  }

  lemma {:induction false} ConformingIsSound(d: Dict, n: int)
    requires ConformsStep(d, n)
    ensures IsSound(d, n) && IsClean(d)
  {
    forall i | 0 <= i < |ResultsOf(d)|
      ensures IsSoundResult(ResultsOf(d)[i], CallIds(CallsOf(d))) && AreCleanRefs(RefsOfResult(ResultsOf(d)[i]))
    {
      assert ConformsResult(ResultsOf(d)[i], CallIds(CallsOf(d)));
    }
    forall a: Aspect
      ensures Meets(d, n, a)
    {
    }
  }

  lemma {:induction false} ConformingAreSound(steps: seq<Dict>)
    requires AllConform(steps)
    ensures IsValid(State(steps, map[], None, None, map[], map[], None)) && AllClean(steps)
  {
    forall i
      ensures IsSoundAt(steps, i) && IsCleanAt(steps, i)
    {
      assert ConformsAt(steps, i);
      if 0 <= i < |steps| {
        ConformingIsSound(steps[i], i + 1);
      }
    }
  }

  /** A conforming document is loaded into a valid state, but for the remembered step. */
  lemma {:induction false} LoadedIsValid(document: Dict)
    requires Conforms(Obj(document))
    ensures var st := Loaded(document);
            && AllClean(st.steps) && HasGoodTotals(st) && st.steps != []
            && IsValid(st.(lastAgentStep := None))
            && (RemembersRightly(st.steps) ==> IsValid(st))
  {
    var st := Loaded(document);
    LoadedStepsConform(Get(document, Steps).items);
    AllLoaded(Get(document, Steps).items);
    ConformingAreSound(st.steps);
    var base := State(st.steps, map[], None, None, map[], map[], None);
    PendingOnly(base, st.(lastAgentStep := None));
    if RemembersRightly(st.steps) {
      Remembered(base, st);
    }
  }

  lemma {:induction false} Remembered(base: State, st: State)
    requires IsValid(base) && st.steps == base.steps && st.pending == base.pending && st.codexStep.None?
    requires st.lastAgentStep.Some? ==> IsAgentAt(st.steps, st.lastAgentStep.value)
    ensures IsValid(st)
  {
    forall id
      ensures IsPendingAt(st, id)
    {
      assert IsPendingAt(base, id);
    }
  }

  // ----- the wrong step ---------------------------------------------------------------------------

  /** The call appends a step that becomes the last agent step. */
  predicate AddsAgentStep(st: State, e: Event) {
    match e
    case AgentTurn(_) => true
    case NoModelCall(_, _) => true
    case Delegated(a) => FirstReferring(st.steps, a.path) == |st.steps|
    case CodexTurned(a) => a.message != "" || a.reasoning != "" || a.usage.Some? || st.codexPending != map[]
    case _ => false
  }

  predicate AddNoAgentStep(st: State, s: Settings, events: seq<Event>) {
    if events == [] then true else
      var most := events[..|events| - 1];
      AddNoAgentStep(st, s, most) && !AddsAgentStep(RunFrom(st, s, most), events[|events| - 1])
  }

  predicate HasFigures(e: Event) {
    e.Used? && StepMetrics(e.usage, e.cost, e.extra) != map[]
  }

  /** Figures are reported before there is a new agent step that they could belong to. */
  predicate ReportTooEarly(st: State, s: Settings, events: seq<Event>) {
    if events == [] then false else
      var most := events[..|events| - 1];
      ReportTooEarly(st, s, most) || (AddNoAgentStep(st, s, most) && HasFigures(events[|events| - 1]))
  }

  /** The step that is remembered is no agent step; nothing else is wrong with the state. */
  ghost predicate IsMistaken(st: State, isDeterministic: bool) {
    && IsValid(st.(lastAgentStep := None)) && st.codexStep.None? && Names(st, st.lastAgentStep)
    && !IsAgentStep(st.steps[st.lastAgentStep.value - 1])
    && IsDeterministicStep(st.steps[st.lastAgentStep.value - 1]) == isDeterministic
  }

  lemma {:induction false} AgentStepForgets(st: State, s: Settings, a: AgentArgs)
    ensures AgentStep(st.(lastAgentStep := None), s, a) == AgentStep(st, s, a)
  {
  }

  lemma {:induction false} TurnForgets(st: State, s: Settings, a: TurnArgs)
    requires AddsAgentStep(st, CodexTurned(a)) && st.codexStep.None?
    ensures CodexTurn(st.(lastAgentStep := None), s, a) == CodexTurn(st, s, a)
  {
    if a.usage.Some? {
      var u := UsageNumbers(a.usage.value);
      ObservedForgetting(st, u);
      TurnAddedForgetting(Observe(st, u), s, a);
    } else {
      TurnAddedForgetting(st, s, a);
    }
  }

  lemma {:induction false} TurnAddedForgetting(st: State, s: Settings, a: TurnArgs)
    ensures AddTurn(st.(lastAgentStep := None), s, a) == AddTurn(st, s, a)
  {
    AgentStepForgets(st, s, TurnStep(a));
  }

  lemma {:induction false} ObservedForgetting(st: State, u: Usage)
    requires st.codexStep.None? && PromptC in u
    ensures Observe(st.(lastAgentStep := None), u) == Observe(st, u).(lastAgentStep := None)
    ensures PromptC in Observe(st, u).codexPending
  {
    ObservedBeforeTurns(st, u);
    ObservedBeforeTurns(st.(lastAgentStep := None), u);
  }

  /** A call that appends an agent step does not look at the step that was remembered before. */
  lemma {:induction false} MistakeIsForgotten(st: State, s: Settings, e: Event)
    requires AddsAgentStep(st, e) && st.codexStep.None?
    ensures Apply(st, s, e) == Apply(st.(lastAgentStep := None), s, e)
  {
    match e {
      case AgentTurn(a) => AgentStepForgets(st, s, a);
      case NoModelCall(a, _) => AgentStepForgets(st, s, a.(llmCalls := 0));
      case Delegated(a) => AgentStepForgets(st, s, DelegationCall(a).(llmCalls := 0));
      case CodexTurned(a) => TurnForgets(st, s, a);
    }
  }

  lemma {:induction false} ObservedBeforeTurns(st: State, u: Usage)
    requires st.codexStep.None?
    ensures Observe(st, u) ==
            st.(codexTotal := u, codexPending := AddUsage(st.codexPending, UsageDelta(u, st.codexTotal)))
  {
  }

  /** Any other call that reports no figures does not look at it either, and leaves it. */
  lemma {:induction false} MistakeIsKept(st: State, s: Settings, e: Event, isDeterministic: bool)
    requires !AddsAgentStep(st, e) && !e.Used? && st.codexStep.None?
    ensures Apply(st, s, e).lastAgentStep == st.lastAgentStep && Apply(st, s, e).codexStep.None?
    ensures Apply(st, s, e).(lastAgentStep := None) == Apply(st.(lastAgentStep := None), s, e)
  {
  }

  lemma {:induction false} MistakenStays(st: State, st': State, isDeterministic: bool)
    requires IsMistaken(st, isDeterministic) && IsValid(st'.(lastAgentStep := None)) && st'.codexStep.None?
    requires st'.lastAgentStep == st.lastAgentStep
    requires Keep(st.steps, st'.steps, Source) && Keep(st.steps, st'.steps, LlmCallCount)
    ensures IsMistaken(st', isDeterministic)
  {
    var i := st.lastAgentStep.value - 1;
    assert KeepsAt(st.steps, st'.steps, Source, i) && KeepsAt(st.steps, st'.steps, LlmCallCount, i);
  }

  /** Figures reported too early change nothing, or land on a step that must not have any. */
  lemma {:induction false} EarlyFigures(st: State, s: Settings, e: Event, isDeterministic: bool)
    requires IsMistaken(st, isDeterministic) && e.Used?
    ensures !HasFigures(e) || isDeterministic ==> Apply(st, s, e) == st
    ensures HasFigures(e) && !isDeterministic ==>
              exists i :: 0 <= i < |Apply(st, s, e).steps| && IsSpoiled(Apply(st, s, e).steps[i])
  {
    var i := st.lastAgentStep.value - 1;
    var m := StepMetrics(e.usage, e.cost, e.extra);
    if HasFigures(e) && !isDeterministic {
      FiguresPut(st, st.lastAgentStep, m);
      assert IsSpoiled(Apply(st, s, e).steps[i]);
    }
  }

  /** Where a continued run stands, with the mistaken step forgotten. */
  function Corrected(st: State, noneYet: bool): State {
    if noneYet then st.(lastAgentStep := None) else st
  }

  ghost predicate Continues(st: State, start: State, s: Settings, events: seq<Event>, isDeterministic: bool) {
    && Reflects(Corrected(st, AddNoAgentStep(start, s, events)), start, s, events)
    && (AddNoAgentStep(start, s, events) ==> IsMistaken(st, isDeterministic))
  }

  ghost predicate HasSpoiledStep(steps: seq<Dict>) {
    exists i :: 0 <= i < |steps| && IsSpoiled(steps[i])
  }

  lemma {:induction false} SpoiledForGood(st: State, s: Settings, e: Event)
    requires HasSpoiledStep(st.steps)
    ensures HasSpoiledStep(Apply(st, s, e).steps)
  {
    var i :| 0 <= i < |st.steps| && IsSpoiled(st.steps[i]);
    EventStaysSpoiled(st, s, e);
    assert StaysSpoiledAt(st.steps, Apply(st, s, e).steps, i);
  }

  /** One more call while no agent step was appended, and the call reports nothing that would matter. */
  lemma {:induction false} MistakenContinues(st: State, s: Settings, e: Event, isDeterministic: bool)
    requires IsMistaken(st, isDeterministic) && (HasFigures(e) ==> isDeterministic)
    ensures var noneYet := !AddsAgentStep(st, e);
            && Follows(st.(lastAgentStep := None), Corrected(Apply(st, s, e), noneYet), e)
            && (noneYet ==> IsMistaken(Apply(st, s, e), isDeterministic))
  {
    var base, st' := st.(lastAgentStep := None), Apply(st, s, e);
    ApplyFollows(base, s, e);
    if AddsAgentStep(st, e) {
      MistakeIsForgotten(st, s, e);
    } else if e.Used? {
      EarlyFigures(st, s, e, isDeterministic);
      assert Apply(base, s, e) == base;
    } else {
      MistakeIsKept(st, s, e, isDeterministic);
      MistakenIsFramed(st, s, e);
      MistakenStays(st, st', isDeterministic);
    }
  }

  lemma {:induction false} MistakenIsFramed(st: State, s: Settings, e: Event)
    requires !AddsAgentStep(st, e) && !e.Used? && st.codexStep.None?
    ensures Keep(st.steps, Apply(st, s, e).steps, Source) && Keep(st.steps, Apply(st, s, e).steps, LlmCallCount)
  {
    if PutsFigures(e) {
      KeepSame(st.steps, Source);
      KeepSame(st.steps, LlmCallCount);
    } else {
      OthersKeepFields(st, s, e, Source);
      OthersKeepFields(st, s, e, LlmCallCount);
    }
  }

  lemma {:induction false} SameOrder(st: State, e: Event)
    ensures IsInOrder(st.(lastAgentStep := None), e) <==> IsInOrder(st, e)
  {
  }

  lemma {:induction false} OneMoreContinues(start: State, s: Settings, events: seq<Event>, isDeterministic: bool)
    requires events != [] && (ReportTooEarly(start, s, events) ==> isDeterministic)
    requires Continues(RunFrom(start, s, events[..|events| - 1]), start, s, events[..|events| - 1], isDeterministic)
    ensures Continues(RunFrom(start, s, events), start, s, events, isDeterministic)
  {
    var most, e := events[..|events| - 1], events[|events| - 1];
    var st := RunFrom(start, s, most);
    if AddNoAgentStep(start, s, most) {
      MistakenContinues(st, s, e, isDeterministic);
      CorrectedReflects(st, Corrected(Apply(st, s, e), !AddsAgentStep(st, e)), start, s, events);
    } else {
      ApplyFollows(st, s, e);
      StepReflects(st, Apply(st, s, e), start, s, events);
    }
  }

  lemma {:induction false} CorrectedReflects(st: State, st': State, start: State, s: Settings, events: seq<Event>)
    requires events != [] && Reflects(st.(lastAgentStep := None), start, s, events[..|events| - 1])
    requires st == RunFrom(start, s, events[..|events| - 1])
    requires Follows(st.(lastAgentStep := None), st', events[|events| - 1])
    ensures Reflects(st', start, s, events)
  {
    SameOrder(st, events[|events| - 1]);
  }

  lemma {:induction false} MistakenRuns(start: State, s: Settings, events: seq<Event>, isDeterministic: bool)
    requires IsMistaken(start, isDeterministic) && AllClean(start.steps) && HasGoodTotals(start)
    ensures isDeterministic || !ReportTooEarly(start, s, events) ==>
              Continues(RunFrom(start, s, events), start, s, events, isDeterministic)
    ensures !isDeterministic && ReportTooEarly(start, s, events) ==> HasSpoiledStep(RunFrom(start, s, events).steps)
    decreases |events|
  {
    if events != [] {
      var most, e := events[..|events| - 1], events[|events| - 1];
      var st := RunFrom(start, s, most);
      MistakenRuns(start, s, most, isDeterministic);
      if isDeterministic || !ReportTooEarly(start, s, events) {
        OneMoreContinues(start, s, events, isDeterministic);
      } else if ReportTooEarly(start, s, most) {
        SpoiledForGood(st, s, e);
      } else {
        EarlyFigures(st, s, e, isDeterministic);
      }
    }
  }

  // ----- continued documents --------------------------------------------------------------------

  lemma {:induction false} SpoiledIsRefused(st: State, s: Settings)
    requires HasSpoiledStep(st.steps)
    ensures !Conforms(ToDocument(st, s))
  {
    var i :| 0 <= i < |st.steps| && IsSpoiled(st.steps[i]);
    FiguresOnOtherSteps(st, s, i);
  }

  /** The document does not show which step is remembered. */
  lemma {:induction false} CorrectedDocument(st: State, s: Settings, noneYet: bool)
    ensures ToDocument(Corrected(st, noneYet), s) == ToDocument(st, s)
  {
  }

  lemma {:induction false} StepsStay(start: State, s: Settings, events: seq<Event>)
    ensures |RunFrom(start, s, events).steps| >= |start.steps|
    decreases |events|
  {
    if events != [] {
      StepsStay(start, s, events[..|events| - 1]);
      EventStaysSpoiled(RunFrom(start, s, events[..|events| - 1]), s, events[|events| - 1]);
    }
  }

  lemma {:induction false} ContinuedConforms(st: State, start: State, s: Settings, events: seq<Event>, noneYet: bool)
    requires Reflects(Corrected(st, noneYet), start, s, events) && st.steps != []
    ensures Conforms(ToDocument(st, s)) <==>
            s.agentName != "" && s.version != "" && AreInOrder(start, s, events) && TotalsAreGood(events)
  {
    CorrectedDocument(st, s, noneYet);
    DocumentConforms(Corrected(st, noneYet), s);
  }

  /** The last step is an agent step or made no model call, or there is no agent step. */
  predicate RemembersHarmlessly(steps: seq<Dict>) {
    RemembersRightly(steps) || IsDeterministicStep(steps[|steps| - 1])
  }

  /**
    * A document that conforms can be continued by any calls: it then conforms exactly when the callers
    * keep to the rules of a fresh run, and no figures are reported before there is a new agent step,
    * unless the last loaded step is an agent step or made no model call, or there is no agent step.
    */
  lemma {:induction false} ContinuedRunsConform(document: Dict, s: Settings, events: seq<Event>)
    requires Conforms(Obj(document))
    ensures var start := Loaded(document);
            Conforms(ToDocument(RunFrom(start, s, events), s)) <==>
            && s.agentName != "" && s.version != "" && AreInOrder(start, s, events) && TotalsAreGood(events)
            && (RemembersHarmlessly(start.steps) || !ReportTooEarly(start, s, events))
  {
    var start := Loaded(document);
    var st := RunFrom(start, s, events);
    LoadedIsValid(document);
    StepsStay(start, s, events);
    if RemembersRightly(start.steps) {
      RunReflects(start, s, events);
      ContinuedConforms(st, start, s, events, false);
    } else {
      var isDeterministic := IsDeterministicStep(start.steps[|start.steps| - 1]);
      MistakenRuns(start, s, events, isDeterministic);
      if isDeterministic || !ReportTooEarly(start, s, events) {
        ContinuedConforms(st, start, s, events, AddNoAgentStep(start, s, events));
      } else {
        SpoiledIsRefused(st, s);
      }
    }
  }

  /**
    * A usage report right after loading keeps the document conforming exactly when it carries no figures,
    * there is no agent step, or the last step is an agent step or made no model call.
    */
  lemma {:induction false} UsageAfterLoad(document: Dict, s: Settings, e: Event)
    requires Conforms(Obj(document)) && s.agentName != "" && s.version != "" && e.Used?
    ensures Conforms(ToDocument(Apply(Loaded(document), s, e), s)) <==>
            !HasFigures(e) || RemembersHarmlessly(Loaded(document).steps)
  {
    var st := Loaded(document);
    ContinuedRunsConform(document, s, [e]);
    OneCall(st, s, e);
    assert [e][..0] == [];
    assert ReportTooEarly(st, s, [e]) <==> HasFigures(e);
    assert LastTotals([e]) == LastTotals([e][..0]);
  }

  // ----- a document that cannot be continued with figures -------------------------------------------

  lemma {:induction false} UserStepIsLast(s: Settings, a: AgentArgs, e: Event)
    requires a.calls == [] && e.UserMessage?
    ensures var st := Apply(AgentStep(FRESH, s, a), s, e);
            && |st.steps| == 2 && IsAgentStep(st.steps[0]) && !IsAgentStep(st.steps[1])
            && !IsDeterministicStep(st.steps[1])
  {
    AgentField(s, a, Source);
    NumberedFields(AgentDict(s, a), 1, Source);
    UserStep(e.time, e.message, e.extra, 2);
  }

  lemma {:induction false} TurnAndMessageRun(s: Settings, a: AgentArgs, e: Event)
    requires a.calls == [] && e.UserMessage?
    ensures Run(s, [AgentTurn(a)] + [e]) == Apply(AgentStep(FRESH, s, a), s, e)
    ensures AreInOrder(FRESH, s, [AgentTurn(a)] + [e]) && TotalsAreGood([AgentTurn(a)] + [e])
  {
    var first := [AgentTurn(a)];
    var both := first + [e];
    OneCall(FRESH, s, AgentTurn(a));
    OneCall(Run(s, first), s, e);
    RunTogether(FRESH, s, first, [e]);
    assert both[..1] == first && first[..0] == [];
    assert LastTotals(both) == LastTotals(first) == LastTotals(first[..0]);
  }

  lemma {:induction false} WrittenAndLoaded(st: State, s: Settings)
    ensures ToDocument(st, s).Obj?
    ensures var steps := Loaded(ToDocument(st, s).fields).steps;
            |steps| == |st.steps| && forall i :: 0 <= i < |steps| ==> steps[i] == StepOut(st.steps[i], i + 1)
  {
    DocumentFields(st, s);
    AllLoaded(StepsOut(st.steps));
  }

  lemma {:induction false} WrittenSource(d: Dict, n: nat)
    ensures IsAgentStep(StepOut(d, n)) == IsAgentStep(d)
    ensures IsDeterministicStep(StepOut(d, n)) == IsDeterministicStep(d)
  {
    WrittenStep(d, n);
  }

  lemma {:induction false} TwoRemembered(steps: seq<Dict>)
    requires |steps| == 2 && IsAgentStep(steps[0]) && !IsAgentStep(steps[1]) && !IsDeterministicStep(steps[1])
    ensures !RemembersHarmlessly(steps)
  {
  }

  lemma {:induction false} LoadedWrongly(st: State, s: Settings)
    requires |st.steps| == 2 && IsAgentStep(st.steps[0]) && !IsAgentStep(st.steps[1])
    requires !IsDeterministicStep(st.steps[1])
    ensures ToDocument(st, s).Obj? && !RemembersHarmlessly(Loaded(ToDocument(st, s).fields).steps)
  {
    WrittenAndLoaded(st, s);
    WrittenSource(st.steps[0], 1);
    WrittenSource(st.steps[1], 2);
    TwoRemembered(Loaded(ToDocument(st, s).fields).steps);
  }

  /**
    * An agent step and a user message are written and loaded again. A cost then lands on the user step,
    * and the document is not accepted any more.
    */
  lemma {:induction false} CostAfterUserStep(s: Settings, a: AgentArgs, e: Event)
    requires s.agentName != "" && s.version != ""
    requires a == AgentArgs("", "hello", [], "", "", None, 1, map[]) && e == UserMessage("", "thanks", map[])
    ensures var document := ToDocument(Run(s, [AgentTurn(a)] + [e]), s);
            && Conforms(document)
            && !Conforms(ToDocument(Apply(Loaded(document.fields), s, Used(None, Some(1.0), map[])), s))
  {
    var st := Run(s, [AgentTurn(a)] + [e]);
    TurnAndMessageRun(s, a, e);
    UserStepIsLast(s, a, e);
    RunsConform(s, [AgentTurn(a)] + [e]);
    LoadedWrongly(st, s);
    CostIsAFigure(1.0);
    UsageAfterLoad(ToDocument(st, s).fields, s, Used(None, Some(1.0), map[]));
  }
}
