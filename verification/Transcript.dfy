/**
  * What was said is in the document (code_auditor/trajectory.py:543-618, 1000-1019): every message, all
  * reasoning and every tool call, in order, with the source, time, model, effort and notes they were given with.
  */
module Transcript {
  import opened Wrappers
  import opened Atif
  import opened RecorderState
  import opened RecorderInvariant
  import opened RecorderRuns
  import opened RecorderFrames
  import opened RecorderLoad

  /** A tool call, as the document shows it. */
  datatype Asked = Asked(id: string, name: string, arguments: Dict, notes: Dict)

  datatype Said = Said(
    source: string, time: string, message: string, reasoning: string, model: string, effort: string,
    calls: seq<Asked>, notes: Dict)

  // ----- read from the document ---------------------------------------------------------------

  function TextIn(d: Dict, k: Key): string {
    if Get(d, k).Str? then Get(d, k).s else ""
  }

  function ObjectIn(d: Dict, k: Key): Dict {
    if Get(d, k).Obj? then Get(d, k).fields else map[]
  }

  function AskedBy(v: Value): Asked {
    var d := if v.Obj? then v.fields else map[];
    Asked(TextIn(d, ToolCallId), TextIn(d, FunctionName), ObjectIn(d, Arguments), ObjectIn(d, Extra))
  }

  function AllAsked(calls: seq<Value>): (r: seq<Asked>)
    ensures |r| == |calls|
  {
    seq(|calls|, i requires 0 <= i < |calls| => AskedBy(calls[i]))
  }

  /** The notes on a step, without the count of delegations that the recorder keeps there. */
  function NotesIn(d: Dict): Dict {
    ObjectIn(d, Extra) - {Delegations}
  }

  /** What a step says and asks for. */
  function Words(d: Dict): Said {
    Said(TextIn(d, Source), TextIn(d, Timestamp), TextIn(d, Message), TextIn(d, ReasoningContent),
         TextIn(d, ModelName), TextIn(d, ReasoningEffort), AllAsked(CallsOf(d)), NotesIn(d))
  }

  predicate SaysSomething(said: Said) {
    said.message != "" || said.reasoning != "" || said.calls != []
  }

  /** Steps that hold a lone result, or only figures, say nothing. */
  function SaidBy(d: Dict): seq<Said> {
    if SaysSomething(Words(d)) then [Words(d)] else []
  }

  function SaidIn(steps: seq<Dict>): seq<Said> {
    if steps == [] then [] else SaidIn(steps[..|steps| - 1]) + SaidBy(steps[|steps| - 1])
  }

  // ----- read from the calls ------------------------------------------------------------------

  function Or(text: string, otherwise: string): string {
    if text != "" then text else otherwise
  }

  function Spoken(said: Said): seq<Said> {
    if SaysSomething(said) then [said] else []
  }

  function Calls(calls: seq<Call>): (r: seq<Asked>)
    ensures |r| == |calls|
  {
    seq(|calls|, i requires 0 <= i < |calls| =>
      Asked(Or(calls[i].id, calls[i].generated), Or(calls[i].function_, "unknown"), calls[i].arguments,
            if calls[i].extra.Some? then calls[i].extra.value else map[]))
  }

  /** An agent's turn; without a model call there is no reasoning. */
  function Turn(s: Settings, a: AgentArgs, reasoning: string): Said {
    Said(AGENT, a.time, a.message, reasoning, Or(a.model, s.model),
         if a.effort.Some? then a.effort.value else s.effort, Calls(a.calls), a.extra - {Delegations})
  }

  function CodexSaid(s: Settings, a: TurnArgs): Said {
    Said(AGENT, a.time, a.message, a.reasoning, Or(a.model, s.model), s.effort, [], a.extra - {Delegations})
  }

  /** What one call says. Only the first delegation to a child is a call of its own. */
  function Told(st: State, s: Settings, e: Event): seq<Said> {
    match e
    case SystemMessage(time, message, extra) =>
      Spoken(Said(SYSTEM, time, message, "", "", "", [], extra - {Delegations}))
    case UserMessage(time, message, extra) => Spoken(Said(USER, time, message, "", "", "", [], extra - {Delegations}))
    case AgentTurn(a) => Spoken(Turn(s, a, if a.llmCalls == 0 then "" else a.reasoning))
    case NoModelCall(a, _) => Spoken(Turn(s, a, ""))
    case CodexTurned(a) => Spoken(CodexSaid(s, a))
    case Delegated(a) =>
      if FirstReferring(st.steps, a.path) < |st.steps| then [] else
        [Said(AGENT, a.time, "", "", s.model, s.effort,
              [Asked(a.callId, "delegate_subagent", map[LabelKey := Str(a.title)], map[])],
              map[LabelKey := Str(a.title)])]
    case _ => []
  }

  function ToldIn(start: State, s: Settings, events: seq<Event>): seq<Said> {
    if events == [] then [] else
      var most := events[..|events| - 1];
      ToldIn(start, s, most) + Told(RunFrom(start, s, most), s, events[|events| - 1])
  }

  // ----- steps that keep their words ----------------------------------------------------------

  lemma {:induction false} SaidLonger(steps: seq<Dict>, d: Dict)
    ensures SaidIn(steps + [d]) == SaidIn(steps) + SaidBy(d)
  {
    assert (steps + [d])[..|steps|] == steps;
  }

  predicate HasSameWords(d: Dict, d': Dict) {
    Words(d') == Words(d)
  }

  lemma {:induction false} SaidSame(steps: seq<Dict>, steps': seq<Dict>)
    requires |steps'| == |steps| && forall i :: 0 <= i < |steps| ==> HasSameWords(steps[i], steps'[i])
    ensures SaidIn(steps') == SaidIn(steps)
    decreases |steps|
  {
    if steps != [] {
      var n := |steps| - 1;
      assert forall i :: 0 <= i < n ==> HasSameWords(steps[i], steps'[i]);
      SaidSame(steps[..n], steps'[..n]);
      assert HasSameWords(steps[n], steps'[n]);
    }
  }

  predicate IsSpoken(k: Key) {
    k in {Source, Timestamp, Message, ReasoningContent, ModelName, ReasoningEffort, ToolCalls, Extra}
  }

  lemma {:induction false} SameFieldsSameWords(d: Dict, d': Dict)
    requires forall k :: IsSpoken(k) ==> Get(d', k) == Get(d, k)
    ensures HasSameWords(d, d')
  {
    assert IsSpoken(Source) && IsSpoken(Timestamp) && IsSpoken(Message) && IsSpoken(ReasoningContent);
    assert IsSpoken(ModelName) && IsSpoken(ReasoningEffort) && IsSpoken(ToolCalls) && IsSpoken(Extra);
    assert CallsOf(d') == CallsOf(d);
  }

  ghost predicate KeepWords(steps: seq<Dict>, steps': seq<Dict>) {
    forall k :: IsSpoken(k) ==> Keep(steps, steps', k)
  }

  /** A call that appends no step leaves everything said as it is. */
  lemma {:induction false} NothingSaid(steps: seq<Dict>, steps': seq<Dict>)
    requires KeepWords(steps, steps') && |steps'| == |steps|
    ensures SaidIn(steps') == SaidIn(steps)
  {
    forall i | 0 <= i < |steps|
      ensures HasSameWords(steps[i], steps'[i])
    {
      forall k | IsSpoken(k)
        ensures Get(steps'[i], k) == Get(steps[i], k)
      {
        assert Keep(steps, steps', k) && KeepsAt(steps, steps', k, i);
      }
      SameFieldsSameWords(steps[i], steps'[i]);
    }
    SaidSame(steps, steps');
  }

  /** A call that appends a step adds what that step says. */
  lemma {:induction false} StepSaid(st: State, d: Dict)
    ensures SaidIn(AddStep(st, d).steps) == SaidIn(st.steps) + SaidBy(d)
  {
    var d' := d[StepId := Int(|st.steps| + 1)];
    forall k | IsSpoken(k)
      ensures Get(d', k) == Get(d, k)
    {
      NumberedFields(d, |st.steps| + 1, k);
    }
    SameFieldsSameWords(d, d');
    SaidLonger(st.steps, d');
  }

  // ----- messages and turns -------------------------------------------------------------------

  lemma {:induction false} PlainSays(source: string, time: string, message: string, extra: Dict)
    ensures Words(PlainStep(source, time, message, extra)) ==
            Said(source, time, message, "", "", "", [], extra - {Delegations})
  {
    PlainFields(source, time, message, extra);
    var d := PlainStep(source, time, message, extra);
    PlainIsAbsent(d, source, ReasoningContent);
    PlainIsAbsent(d, source, ModelName);
    PlainIsAbsent(d, source, ReasoningEffort);
    PlainIsAbsent(d, source, ToolCalls);
    assert Get(d, Extra) == ObjOrNull(extra);
  }

  lemma {:induction false} CallSays(c: Call)
    ensures AskedBy(c.Value()) == Asked(Or(c.id, c.generated), Or(c.function_, "unknown"), c.arguments,
                                        if c.extra.Some? then c.extra.value else map[])
  {
    var d := c.Value().fields;
    assert Get(d, ToolCallId) == Str(c.Id()) && Get(d, Arguments) == Obj(c.arguments);
    assert Get(d, Extra) == if c.extra.Some? then Obj(c.extra.value) else Null;
  }

  lemma {:induction false} CallsSay(calls: seq<Call>)
    ensures AllAsked(CallValues(calls)) == Calls(calls)
  {
    forall i | 0 <= i < |calls|
      ensures AllAsked(CallValues(calls))[i] == Calls(calls)[i]
    {
      CallSays(calls[i]);
    }
  }

  lemma {:induction false} AgentTextsSay(s: Settings, a: AgentArgs)
    ensures var d := AgentDict(s, a);
            && TextIn(d, Source) == AGENT && TextIn(d, Timestamp) == a.time && TextIn(d, Message) == a.message
            && TextIn(d, ReasoningContent) == (if a.llmCalls == 0 then "" else a.reasoning)
  {
    AgentField(s, a, Source);
    AgentField(s, a, Timestamp);
    AgentField(s, a, Message);
    AgentField(s, a, ReasoningContent);
  }

  lemma {:induction false} AgentModelSays(s: Settings, a: AgentArgs)
    ensures var d := AgentDict(s, a);
            && TextIn(d, ModelName) == Or(a.model, s.model)
            && TextIn(d, ReasoningEffort) == (if a.effort.Some? then a.effort.value else s.effort)
            && AllAsked(CallsOf(d)) == Calls(a.calls) && NotesIn(d) == a.extra - {Delegations}
  {
    AgentField(s, a, Extra);
    AgentField(s, a, ModelName);
    AgentField(s, a, ReasoningEffort);
    AgentField(s, a, ToolCalls);
    CallsSay(a.calls);
    assert CallsOf(AgentDict(s, a)) == CallValues(a.calls);
  }

  lemma {:induction false} AgentSays(s: Settings, a: AgentArgs)
    ensures Words(AgentDict(s, a)) == Turn(s, a, if a.llmCalls == 0 then "" else a.reasoning)
  {
    AgentTextsSay(s, a);
    AgentModelSays(s, a);
  }

  lemma {:induction false} AgentSaid(st: State, s: Settings, a: AgentArgs)
    ensures SaidIn(AgentStep(st, s, a).steps) ==
            SaidIn(st.steps) + Spoken(Turn(s, a, if a.llmCalls == 0 then "" else a.reasoning))
  {
    AgentSays(s, a);
    StepSaid(st, AgentDict(s, a));
  }

  // ----- results and delegations --------------------------------------------------------------

  lemma {:induction false} OrphanSays(r: ResultArgs)
    ensures SaidBy(AddResult(OrphanStep(r.time), OrphanedResult(r))) == []
  {
    var d := AddResult(OrphanStep(r.time), OrphanedResult(r));
    ResultOnly(OrphanStep(r.time), OrphanedResult(r), Message);
    ResultOnly(OrphanStep(r.time), OrphanedResult(r), ReasoningContent);
    ResultOnly(OrphanStep(r.time), OrphanedResult(r), ToolCalls);
    assert CallsOf(d) == [];
  }

  lemma {:induction false} ResultSaid(st: State, r: ResultArgs)
    ensures SaidIn(ToolResult(st, r).steps) == SaidIn(st.steps)
  {
    var target := TargetOf(st, r);
    if 1 <= target <= |st.steps| {
      ResultIsMatched(st, r, target);
      forall k | IsSpoken(k)
        ensures Keep(st.steps, ToolResult(st, r).steps, k)
      {
        ResultKeepsFields(st, r, k);
      }
      NothingSaid(st.steps, ToolResult(st, r).steps);
    } else {
      ResultIsOrphaned(st, r);
      OrphanSays(r);
      StepSaid(st, AddResult(OrphanStep(r.time), OrphanedResult(r)));
    }
  }

  lemma {:induction false} ResultsSaid(st: State, rs: seq<ResultArgs>)
    ensures SaidIn(ToolResults(st, rs).steps) == SaidIn(st.steps)
    decreases |rs|
  {
    if rs != [] {
      ResultsSaid(st, rs[..|rs| - 1]);
      ResultSaid(ToolResults(st, rs[..|rs| - 1]), rs[|rs| - 1]);
    }
  }

  lemma {:induction false} DeterministicSaid(st: State, s: Settings, a: AgentArgs, rs: seq<ResultArgs>)
    ensures SaidIn(Deterministic(st, s, a, rs).steps) == SaidIn(st.steps) + Spoken(Turn(s, a, ""))
  {
    AgentSaid(st, s, a.(llmCalls := 0));
    ResultsSaid(AgentStep(st, s, a.(llmCalls := 0)), rs);
  }

  lemma {:induction false} DelegationTurn(s: Settings, a: SubagentArgs)
    ensures Spoken(Turn(s, DelegationCall(a), "")) ==
            [Said(AGENT, a.time, "", "", s.model, s.effort,
                  [Asked(a.callId, "delegate_subagent", map[LabelKey := Str(a.title)], map[])],
                  map[LabelKey := Str(a.title)])]
  {
    var call := DelegationCall(a).calls[0];
    assert Calls(DelegationCall(a).calls) ==
           [Asked(a.callId, "delegate_subagent", map[LabelKey := Str(a.title)], map[])];
    assert DelegationCall(a).extra - {Delegations} == map[LabelKey := Str(a.title)];
  }

  lemma {:induction false} BumpSays(d: Dict)
    ensures HasSameWords(d, Bump(d))
  {
    assert CallsOf(Bump(d)) == CallsOf(d);
    assert NotesIn(Bump(d)) == NotesIn(d);
  }

  lemma {:induction false} DelegationSaid(st: State, s: Settings, a: SubagentArgs)
    ensures SaidIn(AddSubagent(st, s, a).steps) == SaidIn(st.steps) + Told(st, s, Delegated(a))
  {
    var i := FirstReferring(st.steps, a.path);
    if i < |st.steps| {
      BumpSays(st.steps[i]);
      SaidSame(st.steps, st.steps[i := Bump(st.steps[i])]);
    } else {
      DeterministicSaid(st, s, DelegationCall(a), [DelegationResult(s, a)]);
      DelegationTurn(s, a);
    }
  }

  // ----- usage --------------------------------------------------------------------------------

  lemma {:induction false} ReportSaid(st: State, id: Option<nat>, m: Dict)
    ensures SaidIn(Report(st, id, m).steps) == SaidIn(st.steps)
  {
    forall k | IsSpoken(k)
      ensures Keep(st.steps, Report(st, id, m).steps, k)
    {
      ReportKeepsFields(st, id, m, k);
    }
    NothingSaid(st.steps, Report(st, id, m).steps);
  }

  lemma {:induction false} FlushSaid(st: State)
    ensures SaidIn(FlushUsage(st).steps) == SaidIn(st.steps)
  {
    ReportSaid(st.(codexPending := map[]), st.codexStep, StepMetrics(Some(AsReport(st.codexPending)), None, map[]));
  }

  lemma {:induction false} ObserveSaid(st: State, current: Usage)
    ensures SaidIn(Observe(st, current).steps) == SaidIn(st.steps)
  {
    FlushSaid(st.(codexTotal := current,
              codexPending := AddUsage(st.codexPending, UsageDelta(current, st.codexTotal))));
  }

  lemma {:induction false} TurnStepSays(s: Settings, a: TurnArgs)
    ensures Turn(s, TurnStep(a), a.reasoning) == CodexSaid(s, a) && TurnStep(a).llmCalls == 1
  {
    assert Calls(TurnStep(a).calls) == [];
  }

  lemma {:induction false} AddTurnSaid(st: State, s: Settings, a: TurnArgs)
    ensures SaidIn(AddTurn(st, s, a).steps) == SaidIn(st.steps) + Spoken(CodexSaid(s, a))
  {
    var st1 := AgentStep(st, s, TurnStep(a));
    TurnStepSays(s, a);
    AgentSaid(st, s, TurnStep(a));
    FlushSaid(st1.(codexStep := Some(|st.steps| + 1)));
  }

  lemma {:induction false} AnyTurnSaid(st: State, st1: State, s: Settings, a: TurnArgs)
    requires SaidIn(st1.steps) == SaidIn(st.steps)
    ensures SaidIn(AddTurn(st1, s, a).steps) == SaidIn(st.steps) + Spoken(CodexSaid(s, a))
    ensures a.message == "" && a.reasoning == "" ==> SaidIn(st1.steps) == SaidIn(st.steps) + Spoken(CodexSaid(s, a))
  {
    AddTurnSaid(st1, s, a);
  }

  lemma {:induction false} TurnSaid(st: State, s: Settings, a: TurnArgs)
    ensures SaidIn(CodexTurn(st, s, a).steps) == SaidIn(st.steps) + Spoken(CodexSaid(s, a))
  {
    if a.usage.Some? {
      ObserveSaid(st, UsageNumbers(a.usage.value));
      AnyTurnSaid(st, CodexUsage(st, a.usage.value), s, a);
    } else {
      AnyTurnSaid(st, st, s, a);
    }
  }

  lemma {:induction false} FinishSaid(st: State, u: Dict)
    ensures SaidIn(Finish(st, u).steps) == SaidIn(st.steps)
  {
    forall k | IsSpoken(k)
      ensures Keep(st.steps, Finish(st, u).steps, k)
    {
      FinishKeepsFields(st, u, k);
    }
    NothingSaid(st.steps, Finish(st, u).steps);
  }

  // ----- whole runs ---------------------------------------------------------------------------

  predicate AddsTold(st: State, st': State, s: Settings, e: Event) {
    SaidIn(st'.steps) == SaidIn(st.steps) + Told(st, s, e)
  }

  lemma {:induction false} MessageSaid(st: State, s: Settings, e: Event)
    requires e.SystemMessage? || e.UserMessage?
    ensures AddsTold(st, Apply(st, s, e), s, e)
  {
    var source := if e.SystemMessage? then SYSTEM else USER;
    PlainSays(source, e.time, e.message, e.extra);
    StepSaid(st, PlainStep(source, e.time, e.message, e.extra));
  }

  lemma {:induction false} StepEventSaid(st: State, s: Settings, e: Event)
    requires !PutsFigures(e) && !e.Finished?
    ensures AddsTold(st, Apply(st, s, e), s, e)
  {
    match e {
      case AgentTurn(a) => AgentSaid(st, s, a);
      case Returned(r) => ResultSaid(st, r);
      case NoModelCall(a, rs) => DeterministicSaid(st, s, a, rs);
      case Delegated(a) => DelegationSaid(st, s, a);
      case _ => MessageSaid(st, s, e);
    }
  }

  lemma {:induction false} EventSaid(st: State, s: Settings, e: Event)
    ensures AddsTold(st, Apply(st, s, e), s, e)
  {
    match e {
      case Used(usage, cost, extra) => ReportSaid(st, st.lastAgentStep, StepMetrics(usage, cost, extra));
      case CodexTotals(totals) => ObserveSaid(st, UsageNumbers(totals));
      case CodexTurned(a) => TurnSaid(st, s, a);
      case Finished(totals) => FinishSaid(st, totals);
      case _ => StepEventSaid(st, s, e);
    }
  }

  /**
    * The steps say exactly what the calls said, in order: each message, all reasoning and each tool call,
    * under the source, time, model and effort it was given with.
    */
  lemma {:induction false} TranscriptIsKept(start: State, s: Settings, events: seq<Event>)
    ensures SaidIn(RunFrom(start, s, events).steps) == SaidIn(start.steps) + ToldIn(start, s, events)
    decreases |events|
  {
    if events != [] {
      var most, e := events[..|events| - 1], events[|events| - 1];
      TranscriptIsKept(start, s, most);
      EventSaid(RunFrom(start, s, most), s, e);
    }
  }

  // ----- from the calls alone -----------------------------------------------------------------

  predicate HasVoice(said: Said) {
    said.message != "" || said.reasoning != ""
  }

  /** What was said in words, leaving out steps that only ask for tools. */
  function Voiced(all: seq<Said>): seq<Said> {
    if all == [] then [] else
      Voiced(all[..|all| - 1]) + if HasVoice(all[|all| - 1]) then [all[|all| - 1]] else []
  }

  /** What a call says in words: nothing of the state is needed for that. */
  function VoiceOf(s: Settings, e: Event): seq<Said> {
    if e.Delegated? then [] else Voiced(Told(FRESH, s, e))
  }

  function VoicesOf(s: Settings, events: seq<Event>): seq<Said> {
    if events == [] then [] else VoicesOf(s, events[..|events| - 1]) + VoiceOf(s, events[|events| - 1])
  }

  lemma {:induction false} VoicedTogether(a: seq<Said>, b: seq<Said>)
    ensures Voiced(a + b) == Voiced(a) + Voiced(b)
    decreases |b|
  {
    if b == [] {
      assert a + b == a;
    } else {
      VoicedTogether(a, b[..|b| - 1]);
      assert (a + b)[..|a + b| - 1] == a + b[..|b| - 1];
    }
  }

  lemma {:induction false} OneVoice(st: State, s: Settings, e: Event)
    ensures Voiced(Told(st, s, e)) == VoiceOf(s, e)
  {
    if e.Delegated? {
      var told := Told(st, s, e);
      assert told != [] ==> told[..0] == [] && !HasVoice(told[0]);
    }
  }

  lemma {:induction false} VoicesAreTold(start: State, s: Settings, events: seq<Event>)
    ensures Voiced(ToldIn(start, s, events)) == VoicesOf(s, events)
    decreases |events|
  {
    if events != [] {
      var most, e := events[..|events| - 1], events[|events| - 1];
      VoicesAreTold(start, s, most);
      OneVoice(RunFrom(start, s, most), s, e);
      VoicedTogether(ToldIn(start, s, most), Told(RunFrom(start, s, most), s, e));
    }
  }

  lemma {:induction false} WrittenSays(d: Dict, n: nat)
    ensures HasSameWords(d, StepOut(d, n))
  {
    WrittenStep(d, n);
    SameFieldsSameWords(d, StepOut(d, n));
  }

  /** Writing a document and loading it again keeps all that was said. */
  lemma {:induction false} WrittenAndSaid(st: State, s: Settings)
    ensures ToDocument(st, s).Obj? && SaidIn(Loaded(ToDocument(st, s).fields).steps) == SaidIn(st.steps)
  {
    WrittenAndLoaded(st, s);
    var steps' := Loaded(ToDocument(st, s).fields).steps;
    forall i | 0 <= i < |st.steps|
      ensures HasSameWords(st.steps[i], steps'[i])
    {
      WrittenSays(st.steps[i], i + 1);
    }
    SaidSame(st.steps, steps');
  }

  /**
    * The document of a run says in words exactly what the calls said, in order: no message and no
    * reasoning is lost, added, moved or ascribed to someone else.
    */
  lemma {:induction false} WordsAreKept(s: Settings, events: seq<Event>)
    ensures ToDocument(Run(s, events), s).Obj?
    ensures Voiced(SaidIn(Loaded(ToDocument(Run(s, events), s).fields).steps)) == VoicesOf(s, events)
  {
    WrittenAndSaid(Run(s, events), s);
    TranscriptIsKept(FRESH, s, events);
    VoicesAreTold(FRESH, s, events);
    assert SaidIn(FRESH.steps) == [];
    assert [] + ToldIn(FRESH, s, events) == ToldIn(FRESH, s, events);
  }

  // ----- the run itself -------------------------------------------------------------------------

  /** Whether a document is about a run: its agent, its ids, its notes, and the number of its steps. */
  predicate IsAbout(d: Dict, s: Settings, steps: nat) {
    var agent := ObjectIn(d, Agent);
    && TextIn(agent, AgentName) == s.agentName && TextIn(agent, Version) == s.version
    && TextIn(agent, ModelName) == s.model
    && TextIn(d, SessionId) == s.sessionId && TextIn(d, TrajectoryId) == s.trajectoryId
    && TextIn(d, Notes) == s.notes && ObjectIn(d, Extra) == s.extra
    && Get(d, Steps).List? && |Get(d, Steps).items| == steps
  }

  lemma {:induction false} AgentIsWritten(s: Settings)
    ensures var agent := AgentOut(s);
            && TextIn(agent, AgentName) == s.agentName && TextIn(agent, Version) == s.version
            && TextIn(agent, ModelName) == s.model
  {
  }

  lemma {:induction false} DocumentFields(st: State, s: Settings, steps: seq<Value>)
    ensures var d := DocumentOf(st, s, steps);
            && d.Obj? && Get(d.fields, Agent) == Obj(AgentOut(s)) && Get(d.fields, Steps) == List(steps)
            && Get(d.fields, SessionId) == TextOrNull(s.sessionId)
            && Get(d.fields, TrajectoryId) == Str(s.trajectoryId) && Get(d.fields, Notes) == TextOrNull(s.notes)
            && Get(d.fields, Extra) == ObjOrNull(s.extra) && Get(d.fields, FinalMetrics) == Obj(FinalOut(st))
  {
  }

  /** The totals of the last finish; of a run that was never finished only the steps are counted. */
  predicate HasTotals(d: Dict, totals: Option<Dict>, steps: nat) {
    if totals.Some? && totals.value != map[] then Get(d, FinalMetrics) == Obj(totals.value)
    else Get(d, FinalMetrics).Obj? && Get(Get(d, FinalMetrics).fields, TotalSteps) == Int(steps)
  }

  /** The written document is about the run that was recorded. */
  lemma {:induction false} RunIsWritten(st: State, s: Settings)
    ensures ToDocument(st, s).Obj? && IsAbout(ToDocument(st, s).fields, s, |st.steps|)
    ensures HasTotals(ToDocument(st, s).fields, st.finalMetrics, |st.steps|)
  {
    DocumentFields(st, s, StepsOut(st.steps));
    AgentIsWritten(s);
  }
}
