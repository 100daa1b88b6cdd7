/**
  * What the recorder makes of provider events (code_auditor/trajectory.py:817-1019): Claude messages and
  * Codex notifications become recorder calls, with some text buffered between them.
  */
module ProviderEvents {
  import opened Wrappers
  import Fences
  import opened Atif
  import opened RecorderState
  import opened RecorderInvariant
  import opened RecorderRuns
  import opened TrajectoryRecorder

  /** One content block of a Claude message. A tool use without an id is given one. */
  datatype Block =
    | TextBlock(text: string)
    | ToolUse(id: string, generated: NonEmpty, name: string, input: Dict)
    | ToolOutput(callId: string, content: string, isError: bool)
    | Thinking(text: string)
    | OtherBlock

  datatype Tool = Tool(name: string, input: Dict)

  datatype Provided =
    | ClaudeResult(usage: Option<Dict>, cost: Option<real>, extra: Dict)
    | ClaudeSystem(body: string, extra: Dict)
    | ClaudeText(text: string)
    | ClaudeBlocks(blocks: seq<Block>)
    | CodexTokens(usage: Option<Dict>)
    | CodexDelta(text: string)
    | CodexReasoning(id: string, text: string)
    | CodexStarted(id: string, tool: Tool)
    | CodexMessage(text: string)
    | CodexCompleted(id: string, tool: Tool, output: string, isError: bool, extra: Dict)
    | CodexTurnCompleted(usage: Option<Dict>)
    | Ignored

  /** An event, the time it arrives at, and the model that is in use. */
  datatype Notice = Notice(time: string, model: string, event: Provided)

  /** What is kept between Codex notifications: message text, reasoning by item, and started tools. */
  datatype Buffers = Buffers(text: seq<string>, reasoning: seq<(string, string)>, tools: map<string, Tool>)

  const NO_BUFFERS := Buffers([], [], map[])
  const TURN_EXTRA: Dict := map[OtherKey("codex_event") := Str("turn/completed")]

  // ----- texts --------------------------------------------------------------------------------

  function Joined(parts: seq<string>, separator: string): string {
    if parts == [] then "" else if |parts| == 1 then parts[0]
    else Joined(parts[..|parts| - 1], separator) + separator + parts[|parts| - 1]
  }

  /** dict[id] = text: an item that is there already keeps its place. */
  function PutText(texts: seq<(string, string)>, id: string, text: string): seq<(string, string)> {
    if texts == [] then [(id, text)]
    else if texts[0].0 == id then [(id, text)] + texts[1..]
    else [texts[0]] + PutText(texts[1..], id, text)
  }

  function TextFor(texts: seq<(string, string)>, id: string): string {
    if texts == [] then "" else if texts[0].0 == id then texts[0].1 else TextFor(texts[1..], id)
  }

  function Drop(texts: seq<(string, string)>, id: string): seq<(string, string)> {
    if texts == [] then [] else if texts[0].0 == id then texts[1..] else [texts[0]] + Drop(texts[1..], id)
  }

  function TextsOf(texts: seq<(string, string)>): seq<string> {
    seq(|texts|, i requires 0 <= i < |texts| => texts[i].1)
  }

  // ----- Claude -------------------------------------------------------------------------------

  datatype Sorted = Sorted(texts: seq<string>, reasoning: seq<string>, calls: seq<Call>, results: seq<ResultArgs>)

  /** The blocks of a message by kind, each kind in order. */
  function SortBlocks(blocks: seq<Block>, time: string): Sorted {
    if blocks == [] then Sorted([], [], [], []) else
      var most := SortBlocks(blocks[..|blocks| - 1], time);
      AddBlock(most, blocks[|blocks| - 1], time)
  }

  function AddBlock(sorted: Sorted, b: Block, time: string): Sorted {
    match b
    case TextBlock(text) => sorted.(texts := sorted.texts + [text])
    case ToolUse(id, generated, name, input) =>
      sorted.(calls := sorted.calls + [Call(id, generated, name, input, None)])
    case ToolOutput(callId, content, isError) =>
      sorted.(results := sorted.results + [ResultArgs(time, callId, content, map[], isError, map[], [])])
    case Thinking(text) => sorted.(reasoning := sorted.reasoning + [text])
    case OtherBlock => sorted
  }

  function StepOf(sorted: Sorted, time: string, model: string): AgentArgs {
    AgentArgs(time, Fences.Strip(Joined(sorted.texts, "\n")), sorted.calls,
              Fences.Strip(Joined(sorted.reasoning, "\n")), model, None, 1, map[])
  }

  function ResultEvents(results: seq<ResultArgs>): (es: seq<Event>)
    ensures |es| == |results| && forall i :: 0 <= i < |results| ==> es[i] == Returned(results[i])
  {
    seq(|results|, i requires 0 <= i < |results| => Returned(results[i]))
  }

  /** One agent step for everything the model said, then the results in order. */
  function MessageEvents(sorted: Sorted, time: string, model: string): seq<Event> {
    (if sorted.texts == [] && sorted.calls == [] && sorted.reasoning == [] then []
     else [AgentTurn(StepOf(sorted, time, model))])
    + ResultEvents(sorted.results)
  }

  // ----- Codex --------------------------------------------------------------------------------

  function ItemId(id: string): (r: NonEmpty)
    ensures r == "codex-" + id
  {
    "codex-" + id
  }

  function ItemStep(b: Buffers, n: Notice): AgentArgs
    requires n.event.CodexCompleted?
  {
    var e := n.event;
    var tool := if e.id in b.tools then b.tools[e.id] else e.tool;
    AgentArgs(n.time, "", [Call(ItemId(e.id), ItemId(e.id), tool.name, tool.input, None)], TextFor(b.reasoning, e.id),
              n.model, None, 0, map[])
  }

  function ItemResult(n: Notice): ResultArgs
    requires n.event.CodexCompleted?
  {
    ResultArgs(n.time, ItemId(n.event.id), n.event.output, map[], n.event.isError, n.event.extra, [])
  }

  function TurnOf(b: Buffers, n: Notice): TurnArgs
    requires n.event.CodexTurnCompleted?
  {
    TurnArgs(n.time, Fences.Strip(Joined(b.text, "")), Fences.Strip(Joined(TextsOf(b.reasoning), "\n")),
             n.model, n.event.usage, TURN_EXTRA)
  }

  /** The recorder calls that one event leads to. */
  function EventsOf(b: Buffers, n: Notice): seq<Event> {
    match n.event
    case ClaudeResult(usage, cost, extra) => [Used(usage, cost, extra)]
    case ClaudeSystem(body, extra) => [SystemMessage(n.time, body, extra)]
    case ClaudeText(text) =>
      if text == "" then [] else [AgentTurn(AgentArgs(n.time, text, [], "", n.model, None, 1, map[]))]
    case ClaudeBlocks(blocks) => MessageEvents(SortBlocks(blocks, n.time), n.time, n.model)
    case CodexTokens(usage) => if usage.Some? then [CodexTotals(usage.value)] else []
    case CodexCompleted(_, _, _, _, _) => [AgentTurn(ItemStep(b, n)), Returned(ItemResult(n))]
    case CodexTurnCompleted(_) => [CodexTurned(TurnOf(b, n))]
    case _ => []
  }

  function BuffersAfter(b: Buffers, e: Provided): Buffers {
    match e
    case CodexDelta(text) => if text == "" then b else b.(text := b.text + [text])
    case CodexReasoning(id, text) => if text == "" then b else b.(reasoning := PutText(b.reasoning, id, text))
    case CodexStarted(id, tool) => b.(tools := b.tools[id := tool])
    case CodexMessage(text) => if text == "" || b.text != [] then b else b.(text := [text])
    case CodexCompleted(id, _, _, _, _) => b.(tools := b.tools - {id}, reasoning := Drop(b.reasoning, id))
    case CodexTurnCompleted(_) => b.(text := [], reasoning := [])
    case _ => b
  }

  function BuffersOf(notices: seq<Notice>): Buffers {
    if notices == [] then NO_BUFFERS else
      BuffersAfter(BuffersOf(notices[..|notices| - 1]), notices[|notices| - 1].event)
  }

  /** All recorder calls of a stream of events. */
  function Recorded(notices: seq<Notice>): seq<Event> {
    if notices == [] then [] else
      var n := |notices| - 1;
      Recorded(notices[..n]) + EventsOf(BuffersOf(notices[..n]), notices[n])
  }

  // ----- streams ------------------------------------------------------------------------------

  /** No Claude message uses one id for two tool uses. */
  predicate HasDistinctTools(e: Provided) {
    e.ClaudeBlocks? ==> HaveDistinctCallIds(SortBlocks(e.blocks, "").calls)
  }

  predicate AllDistinctTools(notices: seq<Notice>) {
    notices == [] || (AllDistinctTools(notices[..|notices| - 1]) && HasDistinctTools(notices[|notices| - 1].event))
  }

  /** A call that neither delegates nor finishes, and names no reference. */
  predicate IsPlainCall(e: Event) {
    !e.Delegated? && !e.Finished? && !e.NoModelCall? && (e.Returned? ==> e.result.refs == [])
  }

  predicate ArePlainCalls(events: seq<Event>) {
    forall i :: 0 <= i < |events| ==> IsPlainCall(events[i])
  }

  lemma {:induction false} CallsIgnoreTime(blocks: seq<Block>, t1: string, t2: string)
    ensures SortBlocks(blocks, t1).calls == SortBlocks(blocks, t2).calls
    decreases |blocks|
  {
    if blocks != [] {
      CallsIgnoreTime(blocks[..|blocks| - 1], t1, t2);
    }
  }

  lemma {:induction false} ResultsHaveNoRefs(blocks: seq<Block>, time: string)
    ensures forall i :: 0 <= i < |SortBlocks(blocks, time).results| ==> SortBlocks(blocks, time).results[i].refs == []
    decreases |blocks|
  {
    if blocks != [] {
      ResultsHaveNoRefs(blocks[..|blocks| - 1], time);
    }
  }

  lemma {:induction false} ReturnedInOrder(st: State, s: Settings, results: seq<ResultArgs>)
    requires forall i :: 0 <= i < |results| ==> results[i].refs == []
    ensures AreInOrder(st, s, ResultEvents(results))
    decreases |results|
  {
    if results != [] {
      var most := results[..|results| - 1];
      ReturnedInOrder(st, s, most);
      assert ResultEvents(results)[..|results| - 1] == ResultEvents(most);
    }
  }

  lemma {:induction false} TurnInOrder(st: State, s: Settings, a: AgentArgs, results: seq<ResultArgs>)
    requires forall i :: 0 <= i < |results| ==> results[i].refs == []
    ensures AreInOrder(st, s, [AgentTurn(a)] + ResultEvents(results)) <==> HaveDistinctCallIds(a.calls)
  {
    OneCall(st, s, AgentTurn(a));
    ReturnedInOrder(RunFrom(st, s, [AgentTurn(a)]), s, results);
    RunTogether(st, s, [AgentTurn(a)], ResultEvents(results));
  }

  lemma {:induction false} ArePlainResults(results: seq<ResultArgs>)
    requires forall i :: 0 <= i < |results| ==> results[i].refs == []
    ensures ArePlainCalls(ResultEvents(results))
  {
  }

  /** Results alone, or one agent step before them. */
  lemma {:induction false} SortedEvents(sorted: Sorted, time: string, model: string)
    ensures var es := MessageEvents(sorted, time, model);
            || es == [AgentTurn(StepOf(sorted, time, model))] + ResultEvents(sorted.results)
            || (es == ResultEvents(sorted.results) && sorted.calls == [])
  {
    assert [] + ResultEvents(sorted.results) == ResultEvents(sorted.results);
  }

  lemma {:induction false} SortedInOrder(st: State, s: Settings, sorted: Sorted, time: string, model: string)
    requires forall i :: 0 <= i < |sorted.results| ==> sorted.results[i].refs == []
    ensures var es := MessageEvents(sorted, time, model);
            ArePlainCalls(es) && (AreInOrder(st, s, es) <==> HaveDistinctCallIds(sorted.calls))
  {
    var step := StepOf(sorted, time, model);
    SortedEvents(sorted, time, model);
    ArePlainResults(sorted.results);
    PlainTogether([AgentTurn(step)], ResultEvents(sorted.results));
    ReturnedInOrder(st, s, sorted.results);
    TurnInOrder(st, s, step, sorted.results);
  }

  lemma {:induction false} MessageInOrder(st: State, s: Settings, blocks: seq<Block>, time: string, model: string)
    ensures var es := MessageEvents(SortBlocks(blocks, time), time, model);
            ArePlainCalls(es) && (AreInOrder(st, s, es) <==> HaveDistinctCallIds(SortBlocks(blocks, "").calls))
  {
    CallsIgnoreTime(blocks, time, "");
    ResultsHaveNoRefs(blocks, time);
    SortedInOrder(st, s, SortBlocks(blocks, time), time, model);
  }

  lemma {:induction false} ItemInOrder(st: State, s: Settings, b: Buffers, n: Notice)
    requires n.event.CodexCompleted?
    ensures AreInOrder(st, s, EventsOf(b, n)) && ArePlainCalls(EventsOf(b, n))
  {
    var step, result := AgentTurn(ItemStep(b, n)), Returned(ItemResult(n));
    OneCall(st, s, step);
    OneCall(RunFrom(st, s, [step]), s, result);
    RunTogether(st, s, [step], [result]);
    assert [step] + [result] == [step, result];
  }

  /** A plain call that the caller can get nothing wrong in. */
  predicate IsSafeCall(e: Event) {
    IsPlainCall(e) && !e.Returned? && (e.AgentTurn? ==> e.agent.calls == [])
  }

  lemma {:induction false} OtherCalls(b: Buffers, n: Notice)
    requires !n.event.ClaudeBlocks? && !n.event.CodexCompleted?
    ensures |EventsOf(b, n)| <= 1 && forall i :: 0 <= i < |EventsOf(b, n)| ==> IsSafeCall(EventsOf(b, n)[i])
  {
  }

  lemma {:induction false} SafeInOrder(st: State, s: Settings, es: seq<Event>)
    requires |es| <= 1 && forall i :: 0 <= i < |es| ==> IsSafeCall(es[i])
    ensures AreInOrder(st, s, es) && ArePlainCalls(es)
  {
    if es != [] {
      assert es == [es[0]];
      OneCall(st, s, es[0]);
    }
  }

  lemma {:induction false} EventInOrder(st: State, s: Settings, b: Buffers, n: Notice)
    ensures ArePlainCalls(EventsOf(b, n))
    ensures AreInOrder(st, s, EventsOf(b, n)) <==> HasDistinctTools(n.event)
  {
    if n.event.ClaudeBlocks? {
      MessageInOrder(st, s, n.event.blocks, n.time, n.model);
    } else if n.event.CodexCompleted? {
      ItemInOrder(st, s, b, n);
    } else {
      OtherCalls(b, n);
      SafeInOrder(st, s, EventsOf(b, n));
    }
  }

  lemma {:induction false} PlainTogether(a: seq<Event>, b: seq<Event>)
    requires ArePlainCalls(a) && ArePlainCalls(b)
    ensures ArePlainCalls(a + b)
  {
  }

  lemma {:induction false} StreamInOrder(s: Settings, notices: seq<Notice>)
    ensures ArePlainCalls(Recorded(notices))
    ensures AreInOrder(FRESH, s, Recorded(notices)) <==> AllDistinctTools(notices)
    decreases |notices|
  {
    if notices != [] {
      var n := |notices| - 1;
      var most, es := Recorded(notices[..n]), EventsOf(BuffersOf(notices[..n]), notices[n]);
      StreamInOrder(s, notices[..n]);
      EventInOrder(Run(s, most), s, BuffersOf(notices[..n]), notices[n]);
      RunTogether(FRESH, s, most, es);
      PlainTogether(most, es);
    }
  }

  lemma {:induction false} PlainCallsGiveNoTotals(events: seq<Event>)
    requires ArePlainCalls(events)
    ensures LastTotals(events) == None
    decreases |events|
  {
    if events != [] {
      PlainCallsGiveNoTotals(events[..|events| - 1]);
    }
  }

  /**
    * For any stream of provider events the document conforms exactly when the recorder has a name, a
    * version and a step, and no Claude message repeats a tool-use id. Codex streams always conform.
    */
  lemma {:induction false} StreamsConform(s: Settings, notices: seq<Notice>)
    ensures Conforms(ToDocument(Run(s, Recorded(notices)), s)) <==>
            && s.agentName != "" && s.version != "" && Run(s, Recorded(notices)).steps != []
            && AllDistinctTools(notices)
  {
    StreamInOrder(s, notices);
    PlainCallsGiveNoTotals(Recorded(notices));
    RunsConform(s, Recorded(notices));
  }

  /** Two uses of a tool under one id. */
  function RepeatedUse(): seq<Block> {
    [ToolUse("t", "g", "read", map[]), ToolUse("t", "g", "read", map[])]
  }

  lemma {:induction false} RepeatedUseIsSorted()
    ensures var call := Call("t", "g", "read", map[], None);
            SortBlocks(RepeatedUse(), "").calls == [call, call]
  {
    var blocks := RepeatedUse();
    assert blocks[..1] == [blocks[0]] && blocks[..1][..0] == [];
    assert SortBlocks(blocks[..1], "") == AddBlock(Sorted([], [], [], []), blocks[0], "");
  }

  /** A single message that repeats a tool-use id makes the document unpublishable. */
  lemma {:induction false} RepeatedUseIsRefused(s: Settings, time: string, model: string)
    ensures var notices := [Notice(time, model, ClaudeBlocks(RepeatedUse()))];
            !Conforms(ToDocument(Run(s, Recorded(notices)), s))
  {
    var notices := [Notice(time, model, ClaudeBlocks(RepeatedUse()))];
    RepeatedUseIsSorted();
    var calls := SortBlocks(RepeatedUse(), "").calls;
    assert calls[0].Id() == calls[1].Id();
    StreamsConform(s, notices);
  }

  // ----- the object -----------------------------------------------------------------------------

  /** The recorder together with what it buffers between Codex notifications. */
  class EventRecorder {
    const recorder: Recorder
    var text: seq<string>
    var reasoning: seq<(string, string)>
    var tools: map<string, Tool>

    constructor (recorder: Recorder)
      ensures this.recorder == recorder && Kept() == NO_BUFFERS
    {
      this.recorder := recorder;
      text, reasoning, tools := [], [], map[];
    }

    function Kept(): Buffers
      reads this
    {
      Buffers(text, reasoning, tools)
    }

    /** A Claude message with content blocks. */
    method OnClaudeBlocks(time: string, model: string, blocks: seq<Block>)
      modifies recorder
      ensures recorder.State() == RunFrom(old(recorder.State()), recorder.settings,
                                          EventsOf(Kept(), Notice(time, model, ClaudeBlocks(blocks))))
    {
      var sorted := Sorted([], [], [], []);
      for i := 0 to |blocks|
        invariant sorted == SortBlocks(blocks[..i], time)
      {
        assert blocks[..i + 1][..i] == blocks[..i];
        sorted := AddBlock(sorted, blocks[i], time);
      }
      assert blocks[..|blocks|] == blocks;
      OnSorted(sorted, time, model);
    }

    method OnSorted(sorted: Sorted, time: string, model: string)
      modifies recorder
      ensures recorder.State() == RunFrom(old(recorder.State()), recorder.settings, MessageEvents(sorted, time, model))
    {
      ghost var start, s := recorder.State(), recorder.settings;
      ghost var first: seq<Event> := [];
      if sorted.texts != [] || sorted.calls != [] || sorted.reasoning != [] {
        var step := StepOf(sorted, time, model);
        var _ := recorder.AgentStep(step);
        first := [AgentTurn(step)];
        RunFromOne(start, s, AgentTurn(step));
      }
      for i := 0 to |sorted.results|
        invariant recorder.State() == RunFrom(start, s, first + ResultEvents(sorted.results[..i]))
      {
        recorder.ToolResult(sorted.results[i]);
        OneMoreResult(start, s, first, sorted.results, i);
      }
      assert sorted.results[..|sorted.results|] == sorted.results;
    }

    /** A completed Codex tool item: a step without a model call, and its result. */
    method OnCodexCompleted(n: Notice)
      requires n.event.CodexCompleted?
      modifies this, recorder
      ensures Kept() == BuffersAfter(old(Kept()), n.event)
      ensures recorder.State() == RunFrom(old(recorder.State()), recorder.settings, EventsOf(old(Kept()), n))
    {
      ItemRecorded(recorder.State(), recorder.settings, Kept(), n);
      var step := TakeItem(n);
      var _ := recorder.AgentStep(step);
      recorder.ToolResult(ItemResult(n));
    }

    /** The started tool and the reasoning of an item, which are not kept any longer. */
    method TakeItem(n: Notice) returns (step: AgentArgs)
      requires n.event.CodexCompleted?
      modifies this
      ensures step == ItemStep(old(Kept()), n) && Kept() == BuffersAfter(old(Kept()), n.event)
    {
      step := ItemStep(Kept(), n);
      tools := tools - {n.event.id};
      reasoning := Drop(reasoning, n.event.id);
    }

    /** A completed Codex turn takes the buffered message and reasoning. */
    method OnCodexTurn(n: Notice)
      requires n.event.CodexTurnCompleted?
      modifies this, recorder
      ensures Kept() == BuffersAfter(old(Kept()), n.event)
      ensures recorder.State() == RunFrom(old(recorder.State()), recorder.settings, EventsOf(old(Kept()), n))
    {
      TurnRecorded(recorder.State(), recorder.settings, Kept(), n);
      var turn := TakeTurn(n);
      recorder.CompleteTurn(turn);
    }

    /** The buffered texts of a turn; started tools stay. */
    method TakeTurn(n: Notice) returns (turn: TurnArgs)
      requires n.event.CodexTurnCompleted?
      modifies this
      ensures turn == TurnOf(old(Kept()), n) && Kept() == BuffersAfter(old(Kept()), n.event)
    {
      turn := TurnOf(Kept(), n);
      text, reasoning := [], [];
    }

    /** Notifications that only change what is buffered. */
    method OnCodexText(e: Provided)
      requires e.CodexDelta? || e.CodexReasoning? || e.CodexStarted? || e.CodexMessage?
      modifies this
      ensures Kept() == BuffersAfter(old(Kept()), e)
    {
      match e {
        case CodexDelta(delta) =>
          if delta != "" {
            text := text + [delta];
          }
        case CodexReasoning(id, body) =>
          if body != "" {
            reasoning := PutText(reasoning, id, body);
          }
        case CodexStarted(id, tool) => tools := tools[id := tool];
        case CodexMessage(body) =>
          if body != "" && text == [] {
            text := [body];
          }
      }
    }
  }

  lemma {:induction false} ItemRecorded(st: State, s: Settings, b: Buffers, n: Notice)
    requires n.event.CodexCompleted?
    ensures RunFrom(st, s, EventsOf(b, n)) == ToolResult(AgentStep(st, s, ItemStep(b, n)), ItemResult(n))
  {
    var step, result := AgentTurn(ItemStep(b, n)), Returned(ItemResult(n));
    OneCall(st, s, step);
    RunMore(st, s, [step], result);
    assert [step] + [result] == [step, result];
  }

  lemma {:induction false} TurnEvents(b: Buffers, n: Notice)
    requires n.event.CodexTurnCompleted?
    ensures EventsOf(b, n) == [CodexTurned(TurnOf(b, n))]
  {
  }

  lemma {:induction false} TurnRecorded(st: State, s: Settings, b: Buffers, n: Notice)
    requires n.event.CodexTurnCompleted?
    ensures RunFrom(st, s, EventsOf(b, n)) == CodexTurn(st, s, TurnOf(b, n))
  {
    TurnEvents(b, n);
    OneCall(st, s, CodexTurned(TurnOf(b, n)));
  }

  lemma {:induction false} RunFromOne(st: State, s: Settings, e: Event)
    ensures RunFrom(st, s, [e]) == Apply(st, s, e) && RunFrom(st, s, [e] + ResultEvents([])) == Apply(st, s, e)
  {
    assert [e][..0] == [] && [e] + ResultEvents([]) == [e];
  }

  lemma {:induction false} OneMoreResult(st: State, s: Settings, first: seq<Event>, results: seq<ResultArgs>, i: nat)
    requires i < |results|
    ensures RunFrom(st, s, first + ResultEvents(results[..i + 1])) ==
            ToolResult(RunFrom(st, s, first + ResultEvents(results[..i])), results[i])
  {
    assert first + ResultEvents(results[..i + 1]) == first + ResultEvents(results[..i]) + [Returned(results[i])];
    RunMore(st, s, first + ResultEvents(results[..i]), Returned(results[i]));
  }
}
