/**
  * What a stream of provider events says (code_auditor/trajectory.py:817-1019), read from the events alone:
  * the document holds every text, all reasoning, every tool call and every result of the stream, in order.
  */
module ProviderStreams {
  import opened Wrappers
  import Fences
  import opened Atif
  import opened RecorderState
  import opened RecorderInvariant
  import opened RecorderRuns
  import opened RecorderLoad
  import opened Evidence
  import opened Transcript
  import opened ProviderEvents

  // ----- lists --------------------------------------------------------------------------------

  /** What is picked from a list, in order. */
  function Select<A, T>(xs: seq<A>, pick: A -> Option<T>): seq<T> {
    if xs == [] then [] else
      (if pick(xs[0]).Some? then [pick(xs[0]).value] else []) + Select(xs[1..], pick)
  }

  lemma {:induction false} SelectMore<A, T>(xs: seq<A>, x: A, pick: A -> Option<T>)
    ensures Select(xs + [x], pick) == Select(xs, pick) + if pick(x).Some? then [pick(x).value] else []
  {
    if xs == [] {
      assert Select([x][1..], pick) == [];
    } else {
      SelectMore(xs[1..], x, pick);
      assert (xs + [x])[1..] == xs[1..] + [x];
    }
  }

  lemma {:induction false} Regrouped<T>(a: seq<T>, b: seq<T>, c: seq<T>)
    ensures a + (b + c) == a + b + c
  {
  }

  /** The parts one after the other, with a separator between them. */
  function InOneText(parts: seq<string>, separator: string): string {
    if parts == [] then ""
    else if |parts| == 1 then parts[0]
    else parts[0] + separator + InOneText(parts[1..], separator)
  }

  lemma {:induction false} OneMorePart(parts: seq<string>, last: string, separator: string)
    requires parts != []
    ensures InOneText(parts + [last], separator) == InOneText(parts, separator) + separator + last
  {
    var all := parts + [last];
    if |parts| == 1 {
      assert all[1..] == [last];
    } else {
      OneMorePart(parts[1..], last, separator);
      assert all[1..] == parts[1..] + [last];
    }
  }

  lemma {:induction false} JoinedInOneText(parts: seq<string>, separator: string)
    ensures Joined(parts, separator) == InOneText(parts, separator)
    decreases |parts|
  {
    if |parts| > 1 {
      var most, last := parts[..|parts| - 1], parts[|parts| - 1];
      JoinedInOneText(most, separator);
      OneMorePart(most, last, separator);
      assert parts == most + [last];
    }
  }

  // ----- a Claude message -----------------------------------------------------------------------

  function TextOf(b: Block): Option<string> {
    if b.TextBlock? then Some(b.text) else None
  }

  function ThoughtOf(b: Block): Option<string> {
    if b.Thinking? then Some(b.text) else None
  }

  function UseOf(b: Block): Option<Asked> {
    if b.ToolUse? then Some(Asked(Or(b.id, b.generated), Or(b.name, "unknown"), b.input, map[])) else None
  }

  function OutputOf(b: Block): Option<Item> {
    if b.ToolOutput? then Some(Item(b.callId, b.content)) else None
  }

  function ItemsOf(results: seq<ResultArgs>): (items: seq<Item>)
    ensures |items| == |results|
  {
    seq(|results|, i requires 0 <= i < |results| => Item(results[i].callId, results[i].content))
  }

  function MarkOf(b: Block): Option<bool> {
    if b.ToolOutput? then Some(b.isError) else None
  }

  function MarksOf(results: seq<ResultArgs>): (marks: seq<bool>)
    ensures |marks| == |results|
  {
    seq(|results|, i requires 0 <= i < |results| => results[i].isError)
  }

  /** The blocks of a message are sorted by kind, each kind in order, and none is lost. */
  lemma {:induction false} BlocksAreSorted(blocks: seq<Block>, time: string)
    ensures var sorted := SortBlocks(blocks, time);
            && sorted.texts == Select(blocks, TextOf) && sorted.reasoning == Select(blocks, ThoughtOf)
            && Calls(sorted.calls) == Select(blocks, UseOf) && ItemsOf(sorted.results) == Select(blocks, OutputOf)
            && MarksOf(sorted.results) == Select(blocks, MarkOf)
            && forall i :: 0 <= i < |sorted.results| ==> sorted.results[i].time == time && sorted.results[i].refs == []
    decreases |blocks|
  {
    if blocks != [] {
      var most, last := blocks[..|blocks| - 1], blocks[|blocks| - 1];
      BlocksAreSorted(most, time);
      assert blocks == most + [last];
      SelectMore(most, last, TextOf);
      SelectMore(most, last, ThoughtOf);
      SelectMore(most, last, UseOf);
      SelectMore(most, last, OutputOf);
      SelectMore(most, last, MarkOf);
    }
  }

  // ----- a Codex turn: its text ---------------------------------------------------------------

  /** The notifications since the last completed turn. */
  function SinceTurn(notices: seq<Notice>): seq<Provided> {
    if notices == [] || notices[|notices| - 1].event.CodexTurnCompleted? then []
    else SinceTurn(notices[..|notices| - 1]) + [notices[|notices| - 1].event]
  }

  function DeltaOf(e: Provided): Option<string> {
    if e.CodexDelta? && e.text != "" then Some(e.text) else None
  }

  /** The text of a turn is that of all its deltas, and a whole message only counts if it comes before them. */
  function TurnPieces(es: seq<Provided>): seq<string> {
    if es == [] then []
    else if es[0].CodexMessage? && es[0].text != "" then [es[0].text] + Select(es[1..], DeltaOf)
    else if DeltaOf(es[0]).Some? then Select(es, DeltaOf)
    else TurnPieces(es[1..])
  }

  lemma {:induction false} OneMorePiece(es: seq<Provided>, e: Provided)
    ensures TurnPieces(es + [e]) ==
            if DeltaOf(e).Some? then TurnPieces(es) + [DeltaOf(e).value]
            else if e.CodexMessage? && e.text != "" && TurnPieces(es) == [] then [e.text]
            else TurnPieces(es)
  {
    var all := es + [e];
    if es == [] {
      assert all[1..] == [] && TurnPieces(all[1..]) == [];
      SelectMore([], e, DeltaOf);
    } else {
      OneMorePiece(es[1..], e);
      SelectMore(es[1..], e, DeltaOf);
      SelectMore(es, e, DeltaOf);
      assert all[1..] == es[1..] + [e];
    }
  }

  lemma {:induction false} TextIsKept(notices: seq<Notice>)
    ensures BuffersOf(notices).text == TurnPieces(SinceTurn(notices))
    decreases |notices|
  {
    if notices != [] {
      TextIsKept(notices[..|notices| - 1]);
      OneMorePiece(SinceTurn(notices[..|notices| - 1]), notices[|notices| - 1].event);
    }
  }

  // ----- a Codex turn: its reasoning ----------------------------------------------------------

  predicate IsThought(e: Provided, id: string) {
    e.CodexReasoning? && e.id == id && e.text != ""
  }

  predicate TakesThought(e: Provided, id: string) {
    e.CodexCompleted? && e.id == id
  }

  /** A completed tool item takes the reasoning under its id away. */
  predicate IsTaken(es: seq<Provided>, id: string) {
    exists i :: 0 <= i < |es| && TakesThought(es[i], id)
  }

  function Newest(es: seq<Provided>, id: string): string {
    if es == [] then ""
    else if IsThought(es[|es| - 1], id) then es[|es| - 1].text
    else Newest(es[..|es| - 1], id)
  }

  function WithoutThoughts(es: seq<Provided>, id: string): (r: seq<Provided>)
    ensures |r| <= |es|
  {
    if es == [] then [] else
      (if IsThought(es[0], id) then [] else [es[0]]) + WithoutThoughts(es[1..], id)
  }

  /** The reasoning items of a turn in the order they come up, each with its newest text. */
  function Thoughts(es: seq<Provided>): seq<(string, string)>
    decreases |es|
  {
    if es == [] then []
    else if es[0].CodexReasoning? && es[0].text != "" && !IsTaken(es, es[0].id) then
      [(es[0].id, Newest(es, es[0].id))] + Thoughts(WithoutThoughts(es[1..], es[0].id))
    else Thoughts(es[1..])
  }

  lemma {:induction false} WithoutFirst(e: Provided, es: seq<Provided>, id: string)
    ensures WithoutThoughts([e] + es, id) == if IsThought(e, id) then WithoutThoughts(es, id)
                                             else [e] + WithoutThoughts(es, id)
  {
    assert ([e] + es)[1..] == es;
  }

  lemma {:induction false} WithoutMore(es: seq<Provided>, e: Provided, id: string)
    ensures WithoutThoughts(es + [e], id) ==
            if IsThought(e, id) then WithoutThoughts(es, id) else WithoutThoughts(es, id) + [e]
  {
    if es == [] {
      WithoutFirst(e, [], id);
      assert [e] + [] == [] + [e] == [e];
    } else {
      var first, rest := es[0], es[1..];
      WithoutMore(rest, e, id);
      WithoutFirst(first, rest + [e], id);
      WithoutFirst(first, rest, id);
      assert es == [first] + rest;
      Regrouped([first], rest, [e]);
      Regrouped([first], WithoutThoughts(rest, id), [e]);
    }
  }

  lemma {:induction false} TakenMore(es: seq<Provided>, e: Provided, id: string)
    ensures IsTaken(es + [e], id) <==> IsTaken(es, id) || TakesThought(e, id)
  {
    var all := es + [e];
    if i :| 0 <= i < |es| && TakesThought(es[i], id) {
      assert TakesThought(all[i], id);
    }
    assert all[|es|] == e;
  }

  lemma {:induction false} TakenFirst(es: seq<Provided>, id: string)
    requires es != []
    ensures IsTaken(es, id) <==> TakesThought(es[0], id) || IsTaken(es[1..], id)
  {
    if i :| 0 <= i < |es[1..]| && TakesThought(es[1..][i], id) {
      assert TakesThought(es[i + 1], id);
    }
    if i :| 0 < i < |es| && TakesThought(es[i], id) {
      assert TakesThought(es[1..][i - 1], id);
    }
  }

  lemma {:induction false} TakenWithout(es: seq<Provided>, id: string, other: string)
    ensures IsTaken(WithoutThoughts(es, other), id) <==> IsTaken(es, id)
  {
    if es != [] {
      TakenWithout(es[1..], id, other);
      TakenFirst(es, id);
      var most := WithoutThoughts(es[1..], other);
      WithoutFirst(es[0], es[1..], other);
      assert es == [es[0]] + es[1..] && ([es[0]] + most)[1..] == most;
      TakenFirst([es[0]] + most, id);
    }
  }

  lemma {:induction false} NewestFirst(e: Provided, es: seq<Provided>, id: string)
    ensures Newest([e] + es, id) ==
            if (exists i :: 0 <= i < |es| && IsThought(es[i], id)) then Newest(es, id)
            else if IsThought(e, id) then e.text else ""
    decreases |es|
  {
    var all := [e] + es;
    if es == [] {
      assert all[..0] == [];
    } else {
      var n := |es| - 1;
      assert all[..n + 1] == [e] + es[..n];
      NewestFirst(e, es[..n], id);
      if i :| 0 <= i < n && IsThought(es[i], id) {
        assert IsThought(es[..n][i], id);
      }
    }
  }

  lemma {:induction false} NewestMore(es: seq<Provided>, e: Provided, id: string)
    ensures Newest(es + [e], id) == if IsThought(e, id) then e.text else Newest(es, id)
  {
    assert (es + [e])[..|es|] == es;
  }

  lemma {:induction false} NewestWithoutMore(most: seq<Provided>, last: Provided, id: string, other: string)
    requires id != other && Newest(WithoutThoughts(most, other), id) == Newest(most, id)
    ensures Newest(WithoutThoughts(most + [last], other), id) == Newest(most + [last], id)
  {
    WithoutMore(most, last, other);
    NewestMore(most, last, id);
    NewestMore(WithoutThoughts(most, other), last, id);
  }

  lemma {:induction false} NewestWithout(es: seq<Provided>, id: string, other: string)
    requires id != other
    ensures Newest(WithoutThoughts(es, other), id) == Newest(es, id)
    decreases |es|
  {
    if es != [] {
      NewestWithout(es[..|es| - 1], id, other);
      NewestWithoutMore(es[..|es| - 1], es[|es| - 1], id, other);
      assert es == es[..|es| - 1] + [es[|es| - 1]];
    }
  }

  lemma {:induction false} WithoutBoth(es: seq<Provided>, a: string, b: string)
    ensures WithoutThoughts(WithoutThoughts(es, a), b) == WithoutThoughts(WithoutThoughts(es, b), a)
  {
    if es != [] {
      var first, rest := es[0], es[1..];
      WithoutBoth(rest, a, b);
      assert es == [first] + rest;
      WithoutFirst(first, rest, a);
      WithoutFirst(first, rest, b);
      WithoutFirst(first, WithoutThoughts(rest, a), b);
      WithoutFirst(first, WithoutThoughts(rest, b), a);
    }
  }

  /** An item that no tool takes comes first in the list. */
  predicate IsListed(es: seq<Provided>) {
    es != [] && es[0].CodexReasoning? && es[0].text != "" && !IsTaken(es, es[0].id)
  }

  lemma {:induction false} FirstThought(es: seq<Provided>)
    requires es != []
    ensures Thoughts(es) == if IsListed(es) then [(es[0].id, Newest(es, es[0].id))]
                                                + Thoughts(WithoutThoughts(es[1..], es[0].id))
                            else Thoughts(es[1..])
  {
  }

  lemma {:induction false} StaysListed(es: seq<Provided>, e: Provided)
    requires es != [] && !e.CodexCompleted?
    ensures IsListed(es + [e]) <==> IsListed(es)
  {
    if es[0].CodexReasoning? {
      TakenMore(es, e, es[0].id);
    }
  }

  lemma {:induction false} OneThought(e: Provided)
    requires e.CodexReasoning? && e.text != ""
    ensures Thoughts([e]) == [(e.id, e.text)]
  {
    assert [e][1..] == [] && [e][..0] == [] && !IsTaken([e], e.id);
    assert WithoutThoughts([e][1..], e.id) == [];
  }

  lemma {:induction false} PutFirst(id: string, text: string, rest: seq<(string, string)>, other: string, new_: string)
    ensures PutText([(id, text)] + rest, other, new_) ==
            if id == other then [(id, new_)] + rest else [(id, text)] + PutText(rest, other, new_)
  {
    assert ([(id, text)] + rest)[1..] == rest;
  }

  /** A text for an item that is there replaces its text; one for another item is added at the end. */
  lemma {:induction false} ThoughtPut(es: seq<Provided>, e: Provided)
    requires e.CodexReasoning? && e.text != ""
    ensures Thoughts(es + [e]) == PutText(Thoughts(es), e.id, e.text)
    decreases |es|
  {
    if es == [] {
      OneThought(e);
      assert es + [e] == [e];
    } else {
      var rest := es[1..];
      assert (es + [e])[1..] == rest + [e];
      FirstThought(es);
      FirstThought(es + [e]);
      StaysListed(es, e);
      if IsListed(es) {
        var id := es[0].id;
        NewestMore(es, e, id);
        WithoutMore(rest, e, id);
        PutFirst(id, Newest(es, id), Thoughts(WithoutThoughts(rest, id)), e.id, e.text);
        if e.id != id {
          ThoughtPut(WithoutThoughts(rest, id), e);
        }
      } else {
        ThoughtPut(rest, e);
      }
    }
  }

  lemma {:induction false} ThoughtsOfOthers(es: seq<Provided>, id: string)
    requires !IsTaken(es, id)
    ensures Drop(Thoughts(es), id) == Thoughts(WithoutThoughts(es, id))
    decreases |es|
  {
    if es != [] {
      var first, rest := es[0], es[1..];
      assert es == [first] + rest;
      TakenFirst(es, id);
      WithoutFirst(first, rest, id);
      if first.CodexReasoning? && first.text != "" && !IsTaken(es, first.id) {
        if first.id != id {
          OtherStays(first, rest, id);
          TakenFirst(es, first.id);
          TakenWithout(rest, id, first.id);
          ThoughtsOfOthers(WithoutThoughts(rest, first.id), id);
          WithoutBoth(rest, id, first.id);
        }
      } else {
        ThoughtsOfOthers(rest, id);
        if !IsThought(first, id) {
          NotListed(first, rest, id);
        }
      }
    }
  }

  /** The first item of a list is still its first one without the texts for another item. */
  lemma {:induction false} OtherStays(first: Provided, rest: seq<Provided>, id: string)
    requires first.CodexReasoning? && first.text != "" && first.id != id && !IsTaken([first] + rest, first.id)
    ensures Thoughts([first] + WithoutThoughts(rest, id)) ==
            [(first.id, Newest([first] + rest, first.id))]
            + Thoughts(WithoutThoughts(WithoutThoughts(rest, id), first.id))
  {
    var es := [first] + WithoutThoughts(rest, id);
    WithoutFirst(first, rest, id);
    TakenWithout([first] + rest, first.id, id);
    NewestWithout([first] + rest, first.id, id);
    assert es[1..] == WithoutThoughts(rest, id);
  }

  lemma {:induction false} NotListed(first: Provided, rest: seq<Provided>, id: string)
    requires !(first.CodexReasoning? && first.text != "" && !IsTaken([first] + rest, first.id))
    ensures Thoughts([first] + WithoutThoughts(rest, id)) == Thoughts(WithoutThoughts(rest, id))
  {
    var es := [first] + WithoutThoughts(rest, id);
    assert es[1..] == WithoutThoughts(rest, id) && ([first] + rest)[1..] == rest;
    if first.CodexReasoning? && first.text != "" {
      TakenFirst([first] + rest, first.id);
      TakenFirst(es, first.id);
      TakenWithout(rest, first.id, id);
    }
  }

  /** A completed tool item takes the reasoning under its id with it. */
  lemma {:induction false} ThoughtTaken(es: seq<Provided>, e: Provided)
    requires e.CodexCompleted?
    ensures Thoughts(es + [e]) == Drop(Thoughts(es), e.id)
    decreases |es|
  {
    var all := es + [e];
    if es == [] {
      assert all[1..] == [];
    } else {
      var first, rest := es[0], es[1..];
      assert all[1..] == rest + [e] && es == [first] + rest;
      if first.CodexReasoning? && first.text != "" {
        TakenMore(es, e, first.id);
        NewestMore(es, e, first.id);
        WithoutMore(rest, e, first.id);
      }
      if first.CodexReasoning? && first.text != "" && !IsTaken(es, first.id) && first.id != e.id {
        ThoughtTaken(WithoutThoughts(rest, first.id), e);
      } else {
        ThoughtTaken(rest, e);
        if first.CodexReasoning? && first.text != "" && !IsTaken(es, first.id) {
          TakenFirst(es, first.id);
          ThoughtsOfOthers(rest, first.id);
        }
      }
    }
  }

  lemma {:induction false} ThoughtsStay(es: seq<Provided>, e: Provided)
    requires !e.CodexCompleted? && (e.CodexReasoning? ==> e.text == "")
    ensures Thoughts(es + [e]) == Thoughts(es)
    decreases |es|
  {
    var all := es + [e];
    if es == [] {
      assert all[1..] == [];
    } else {
      var first, rest := es[0], es[1..];
      assert all[1..] == rest + [e] && es == [first] + rest;
      if first.CodexReasoning? && first.text != "" {
        TakenMore(es, e, first.id);
        NewestMore(es, e, first.id);
        WithoutMore(rest, e, first.id);
      }
      if first.CodexReasoning? && first.text != "" && !IsTaken(es, first.id) {
        ThoughtsStay(WithoutThoughts(rest, first.id), e);
      } else {
        ThoughtsStay(rest, e);
      }
    }
  }

  lemma {:induction false} ReasoningIsKept(notices: seq<Notice>)
    ensures BuffersOf(notices).reasoning == Thoughts(SinceTurn(notices))
    decreases |notices|
  {
    if notices != [] {
      var most, e := notices[..|notices| - 1], notices[|notices| - 1].event;
      ReasoningIsKept(most);
      if e.CodexReasoning? && e.text != "" {
        ThoughtPut(SinceTurn(most), e);
      } else if e.CodexCompleted? {
        ThoughtTaken(SinceTurn(most), e);
      } else {
        ThoughtsStay(SinceTurn(most), e);
      }
    }
  }

  // ----- started tools ------------------------------------------------------------------------

  /** The tool that was started last under an id and is not completed yet, in whichever turn. */
  function Started(notices: seq<Notice>, id: string): Option<Tool> {
    if notices == [] then None else
      var e := notices[|notices| - 1].event;
      if e.CodexStarted? && e.id == id then Some(e.tool)
      else if e.CodexCompleted? && e.id == id then None
      else Started(notices[..|notices| - 1], id)
  }

  lemma {:induction false} ToolIsKept(notices: seq<Notice>, id: string)
    ensures var tools := BuffersOf(notices).tools;
            Started(notices, id) == if id in tools then Some(tools[id]) else None
    decreases |notices|
  {
    if notices != [] {
      ToolIsKept(notices[..|notices| - 1], id);
    }
  }

  // ----- what a stream says -------------------------------------------------------------------

  /** Texts in the order of their items. */
  function TextsIn(thoughts: seq<(string, string)>): (r: seq<string>)
    ensures |r| == |thoughts|
  {
    seq(|thoughts|, i requires 0 <= i < |thoughts| => thoughts[i].1)
  }

  function ByAgent(s: Settings, n: Notice, message: string, reasoning: string, calls: seq<Asked>, notes: Dict):
      seq<Said> {
    Spoken(Said(AGENT, n.time, message, reasoning, Or(n.model, s.model), s.effort, calls, notes))
  }

  /** What one event says, after the events before it. Reasoning of a completed Codex tool item is not said. */
  function Heard(s: Settings, past: seq<Notice>, n: Notice): seq<Said> {
    match n.event
    case ClaudeSystem(body, extra) => Spoken(Said(SYSTEM, n.time, body, "", "", "", [], extra - {Delegations}))
    case ClaudeText(text) => ByAgent(s, n, text, "", [], map[])
    case ClaudeBlocks(blocks) =>
      ByAgent(s, n, Fences.Strip(InOneText(Select(blocks, TextOf), "\n")),
              Fences.Strip(InOneText(Select(blocks, ThoughtOf), "\n")), Select(blocks, UseOf), map[])
    case CodexCompleted(id, named, _, _, _) =>
      var tool := if Started(past, id).Some? then Started(past, id).value else named;
      ByAgent(s, n, "", "", [Asked("codex-" + id, Or(tool.name, "unknown"), tool.input, map[])], map[])
    case CodexTurnCompleted(_) =>
      ByAgent(s, n, Fences.Strip(InOneText(TurnPieces(SinceTurn(past)), "")),
              Fences.Strip(InOneText(TextsIn(Thoughts(SinceTurn(past))), "\n")), [], TURN_EXTRA)
    case _ => []
  }

  function HeardIn(s: Settings, notices: seq<Notice>): seq<Said> {
    if notices == [] then [] else
      var n := |notices| - 1;
      HeardIn(s, notices[..n]) + Heard(s, notices[..n], notices[n])
  }

  lemma {:induction false} ToldMore(start: State, s: Settings, events: seq<Event>, e: Event, now: State)
    requires now == RunFrom(start, s, events)
    ensures ToldIn(start, s, events + [e]) == ToldIn(start, s, events) + Told(now, s, e)
  {
    assert (events + [e])[..|events|] == events;
  }

  lemma {:induction false} ToldTogether(start: State, s: Settings, a: seq<Event>, b: seq<Event>, mid: State)
    requires mid == RunFrom(start, s, a)
    ensures ToldIn(start, s, a + b) == ToldIn(start, s, a) + ToldIn(mid, s, b)
    decreases |b|
  {
    if b == [] {
      assert a + b == a;
    } else {
      var most, e := b[..|b| - 1], b[|b| - 1];
      var now := RunFrom(mid, s, most);
      ToldTogether(start, s, a, most, mid);
      StatesTogether(start, s, a, most, mid);
      ToldMore(start, s, a + most, e, now);
      ToldMore(mid, s, most, e, now);
      LastApart(a, b);
      Regrouped(ToldIn(start, s, a), ToldIn(mid, s, most), Told(now, s, e));
    }
  }

  lemma {:induction false} OneTold(start: State, s: Settings, e: Event)
    ensures ToldIn(start, s, [e]) == Told(start, s, e)
  {
    ToldMore(start, s, [], e, start);
    assert [] + [e] == [e] && [] + Told(start, s, e) == Told(start, s, e);
  }

  lemma {:induction false} ResultTellsNothing(start: State, s: Settings, events: seq<Event>, r: ResultArgs)
    ensures ToldIn(start, s, events + [Returned(r)]) == ToldIn(start, s, events)
  {
    ToldMore(start, s, events, Returned(r), RunFrom(start, s, events));
  }

  lemma {:induction false} ResultsTellNothing(start: State, s: Settings, results: seq<ResultArgs>)
    ensures ToldIn(start, s, ResultEvents(results)) == []
    decreases |results|
  {
    if results != [] {
      var n := |results| - 1;
      ResultsTellNothing(start, s, results[..n]);
      assert ResultEvents(results) == ResultEvents(results[..n]) + [Returned(results[n])];
      ResultTellsNothing(start, s, ResultEvents(results[..n]), results[n]);
    }
  }

  /** What the step of a message says: its texts and its thinking, a line each, and its tool calls. */
  lemma {:induction false} StepSays(s: Settings, n: Notice, blocks: seq<Block>)
    ensures var a := StepOf(SortBlocks(blocks, n.time), n.time, n.model);
            Spoken(Turn(s, a, a.reasoning)) ==
            ByAgent(s, n, Fences.Strip(InOneText(Select(blocks, TextOf), "\n")),
                    Fences.Strip(InOneText(Select(blocks, ThoughtOf), "\n")), Select(blocks, UseOf), map[])
  {
    BlocksAreSorted(blocks, n.time);
    JoinedInOneText(Select(blocks, TextOf), "\n");
    JoinedInOneText(Select(blocks, ThoughtOf), "\n");
  }

  lemma {:induction false} TurnAndResults(start: State, s: Settings, a: AgentArgs, results: seq<ResultArgs>)
    requires a.llmCalls == 1
    ensures ToldIn(start, s, [AgentTurn(a)] + ResultEvents(results)) == Spoken(Turn(s, a, a.reasoning))
  {
    var after := RunFrom(start, s, [AgentTurn(a)]);
    ToldTogether(start, s, [AgentTurn(a)], ResultEvents(results), after);
    OneTold(start, s, AgentTurn(a));
    ResultsTellNothing(after, s, results);
  }

  /** The recorder calls that an event leads to tell what is heard of it. */
  predicate IsHeard(start: State, s: Settings, past: seq<Notice>, n: Notice) {
    ToldIn(start, s, EventsOf(BuffersOf(past), n)) == Heard(s, past, n)
  }

  lemma {:induction false} MessageIsHeard(start: State, s: Settings, past: seq<Notice>, n: Notice)
    requires n.event.ClaudeBlocks?
    ensures IsHeard(start, s, past, n)
  {
    var sorted := SortBlocks(n.event.blocks, n.time);
    StepSays(s, n, n.event.blocks);
    if sorted.texts == [] && sorted.calls == [] && sorted.reasoning == [] {
      EmptyMessage(s, n, n.event.blocks);
      ResultsTellNothing(start, s, sorted.results);
      assert [] + ResultEvents(sorted.results) == ResultEvents(sorted.results);
    } else {
      TurnAndResults(start, s, StepOf(sorted, n.time, n.model), sorted.results);
    }
  }

  lemma {:induction false} EmptyMessage(s: Settings, n: Notice, blocks: seq<Block>)
    requires var sorted := SortBlocks(blocks, n.time);
             sorted.texts == [] && sorted.calls == [] && sorted.reasoning == []
    ensures var a := StepOf(SortBlocks(blocks, n.time), n.time, n.model); Spoken(Turn(s, a, a.reasoning)) == []
  {
  }

  lemma {:induction false} ToolTold(start: State, s: Settings, a: AgentArgs, r: ResultArgs, e: Event)
    requires e == AgentTurn(a) && a.llmCalls == 0
    ensures ToldIn(start, s, [e] + [Returned(r)]) == Spoken(Turn(s, a, ""))
  {
    OneTold(start, s, e);
    ResultTellsNothing(start, s, [e], r);
  }

  lemma {:induction false} ItemEvents(b: Buffers, n: Notice)
    requires n.event.CodexCompleted?
    ensures EventsOf(b, n) == [AgentTurn(ItemStep(b, n))] + [Returned(ItemResult(n))]
  {
  }

  lemma {:induction false} ItemIsHeard(start: State, s: Settings, past: seq<Notice>, n: Notice)
    requires n.event.CodexCompleted?
    ensures IsHeard(start, s, past, n)
  {
    var a := ItemStep(BuffersOf(past), n);
    ItemSays(s, past, n);
    ItemEvents(BuffersOf(past), n);
    ToolTold(start, s, a, ItemResult(n), AgentTurn(a));
  }

  lemma {:induction false} ItemSays(s: Settings, past: seq<Notice>, n: Notice)
    requires n.event.CodexCompleted?
    ensures Spoken(Turn(s, ItemStep(BuffersOf(past), n), "")) == Heard(s, past, n)
    ensures ItemStep(BuffersOf(past), n).llmCalls == 0
  {
    var a := ItemStep(BuffersOf(past), n);
    ToolIsKept(past, n.event.id);
    assert Calls(a.calls) ==
           [Asked(a.calls[0].id, Or(a.calls[0].function_, "unknown"), a.calls[0].arguments, map[])];
  }

  lemma {:induction false} TurnSays(s: Settings, past: seq<Notice>, n: Notice)
    requires n.event.CodexTurnCompleted?
    ensures Spoken(CodexSaid(s, TurnOf(BuffersOf(past), n))) == Heard(s, past, n)
  {
    var b := BuffersOf(past);
    TextIsKept(past);
    ReasoningIsKept(past);
    JoinedInOneText(b.text, "");
    JoinedInOneText(TextsOf(b.reasoning), "\n");
    assert TextsOf(b.reasoning) == TextsIn(b.reasoning) && TURN_EXTRA - {Delegations} == TURN_EXTRA;
  }

  lemma {:induction false} TurnIsHeard(start: State, s: Settings, past: seq<Notice>, n: Notice)
    requires n.event.CodexTurnCompleted?
    ensures IsHeard(start, s, past, n)
  {
    TurnSays(s, past, n);
    TurnEvents(BuffersOf(past), n);
    TurnTold(start, s, TurnOf(BuffersOf(past), n), CodexTurned(TurnOf(BuffersOf(past), n)));
  }

  lemma {:induction false} TurnTold(start: State, s: Settings, a: TurnArgs, e: Event)
    requires e == CodexTurned(a)
    ensures ToldIn(start, s, [e]) == Spoken(CodexSaid(s, a))
  {
    OneTold(start, s, e);
  }

  lemma {:induction false} OtherIsHeard(start: State, s: Settings, past: seq<Notice>, n: Notice)
    requires !n.event.ClaudeBlocks? && !n.event.CodexCompleted? && !n.event.CodexTurnCompleted?
    ensures IsHeard(start, s, past, n)
  {
    var es := EventsOf(BuffersOf(past), n);
    if es != [] {
      OneTold(start, s, es[0]);
      assert es == [es[0]];
    }
  }

  lemma {:induction false} EventIsHeard(start: State, s: Settings, past: seq<Notice>, n: Notice)
    ensures IsHeard(start, s, past, n)
  {
    match n.event {
      case ClaudeBlocks(_) => MessageIsHeard(start, s, past, n);
      case CodexCompleted(_, _, _, _, _) => ItemIsHeard(start, s, past, n);
      case CodexTurnCompleted(_) => TurnIsHeard(start, s, past, n);
      case _ => OtherIsHeard(start, s, past, n);
    }
  }

  lemma {:induction false} StreamIsTold(s: Settings, notices: seq<Notice>)
    ensures ToldIn(FRESH, s, Recorded(notices)) == HeardIn(s, notices)
    decreases |notices|
  {
    if notices != [] {
      var n := |notices| - 1;
      var es := EventsOf(BuffersOf(notices[..n]), notices[n]);
      StreamIsTold(s, notices[..n]);
      ToldTogether(FRESH, s, Recorded(notices[..n]), es, Run(s, Recorded(notices[..n])));
      EventIsHeard(Run(s, Recorded(notices[..n])), s, notices[..n], notices[n]);
    }
  }

  /**
    * The written document of a stream, loaded again, says exactly what the events of the stream said, in
    * order: each message with its text and thinking, each tool call, and each Codex turn with the text and
    * the newest reasoning that came up since the turn before.
    */
  lemma {:induction false} StreamIsHeard(s: Settings, notices: seq<Notice>)
    ensures var document := ToDocument(Run(s, Recorded(notices)), s);
            document.Obj? && SaidIn(Loaded(document.fields).steps) == HeardIn(s, notices)
  {
    StreamIsTold(s, notices);
    TranscriptIsKept(FRESH, s, Recorded(notices));
    WrittenAndSaid(Run(s, Recorded(notices)), s);
    assert [] + HeardIn(s, notices) == HeardIn(s, notices);
  }

  // ----- the results of a stream --------------------------------------------------------------

  function ItemsHeard(n: Notice): seq<Item> {
    match n.event
    case ClaudeBlocks(blocks) => Select(blocks, OutputOf)
    case CodexCompleted(id, _, output, _, _) => [Item("codex-" + id, output)]
    case _ => []
  }

  function AllItems(notices: seq<Notice>): seq<Item> {
    if notices == [] then [] else
      AllItems(notices[..|notices| - 1]) + ItemsHeard(notices[|notices| - 1])
  }

  lemma {:induction false} GivenMore(s: Settings, events: seq<Event>, e: Event, item: Item)
    requires !e.Delegated?
    ensures Given(s, events + [e], item) == Given(s, events, item) + GivenBy(FRESH, e, item)
  {
    assert (events + [e])[..|events|] == events;
  }

  lemma {:induction false} ResultGiven(s: Settings, events: seq<Event>, r: ResultArgs, item: Item)
    ensures Given(s, events + [Returned(r)], item) ==
            Given(s, events, item) + Same(Item(r.callId, r.content), item)
  {
    GivenMore(s, events, Returned(r), item);
  }

  lemma {:induction false} OneMoreItem(results: seq<ResultArgs>, item: Item)
    requires results != []
    ensures var n := |results| - 1;
            multiset(ItemsOf(results))[item] ==
            multiset(ItemsOf(results[..n]))[item] + Same(Item(results[n].callId, results[n].content), item)
  {
    var n := |results| - 1;
    assert ItemsOf(results) == ItemsOf(results[..n]) + [Item(results[n].callId, results[n].content)];
  }

  lemma {:induction false} ResultEventsMore(events: seq<Event>, results: seq<ResultArgs>, last: ResultArgs)
    ensures events + ResultEvents(results + [last]) == events + ResultEvents(results) + [Returned(last)]
  {
    assert ResultEvents(results + [last]) == ResultEvents(results) + [Returned(last)];
    Regrouped(events, ResultEvents(results), [Returned(last)]);
  }

  lemma {:induction false} ResultsAreGiven(s: Settings, events: seq<Event>, results: seq<ResultArgs>, item: Item)
    ensures Given(s, events + ResultEvents(results), item) ==
            Given(s, events, item) + multiset(ItemsOf(results))[item]
    decreases |results|
  {
    if results == [] {
      assert events + ResultEvents(results) == events;
    } else {
      var most, last := results[..|results| - 1], results[|results| - 1];
      assert results == most + [last];
      ResultsAreGiven(s, events, most, item);
      ResultEventsMore(events, most, last);
      ResultGiven(s, events + ResultEvents(most), last, item);
      OneMoreItem(results, item);
    }
  }

  lemma {:induction false} MessageGives(s: Settings, events: seq<Event>, n: Notice, item: Item)
    requires n.event.ClaudeBlocks?
    ensures var es := MessageEvents(SortBlocks(n.event.blocks, n.time), n.time, n.model);
            Given(s, events + es, item) == Given(s, events, item) + multiset(ItemsHeard(n))[item]
  {
    var sorted := SortBlocks(n.event.blocks, n.time);
    var results, turn := ResultEvents(sorted.results), AgentTurn(StepOf(sorted, n.time, n.model));
    BlocksAreSorted(n.event.blocks, n.time);
    if sorted.texts == [] && sorted.calls == [] && sorted.reasoning == [] {
      assert [] + results == results;
      ResultsAreGiven(s, events, sorted.results, item);
    } else {
      Regrouped(events, [turn], results);
      ResultsAreGiven(s, events + [turn], sorted.results, item);
      GivenMore(s, events, turn, item);
    }
  }

  lemma {:induction false} EventGives(s: Settings, events: seq<Event>, b: Buffers, n: Notice, item: Item)
    ensures Given(s, events + EventsOf(b, n), item) == Given(s, events, item) + multiset(ItemsHeard(n))[item]
  {
    var es := EventsOf(b, n);
    if n.event.ClaudeBlocks? {
      MessageGives(s, events, n, item);
    } else if n.event.CodexCompleted? {
      Regrouped(events, [es[0]], [es[1]]);
      assert [es[0]] + [es[1]] == es;
      GivenMore(s, events, es[0], item);
      GivenMore(s, events + [es[0]], es[1], item);
    } else if es == [] {
      assert events + es == events;
    } else {
      assert es == [es[0]];
      GivenMore(s, events, es[0], item);
    }
  }

  lemma {:induction false} StreamGives(s: Settings, notices: seq<Notice>, item: Item)
    ensures Given(s, Recorded(notices), item) == multiset(AllItems(notices))[item]
    decreases |notices|
  {
    if notices != [] {
      var n := |notices| - 1;
      StreamGives(s, notices[..n], item);
      EventGives(s, Recorded(notices[..n]), BuffersOf(notices[..n]), notices[n], item);
    }
  }

  /** Every result of a stream is in the document under its call, exactly as often as the stream gave it. */
  lemma {:induction false} StreamResultsAreKept(s: Settings, notices: seq<Notice>, item: Item)
    ensures InSteps(Run(s, Recorded(notices)).steps, item) == multiset(AllItems(notices))[item]
  {
    StreamGives(s, notices, item);
    EvidenceIsKept(s, Recorded(notices), item);
  }

  // ----- the usage of a stream ----------------------------------------------------------------

  /** A usage report: of one query, or totals so far. */
  datatype Report = OfQuery(usage: Option<Dict>, cost: Option<real>, extra: Dict) | OfTotals(totals: Dict)

  function ReportOf(e: Event): Option<Report> {
    match e
    case Used(usage, cost, extra) => Some(OfQuery(usage, cost, extra))
    case CodexTotals(totals) => Some(OfTotals(totals))
    case CodexTurned(a) => if a.usage.Some? then Some(OfTotals(a.usage.value)) else None
    case _ => None
  }

  function ReportIn(n: Notice): Option<Report> {
    match n.event
    case ClaudeResult(usage, cost, extra) => Some(OfQuery(usage, cost, extra))
    case CodexTokens(usage) => if usage.Some? then Some(OfTotals(usage.value)) else None
    case CodexTurnCompleted(usage) => if usage.Some? then Some(OfTotals(usage.value)) else None
    case _ => None
  }

  lemma {:induction false} SelectTogether<A, T>(xs: seq<A>, ys: seq<A>, pick: A -> Option<T>)
    ensures Select(xs + ys, pick) == Select(xs, pick) + Select(ys, pick)
    decreases |ys|
  {
    if ys == [] {
      assert xs + ys == xs;
    } else {
      var most, last := ys[..|ys| - 1], ys[|ys| - 1];
      SelectTogether(xs, most, pick);
      assert ys == most + [last];
      Regrouped(xs, most, [last]);
      SelectMore(xs + most, last, pick);
      SelectMore(most, last, pick);
    }
  }

  lemma {:induction false} NoneSelected<A, T>(xs: seq<A>, pick: A -> Option<T>)
    requires forall i :: 0 <= i < |xs| ==> pick(xs[i]).None?
    ensures Select(xs, pick) == []
  {
    if xs != [] {
      NoneSelected(xs[1..], pick);
    }
  }

  lemma {:induction false} OneSelected<A, T>(x: A, pick: A -> Option<T>)
    ensures Select([x], pick) == if pick(x).Some? then [pick(x).value] else []
  {
    assert [x][1..] == [];
  }

  lemma {:induction false} ResultsReportNothing(results: seq<ResultArgs>)
    ensures Select(ResultEvents(results), ReportOf) == []
  {
    NoneSelected(ResultEvents(results), ReportOf);
  }

  lemma {:induction false} MessageReportsNothing(sorted: Sorted, time: string, model: string)
    ensures Select(MessageEvents(sorted, time, model), ReportOf) == []
  {
    var results := ResultEvents(sorted.results);
    ResultsReportNothing(sorted.results);
    if sorted.texts == [] && sorted.calls == [] && sorted.reasoning == [] {
      assert [] + results == results;
    } else {
      var turn := AgentTurn(StepOf(sorted, time, model));
      SelectTogether([turn], results, ReportOf);
      OneSelected(turn, ReportOf);
    }
  }

  lemma {:induction false} ItemReportsNothing(b: Buffers, n: Notice)
    requires n.event.CodexCompleted?
    ensures Select(EventsOf(b, n), ReportOf) == []
  {
    ItemEvents(b, n);
    SelectTogether([AgentTurn(ItemStep(b, n))], [Returned(ItemResult(n))], ReportOf);
    OneSelected(AgentTurn(ItemStep(b, n)), ReportOf);
    OneSelected(Returned(ItemResult(n)), ReportOf);
  }

  lemma {:induction false} OtherReports(b: Buffers, n: Notice)
    requires !n.event.ClaudeBlocks? && !n.event.CodexCompleted?
    ensures Select(EventsOf(b, n), ReportOf) == if ReportIn(n).Some? then [ReportIn(n).value] else []
  {
    var es := EventsOf(b, n);
    if es != [] {
      assert es == [es[0]];
      OneSelected(es[0], ReportOf);
    }
  }

  lemma {:induction false} EventReports(b: Buffers, n: Notice)
    ensures Select(EventsOf(b, n), ReportOf) == Select([n], ReportIn)
  {
    OneSelected(n, ReportIn);
    if n.event.ClaudeBlocks? {
      MessageReportsNothing(SortBlocks(n.event.blocks, n.time), n.time, n.model);
    } else if n.event.CodexCompleted? {
      ItemReportsNothing(b, n);
    } else {
      OtherReports(b, n);
    }
  }

  /** The recorder is told of exactly the usage that the stream reports, in order. */
  lemma {:induction false} StreamUsageIsReported(notices: seq<Notice>)
    ensures Select(Recorded(notices), ReportOf) == Select(notices, ReportIn)
    decreases |notices|
  {
    if notices != [] {
      var most, n := notices[..|notices| - 1], notices[|notices| - 1];
      StreamUsageIsReported(most);
      EventReports(BuffersOf(most), n);
      SelectTogether(Recorded(most), EventsOf(BuffersOf(most), n), ReportOf);
      SelectTogether(most, [n], ReportIn);
      assert notices == most + [n];
    }
  }

  // ----- reasoning that is lost ---------------------------------------------------------------

  lemma {:induction false} HeardMore(s: Settings, notices: seq<Notice>, n: Notice)
    ensures HeardIn(s, notices + [n]) == HeardIn(s, notices) + Heard(s, notices, n)
    ensures !n.event.CodexTurnCompleted? ==> SinceTurn(notices + [n]) == SinceTurn(notices) + [n.event]
  {
    assert (notices + [n])[..|notices|] == notices;
  }

  lemma {:induction false} ThoughtAndItem(thought: Provided, item: Provided)
    requires thought.CodexReasoning? && thought.text != "" && item.CodexCompleted?
    ensures Thoughts([] + [thought] + [item]) == if item.id == thought.id then [] else [(thought.id, thought.text)]
    ensures TurnPieces([] + [thought] + [item]) == []
  {
    ThoughtPut([], thought);
    ThoughtTaken([] + [thought], item);
    OneMorePiece([], thought);
    OneMorePiece([] + [thought], item);
  }

  predicate SayReasoning(all: seq<Said>) {
    exists i :: 0 <= i < |all| && all[i].reasoning != ""
  }

  lemma {:induction false} OneSpeaks(asked: seq<Said>, last: seq<Said>)
    requires |asked| == 1 && asked[0].reasoning == "" && |last| <= 1
    ensures SayReasoning(asked + last) <==> SayReasoning(last)
  {
    if last != [] {
      assert (asked + last)[1] == last[0];
    }
  }

  lemma {:induction false} AgentSpeaks(s: Settings, n: Notice, message: string, reasoning: string, calls: seq<Asked>,
      notes: Dict)
    ensures |ByAgent(s, n, message, reasoning, calls, notes)| <= 1
    ensures SayReasoning(ByAgent(s, n, message, reasoning, calls, notes)) <==> reasoning != ""
  {
    var said := ByAgent(s, n, message, reasoning, calls, notes);
    if said != [] {
      assert said[0].reasoning == reasoning;
    }
  }

  lemma {:induction false} OneThoughtText(thoughts: seq<(string, string)>, separator: string)
    requires |thoughts| <= 1
    ensures InOneText(TextsIn(thoughts), separator) == if thoughts == [] then "" else thoughts[0].1
  {
  }

  lemma {:induction false} TurnSpeaks(s: Settings, past: seq<Notice>, turn: Notice, thoughts: seq<(string, string)>)
    requires turn.event.CodexTurnCompleted? && Thoughts(SinceTurn(past)) == thoughts && |thoughts| <= 1
    ensures |Heard(s, past, turn)| <= 1
    ensures SayReasoning(Heard(s, past, turn)) <==> thoughts != [] && Fences.Strip(thoughts[0].1) != ""
  {
    var reasoning := Fences.Strip(InOneText(TextsIn(thoughts), "\n"));
    OneThoughtText(thoughts, "\n");
    AgentSpeaks(s, turn, Fences.Strip(InOneText(TurnPieces(SinceTurn(past)), "")), reasoning, [], TURN_EXTRA);
  }

  lemma {:induction false} ThoughtIsHeard(s: Settings, thought: Notice, one: seq<Notice>)
    requires one == [] + [thought] && thought.event.CodexReasoning?
    ensures HeardIn(s, one) == [] && SinceTurn(one) == [] + [thought.event]
  {
    HeardMore(s, [], thought);
  }

  lemma {:induction false} ItemSpeaks(s: Settings, one: seq<Notice>, item: Notice)
    requires item.event.CodexCompleted?
    ensures |Heard(s, one, item)| == 1 && Heard(s, one, item)[0].reasoning == ""
  {
  }

  /**
    * Reasoning under the id of a tool item goes with the item: the item's step made no model call and says
    * none of it, and the turn that follows does not have it any more.
    */
  lemma {:induction false} ToolItemTakesReasoning(s: Settings, thought: Notice, item: Notice, turn: Notice,
      one: seq<Notice>, two: seq<Notice>)
    requires one == [] + [thought] && two == one + [item]
    requires thought.event.CodexReasoning? && thought.event.text != ""
    requires item.event.CodexCompleted? && turn.event.CodexTurnCompleted?
    ensures SayReasoning(HeardIn(s, two + [turn])) <==>
            item.event.id != thought.event.id && Fences.Strip(thought.event.text) != ""
  {
    ThoughtIsHeard(s, thought, one);
    HeardMore(s, one, item);
    HeardMore(s, two, turn);
    ItemSpeaks(s, one, item);
    ThoughtAndItem(thought.event, item.event);
    TurnSpeaks(s, two, turn, Thoughts(SinceTurn(two)));
    assert HeardIn(s, two) == Heard(s, one, item);
    OneSpeaks(Heard(s, one, item), Heard(s, two, turn));
  }
}
