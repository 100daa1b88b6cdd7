/**
  * Delegations to child documents (add_subagent, code_auditor/trajectory.py:709-766): in a run whose
  * references all come from there, every child document is referenced exactly once, and the delegating
  * step counts the calls.
  */
module Delegations {
  import opened Wrappers
  import opened Atif
  import opened RecorderState
  import opened RecorderInvariant
  import opened RecorderRuns

  /** The paths that a step refers to, over all its results, in order. */
  function PathsOf(d: Dict): seq<Value> {
    PathsOfResults(ResultsOf(d))
  }

  function PathsOfResults(results: seq<Value>): seq<Value> {
    if results == [] then [] else
      PathsOfResults(results[..|results| - 1]) + PathsOfRefs(RefsOfResult(results[|results| - 1]))
  }

  function PathsOfRefs(refs: seq<Value>): (ps: seq<Value>)
    ensures |ps| == |refs| && forall k :: 0 <= k < |refs| ==> ps[k] == PathOf(refs[k])
  {
    seq(|refs|, k requires 0 <= k < |refs| => PathOf(refs[k]))
  }

  function PathOf(ref: Value): Value {
    if ref.Obj? then Get(ref.fields, TrajectoryPath) else Null
  }

  predicate SomeRefersTo(results: seq<Value>, p: string) {
    exists j :: 0 <= j < |results| && ResultRefersTo(results[j], p)
  }

  lemma {:induction false} SomeOfLonger(most: seq<Value>, last: Value, p: string)
    ensures SomeRefersTo(most + [last], p) <==> SomeRefersTo(most, p) || ResultRefersTo(last, p)
  {
    var all := most + [last];
    if j :| 0 <= j < |all| && ResultRefersTo(all[j], p) {
      assert j < |most| ==> ResultRefersTo(most[j], p);
    }
    if j :| 0 <= j < |most| && ResultRefersTo(most[j], p) {
      assert ResultRefersTo(all[j], p);
    }
    assert all[|most|] == last;
  }

  lemma {:induction false} ResultsReferTo(results: seq<Value>, p: string)
    ensures SomeRefersTo(results, p) <==> Str(p) in PathsOfResults(results)
    decreases |results|
  {
    if results != [] {
      var most, last := results[..|results| - 1], results[|results| - 1];
      ResultsReferTo(most, p);
      OneResultRefersTo(last, p);
      assert results == most + [last];
      SomeOfLonger(most, last, p);
    }
  }

  lemma {:induction false} OneResultRefersTo(v: Value, p: string)
    ensures ResultRefersTo(v, p) <==> Str(p) in PathsOfRefs(RefsOfResult(v))
  {
    var refs := RefsOfResult(v);
    var paths := PathsOfRefs(refs);
    if Str(p) in paths {
      var k :| 0 <= k < |paths| && paths[k] == Str(p);
      assert RefersTo(refs[k], p);
    }
    if k :| 0 <= k < |refs| && RefersTo(refs[k], p) {
      assert paths[k] == Str(p);
    }
  }

  lemma {:induction false} StepRefers(d: Dict, p: string)
    ensures StepRefersTo(d, p) <==> Str(p) in PathsOf(d)
  {
    ResultsReferTo(ResultsOf(d), p);
    assert StepRefersTo(d, p) <==> SomeRefersTo(ResultsOf(d), p);
  }

  // ----- events that delegate nothing -----------------------------------------------------------

  /** Nothing changes about who is delegated to. */
  predicate IsQuiet(d: Dict, d': Dict) {
    PathsOf(d') == PathsOf(d) && DelegationCount(d') == DelegationCount(d)
  }

  ghost predicate AreQuiet(steps: seq<Dict>, steps': seq<Dict>) {
    |steps| <= |steps'| && forall i :: IsQuietAt(steps, steps', i)
  }

  predicate IsQuietAt(steps: seq<Dict>, steps': seq<Dict>, i: int) {
    0 <= i < |steps'| ==> if i < |steps| then IsQuiet(steps[i], steps'[i]) else PathsOf(steps'[i]) == []
  }

  lemma {:induction false} QuietTogether(a: seq<Dict>, b: seq<Dict>, c: seq<Dict>)
    requires AreQuiet(a, b) && AreQuiet(b, c)
    ensures AreQuiet(a, c)
  {
    forall i
      ensures IsQuietAt(a, c, i)
    {
      assert IsQuietAt(a, b, i) && IsQuietAt(b, c, i);
    }
  }

  lemma {:induction false} QuietUpdate(steps: seq<Dict>, i: nat, d': Dict)
    requires i < |steps| && IsQuiet(steps[i], d')
    ensures AreQuiet(steps, steps[i := d'])
  {
    var steps' := steps[i := d'];
    forall j
      ensures IsQuietAt(steps, steps', j)
    {
    }
  }

  lemma {:induction false} QuietAppend(steps: seq<Dict>, d: Dict)
    requires PathsOf(d) == []
    ensures AreQuiet(steps, steps + [d])
  {
    var steps' := steps + [d];
    forall j
      ensures IsQuietAt(steps, steps', j)
    {
    }
  }

  lemma {:induction false} QuietSame(steps: seq<Dict>)
    ensures AreQuiet(steps, steps)
  {
    forall j
      ensures IsQuietAt(steps, steps, j)
    {
    }
  }

  /** Paths and counts depend on two fields only. */
  lemma {:induction false} QuietFields(d: Dict, d': Dict)
    requires Get(d', Observation) == Get(d, Observation) && Get(d', Extra) == Get(d, Extra)
    ensures IsQuiet(d, d')
  {
    assert ResultsOf(d') == ResultsOf(d);
  }

  lemma {:induction false} NoPaths(d: Dict, n: nat)
    requires Get(d, Observation).Null?
    ensures PathsOf(d) == [] && PathsOf(d[StepId := Int(n)]) == []
  {
    NumberedFields(d, n, Observation);
    assert ResultsOf(d) == [] && ResultsOf(d[StepId := Int(n)]) == [];
  }

  lemma {:induction false} QuietStep(st: State, d: Dict)
    requires Get(d, Observation).Null?
    ensures AreQuiet(st.steps, AddStep(st, d).steps)
  {
    NoPaths(d, |st.steps| + 1);
    QuietAppend(st.steps, d[StepId := Int(|st.steps| + 1)]);
  }

  lemma {:induction false} PlainIsQuiet(st: State, source: string, time: string, message: string, extra: Dict)
    ensures AreQuiet(st.steps, AddStep(st, PlainStep(source, time, message, extra)).steps)
  {
    PlainFields(source, time, message, extra);
    PlainIsAbsent(PlainStep(source, time, message, extra), source, Observation);
    QuietStep(st, PlainStep(source, time, message, extra));
  }

  lemma {:induction false} AgentIsQuiet(st: State, s: Settings, a: AgentArgs)
    ensures AreQuiet(st.steps, AgentStep(st, s, a).steps)
  {
    AgentField(s, a, Observation);
    QuietStep(st, AgentDict(s, a));
  }

  /** Adding a result adds its paths. */
  lemma {:induction false} PathsAdded(d: Dict, v: Value)
    ensures PathsOf(AddResult(d, v)) == PathsOf(d) + PathsOfRefs(RefsOfResult(v))
    ensures DelegationCount(AddResult(d, v)) == DelegationCount(d)
  {
    ResultAdded(d, v);
    PathsOfLonger(ResultsOf(d), v);
    assert Get(AddResult(d, v), Extra) == Get(d, Extra);
  }

  lemma {:induction false} PathsOfLonger(most: seq<Value>, last: Value)
    ensures PathsOfResults(most + [last]) == PathsOfResults(most) + PathsOfRefs(RefsOfResult(last))
  {
    assert (most + [last])[..|most|] == most;
  }

  lemma {:induction false} ResultPaths(r: ResultArgs)
    ensures |RefsOfResult(MatchedResult(r))| == |r.refs| == |RefsOfResult(OrphanedResult(r))|
    ensures forall k :: 0 <= k < |r.refs| ==> RefsOfResult(MatchedResult(r))[k] == Obj(r.refs[k])
  {
    ResultFields(r);
  }

  lemma {:induction false} MatchedIsQuiet(steps: seq<Dict>, i: nat, r: ResultArgs)
    requires r.refs == [] && i < |steps|
    ensures AreQuiet(steps, steps[i := AddResult(steps[i], MatchedResult(r))])
  {
    ResultPaths(r);
    PathsAdded(steps[i], MatchedResult(r));
    QuietUpdate(steps, i, AddResult(steps[i], MatchedResult(r)));
  }

  lemma {:induction false} ResultIsQuiet(st: State, r: ResultArgs)
    requires r.refs == []
    ensures AreQuiet(st.steps, ToolResult(st, r).steps)
  {
    var target := TargetOf(st, r);
    if 1 <= target <= |st.steps| {
      ResultIsMatched(st, r, target);
      MatchedIsQuiet(st.steps, target - 1, r);
    } else {
      ResultIsOrphaned(st, r);
      OrphanIsQuiet(st, r);
    }
  }

  lemma {:induction false} OrphanIsQuiet(st: State, r: ResultArgs)
    requires r.refs == []
    ensures AreQuiet(st.steps, AddStep(st, AddResult(OrphanStep(r.time), OrphanedResult(r))).steps)
  {
    var d, v, n := OrphanStep(r.time), OrphanedResult(r), |st.steps| + 1;
    ResultPaths(r);
    OrphanShape(r.time);
    NoPaths(d, n);
    PathsAdded(d[StepId := Int(n)], v);
    NumberedResult(d, v, n);
    QuietAppend(st.steps, AddResult(d, v)[StepId := Int(n)]);
  }

  lemma {:induction false} ResultsAreQuiet(st: State, rs: seq<ResultArgs>)
    requires forall i :: 0 <= i < |rs| ==> rs[i].refs == []
    ensures AreQuiet(st.steps, ToolResults(st, rs).steps)
    decreases |rs|
  {
    if rs == [] {
      QuietSame(st.steps);
    } else {
      var most := rs[..|rs| - 1];
      ResultsAreQuiet(st, most);
      ResultIsQuiet(ToolResults(st, most), rs[|rs| - 1]);
      QuietTogether(st.steps, ToolResults(st, most).steps, ToolResults(st, rs).steps);
    }
  }

  lemma {:induction false} MetricsAreQuiet(d: Dict, m: Dict)
    ensures IsQuiet(d, PutMetrics(d, m))
  {
    QuietFields(d, PutMetrics(d, m));
  }

  lemma {:induction false} FiguresAreQuiet(steps: seq<Dict>, i: nat, m: Dict)
    requires i < |steps|
    ensures AreQuiet(steps, steps[i := PutMetrics(steps[i], m)])
  {
    MetricsAreQuiet(steps[i], m);
    QuietUpdate(steps, i, PutMetrics(steps[i], m));
  }

  lemma {:induction false} ReportIsQuiet(st: State, id: Option<nat>, m: Dict)
    ensures AreQuiet(st.steps, Report(st, id, m).steps)
  {
    var t := MetricsTarget(st, id);
    if m == map[] || t.None? {
      QuietSame(st.steps);
    } else {
      FiguresAreQuiet(st.steps, t.value - 1, m);
    }
  }

  lemma {:induction false} FlushIsQuiet(st: State)
    ensures AreQuiet(st.steps, FlushUsage(st).steps)
  {
    QuietSame(st.steps);
    ReportIsQuiet(st.(codexPending := map[]), st.codexStep, StepMetrics(Some(AsReport(st.codexPending)), None, map[]));
  }

  lemma {:induction false} CodexUsageIsQuiet(st: State, usage: Dict)
    ensures AreQuiet(st.steps, CodexUsage(st, usage).steps)
  {
    ObserveIsQuiet(st, UsageNumbers(usage));
  }

  lemma {:induction false} ObserveIsQuiet(st: State, current: Usage)
    ensures AreQuiet(st.steps, Observe(st, current).steps)
  {
    FlushIsQuiet(st.(codexTotal := current,
                 codexPending := AddUsage(st.codexPending, UsageDelta(current, st.codexTotal))));
  }

  lemma {:induction false} AddTurnIsQuiet(st: State, s: Settings, a: TurnArgs)
    ensures AreQuiet(st.steps, AddTurn(st, s, a).steps)
  {
    var st1 := AgentStep(st, s, TurnStep(a)).(codexStep := Some(|st.steps| + 1));
    AgentIsQuiet(st, s, TurnStep(a));
    FlushIsQuiet(st1);
    QuietTogether(st.steps, st1.steps, FlushUsage(st1).steps);
  }

  lemma {:induction false} CodexTurnIsQuiet(st: State, s: Settings, a: TurnArgs)
    ensures AreQuiet(st.steps, CodexTurn(st, s, a).steps)
  {
    var st1 := if a.usage.Some? then CodexUsage(st, a.usage.value) else st;
    QuietSame(st.steps);
    if a.usage.Some? {
      CodexUsageIsQuiet(st, a.usage.value);
    }
    AddTurnIsQuiet(st1, s, a);
    QuietTogether(st.steps, st1.steps, AddTurn(st1, s, a).steps);
  }

  lemma {:induction false} FinishIsQuiet(st: State, u: Dict)
    ensures AreQuiet(st.steps, Finish(st, u).steps)
  {
    var steps' := Renumbered(st.steps);
    forall i
      ensures IsQuietAt(st.steps, steps', i)
    {
      if 0 <= i < |st.steps| {
        NumberedFields(st.steps[i], i + 1, Observation);
        NumberedFields(st.steps[i], i + 1, Extra);
        QuietFields(st.steps[i], steps'[i]);
      }
    }
  }

  /** The caller gives no references of its own. */
  predicate GivesNoRefs(e: Event) {
    && (e.Returned? ==> e.result.refs == [])
    && (e.NoModelCall? ==> forall i :: 0 <= i < |e.results| ==> e.results[i].refs == [])
  }

  lemma {:induction false} StepEventIsQuiet(st: State, s: Settings, e: Event)
    requires GivesNoRefs(e) && !e.Delegated? && !ReportsUsage(e)
    ensures AreQuiet(st.steps, Apply(st, s, e).steps)
  {
    match e {
      case SystemMessage(time, message, extra) => PlainIsQuiet(st, SYSTEM, time, message, extra);
      case UserMessage(time, message, extra) => PlainIsQuiet(st, USER, time, message, extra);
      case AgentTurn(a) => AgentIsQuiet(st, s, a);
      case Returned(r) => ResultIsQuiet(st, r);
      case NoModelCall(a, rs) =>
        var st1 := AgentStep(st, s, a.(llmCalls := 0));
        AgentIsQuiet(st, s, a.(llmCalls := 0));
        ResultsAreQuiet(st1, rs);
        QuietTogether(st.steps, st1.steps, ToolResults(st1, rs).steps);
    }
  }

  lemma {:induction false} UsageEventIsQuiet(st: State, s: Settings, e: Event)
    requires ReportsUsage(e)
    ensures AreQuiet(st.steps, Apply(st, s, e).steps)
  {
    match e {
      case Used(usage, cost, extra) => ReportIsQuiet(st, st.lastAgentStep, StepMetrics(usage, cost, extra));
      case CodexTotals(totals) => CodexUsageIsQuiet(st, totals);
      case CodexTurned(a) => CodexTurnIsQuiet(st, s, a);
      case Finished(totals) => FinishIsQuiet(st, totals);
    }
  }

  // ----- a delegation -----------------------------------------------------------------------------

  /** A new last step refers to the path, once, and has counted no further delegation. */
  predicate AddsChild(steps: seq<Dict>, steps': seq<Dict>, q: string) {
    && |steps'| == |steps| + 1 && (forall j :: 0 <= j < |steps| ==> steps'[j] == steps[j])
    && PathsOf(steps'[|steps|]) == [Str(q)] && DelegationCount(steps'[|steps|]) == 1
  }

  function DelegationDict(s: Settings, a: SubagentArgs, n: nat): Dict {
    AddResult(AgentDict(s, DelegationCall(a))[StepId := Int(n)], MatchedResult(DelegationResult(s, a)))
  }

  lemma {:induction false} DelegationAppends(st: State, s: Settings, a: SubagentArgs)
    requires FirstReferring(st.steps, a.path) == |st.steps|
    ensures AddSubagent(st, s, a).steps == st.steps + [DelegationDict(s, a, |st.steps| + 1)]
  {
    var r, call := DelegationResult(s, a), DelegationCall(a);
    var st1 := AgentStep(st, s, call);
    DelegationIsPending(st, s, a);
    assert ToolResults(st1, [r]) == ToolResult(st1, r) by {
      assert [r][..0] == [];
    }
  }

  lemma {:induction false} AppendedChild(steps: seq<Dict>, d: Dict, q: string)
    requires PathsOf(d) == [Str(q)] && DelegationCount(d) == 1
    ensures AddsChild(steps, steps + [d], q)
  {
  }

  /** A first delegation appends a step that refers to the child once. */
  lemma {:induction false} FirstDelegation(st: State, s: Settings, a: SubagentArgs)
    requires FirstReferring(st.steps, a.path) == |st.steps|
    ensures AddsChild(st.steps, AddSubagent(st, s, a).steps, a.path)
  {
    var n := |st.steps| + 1;
    DelegationAppends(st, s, a);
    DelegationStep(s, a, n);
    PathsAdded(AgentDict(s, DelegationCall(a))[StepId := Int(n)], MatchedResult(DelegationResult(s, a)));
    DelegationPaths(s, a);
    AppendedChild(st.steps, DelegationDict(s, a, n), a.path);
  }

  lemma {:induction false} DelegationIsPending(st: State, s: Settings, a: SubagentArgs)
    ensures var st1, n := AgentStep(st, s, DelegationCall(a)), |st.steps| + 1;
            && st1.steps == st.steps + [AgentDict(s, DelegationCall(a))[StepId := Int(n)]]
            && a.callId in st1.pending && st1.pending[a.callId] == n
  {
    var calls := DelegationCall(a).calls;
    assert calls[0].Id() == a.callId && calls[0] in calls;
    assert a.callId in IdsOf(calls);
  }

  lemma {:induction false} DelegationStep(s: Settings, a: SubagentArgs, n: nat)
    ensures var d := AgentDict(s, DelegationCall(a))[StepId := Int(n)];
            PathsOf(d) == [] && DelegationCount(d) == 1
  {
    var call := DelegationCall(a);
    AgentField(s, call, Observation);
    AgentField(s, call, Extra);
    NoPaths(AgentDict(s, call), n);
    NumberedFields(AgentDict(s, call), n, Extra);
  }

  lemma {:induction false} DelegationPaths(s: Settings, a: SubagentArgs)
    ensures PathsOfRefs(RefsOfResult(MatchedResult(DelegationResult(s, a)))) == [Str(a.path)]
  {
    var r := DelegationResult(s, a);
    ResultPaths(r);
    assert Get(DelegationRef(s, a), TrajectoryPath) == Str(a.path);
  }

  lemma {:induction false} BumpCounts(d: Dict)
    ensures PathsOf(Bump(d)) == PathsOf(d) && DelegationCount(Bump(d)) == DelegationCount(d) + 1
  {
    assert ResultsOf(Bump(d)) == ResultsOf(d);
  }

  // ----- whole runs -----------------------------------------------------------------------------------

  function DelegationsTo(events: seq<Event>, p: string): nat {
    if events == [] then 0 else
      var e := events[|events| - 1];
      DelegationsTo(events[..|events| - 1], p) + if e.Delegated? && e.sub.path == p then 1 else 0
  }

  /** Step i, and no other, refers to the path, once, and counts n delegations. */
  predicate IsTheOnly(steps: seq<Dict>, p: string, i: int, n: int) {
    && 0 <= i < |steps| && PathsOf(steps[i]) == [Str(p)] && DelegationCount(steps[i]) == n
    && forall j :: 0 <= j < |steps| && j != i ==> Str(p) !in PathsOf(steps[j])
  }

  predicate RefersToNone(steps: seq<Dict>, p: string) {
    forall j :: 0 <= j < |steps| ==> Str(p) !in PathsOf(steps[j])
  }

  predicate ReferAtMostOnce(steps: seq<Dict>) {
    forall j :: 0 <= j < |steps| ==> |PathsOf(steps[j])| <= 1
  }

  ghost predicate IsCounted(steps: seq<Dict>, p: string, n: int) {
    if n == 0 then RefersToNone(steps, p) else exists i :: IsTheOnly(steps, p, i, n)
  }

  lemma {:induction false} QuietKeepsCount(steps: seq<Dict>, steps': seq<Dict>, p: string, n: int)
    requires AreQuiet(steps, steps') && ReferAtMostOnce(steps) && IsCounted(steps, p, n)
    ensures ReferAtMostOnce(steps') && IsCounted(steps', p, n)
  {
    forall j | 0 <= j < |steps'|
      ensures PathsOf(steps'[j]) == if j < |steps| then PathsOf(steps[j]) else []
      ensures j < |steps| ==> DelegationCount(steps'[j]) == DelegationCount(steps[j])
    {
      assert IsQuietAt(steps, steps', j);
    }
    if n != 0 {
      var i :| IsTheOnly(steps, p, i, n);
      assert IsTheOnly(steps', p, i, n);
    }
  }

  lemma {:induction false} OnlyStays(steps: seq<Dict>, steps': seq<Dict>, q: string, p: string, i: int, n: int)
    requires AddsChild(steps, steps', q) && IsTheOnly(steps, p, i, n) && p != q
    ensures IsTheOnly(steps', p, i, n)
  {
    forall j | 0 <= j < |steps'| && j != i
      ensures Str(p) !in PathsOf(steps'[j])
    {
      if j < |steps| {
        assert Str(p) !in PathsOf(steps[j]);
      }
    }
  }

  lemma {:induction false} NewIsTheOnly(steps: seq<Dict>, steps': seq<Dict>, q: string)
    requires AddsChild(steps, steps', q) && RefersToNone(steps, q)
    ensures IsTheOnly(steps', q, |steps|, 1)
  {
    forall j | 0 <= j < |steps'| && j != |steps|
      ensures Str(q) !in PathsOf(steps'[j])
    {
      assert steps'[j] == steps[j];
    }
  }

  lemma {:induction false} FirstIsCounted(steps: seq<Dict>, steps': seq<Dict>, q: string, p: string, n: int)
    requires ReferAtMostOnce(steps) && IsCounted(steps, p, n) && RefersToNone(steps, q) && n >= 0
    requires AddsChild(steps, steps', q)
    ensures ReferAtMostOnce(steps') && IsCounted(steps', p, if p == q then n + 1 else n)
  {
    if n != 0 {
      var i :| IsTheOnly(steps, p, i, n);
      assert steps[i] == steps'[i];
      OnlyStays(steps, steps', q, p, i, n);
    } else if p == q {
      NewIsTheOnly(steps, steps', q);
    }
  }

  lemma {:induction false} AgainIsCounted(steps: seq<Dict>, k: nat, q: string, p: string, n: int)
    requires ReferAtMostOnce(steps) && IsCounted(steps, p, n) && n >= 0
    requires k < |steps| && Str(q) in PathsOf(steps[k])
    ensures var steps' := steps[k := Bump(steps[k])];
            ReferAtMostOnce(steps') && IsCounted(steps', p, if p == q then n + 1 else n)
  {
    var steps' := steps[k := Bump(steps[k])];
    BumpCounts(steps[k]);
    if n != 0 {
      var i :| IsTheOnly(steps, p, i, n);
      assert p == q <==> i == k;
      assert IsTheOnly(steps', p, i, if p == q then n + 1 else n);
    }
  }

  lemma {:induction false} NoneRefers(steps: seq<Dict>, q: string)
    requires FirstReferring(steps, q) == |steps|
    ensures RefersToNone(steps, q)
  {
    forall j | 0 <= j < |steps|
      ensures Str(q) !in PathsOf(steps[j])
    {
      StepRefers(steps[j], q);
    }
  }

  lemma {:induction false} NewIsCounted(st: State, s: Settings, a: SubagentArgs, p: string, n: int)
    requires ReferAtMostOnce(st.steps) && IsCounted(st.steps, p, n) && n >= 0
    requires FirstReferring(st.steps, a.path) == |st.steps|
    ensures ReferAtMostOnce(AddSubagent(st, s, a).steps)
    ensures IsCounted(AddSubagent(st, s, a).steps, p, if p == a.path then n + 1 else n)
  {
    FirstDelegation(st, s, a);
    NoneRefers(st.steps, a.path);
    FirstIsCounted(st.steps, AddSubagent(st, s, a).steps, a.path, p, n);
  }

  lemma {:induction false} DelegationIsCounted(st: State, s: Settings, a: SubagentArgs, p: string, n: int)
    requires ReferAtMostOnce(st.steps) && IsCounted(st.steps, p, n) && n >= 0
    ensures ReferAtMostOnce(AddSubagent(st, s, a).steps)
    ensures IsCounted(AddSubagent(st, s, a).steps, p, if p == a.path then n + 1 else n)
  {
    var k := FirstReferring(st.steps, a.path);
    if k < |st.steps| {
      StepRefers(st.steps[k], a.path);
      AgainIsCounted(st.steps, k, a.path, p, n);
    } else {
      NewIsCounted(st, s, a, p, n);
    }
  }

  /** After one more event the path is counted as often as before, or once more. */
  ghost predicate CountsRightly(steps: seq<Dict>, e: Event, p: string, n: int) {
    ReferAtMostOnce(steps) && IsCounted(steps, p, if e.Delegated? && e.sub.path == p then n + 1 else n)
  }

  lemma {:induction false} EventIsCounted(st: State, s: Settings, e: Event, p: string, n: int)
    requires ReferAtMostOnce(st.steps) && IsCounted(st.steps, p, n) && n >= 0 && GivesNoRefs(e)
    ensures CountsRightly(Apply(st, s, e).steps, e, p, n)
  {
    if e.Delegated? {
      DelegationIsCounted(st, s, e.sub, p, n);
    } else if ReportsUsage(e) {
      UsageEventIsQuiet(st, s, e);
      QuietKeepsCount(st.steps, Apply(st, s, e).steps, p, n);
    } else {
      StepEventIsQuiet(st, s, e);
      QuietKeepsCount(st.steps, Apply(st, s, e).steps, p, n);
    }
  }

  ghost predicate Tracks(steps: seq<Dict>, events: seq<Event>) {
    forall p :: TracksAt(steps, events, p)
  }

  ghost predicate TracksAt(steps: seq<Dict>, events: seq<Event>, p: string) {
    ReferAtMostOnce(steps) && IsCounted(steps, p, DelegationsTo(events, p))
  }

  lemma {:induction false} TracksNext(steps: seq<Dict>, steps': seq<Dict>, events: seq<Event>, p: string)
    requires events != [] && Tracks(steps, events[..|events| - 1])
    requires CountsRightly(steps', events[|events| - 1], p, DelegationsTo(events[..|events| - 1], p))
    ensures TracksAt(steps', events, p)
  {
  }

  lemma {:induction false} EventTracksAt(st: State, s: Settings, events: seq<Event>, p: string)
    requires events != [] && GivesNoRefs(events[|events| - 1]) && Tracks(st.steps, events[..|events| - 1])
    ensures TracksAt(Apply(st, s, events[|events| - 1]).steps, events, p)
  {
    var most, e := events[..|events| - 1], events[|events| - 1];
    assert TracksAt(st.steps, most, p);
    EventIsCounted(st, s, e, p, DelegationsTo(most, p));
    TracksNext(st.steps, Apply(st, s, e).steps, events, p);
  }

  lemma {:induction false} EventTracks(st: State, s: Settings, events: seq<Event>)
    requires events != [] && GivesNoRefs(events[|events| - 1]) && Tracks(st.steps, events[..|events| - 1])
    ensures Tracks(Apply(st, s, events[|events| - 1]).steps, events)
  {
    var steps' := Apply(st, s, events[|events| - 1]).steps;
    forall p
      ensures TracksAt(steps', events, p)
    {
      EventTracksAt(st, s, events, p);
    }
  }

  lemma {:induction false} RunTracks(s: Settings, events: seq<Event>)
    requires forall i :: 0 <= i < |events| ==> GivesNoRefs(events[i])
    ensures Tracks(Run(s, events).steps, events)
    decreases |events|
  {
    if events == [] {
      forall p
        ensures TracksAt(FRESH.steps, [], p)
      {
      }
    } else {
      RunTracks(s, events[..|events| - 1]);
      EventTracks(Run(s, events[..|events| - 1]), s, events);
    }
  }

  /**
    * In a run whose references all come from add_subagent, a child document is referenced by exactly one
    * step, exactly once, if it was delegated to at all, and that step counts its delegations.
    */
  lemma {:induction false} DelegationsAreCounted(s: Settings, events: seq<Event>, p: string)
    requires forall i :: 0 <= i < |events| ==> GivesNoRefs(events[i])
    ensures ReferAtMostOnce(Run(s, events).steps)
    ensures IsCounted(Run(s, events).steps, p, DelegationsTo(events, p))
  {
    RunTracks(s, events);
    assert TracksAt(Run(s, events).steps, events, p);
  }
}
