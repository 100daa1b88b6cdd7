/**
  * Dropping references to purged evidence from the run document (code_auditor/db.py:786-878).
  */
module TrajectoryPrune {
  import opened Wrappers
  import opened Atif
  import opened RecorderState
  import opened RecorderInvariant
  import opened RecorderRuns
  import opened RecorderLoad
  import opened Delegations
  import opened Evidence

  // ----- which references go ---------------------------------------------------------------

  /** What has been purged: directories by prefix, and single files. */
  datatype Purged = Purged(prefixes: set<string>, files: set<string>)

  function ForwardSlashes(s: string): string {
    if s == "" then "" else [if s[0] == '\\' then '/' else s[0]] + ForwardSlashes(s[1..])
  }

  predicate IsPurgedPath(path: string, gone: Purged) {
    path in gone.files || exists p :: p in gone.prefixes && (path == p || p + "/" <= path)
  }

  predicate IsPurged(ref: Value, gone: Purged) {
    && ref.Obj? && Get(ref.fields, TrajectoryPath).Str? && Get(ref.fields, TrajectoryPath).s != ""
    && IsPurgedPath(ForwardSlashes(Get(ref.fields, TrajectoryPath).s), gone)
  }

  /** The references that stay, in order. */
  function Remaining(refs: seq<Value>, gone: Purged): (r: seq<Value>)
    ensures forall k :: 0 <= k < |r| ==> r[k] in refs && !IsPurged(r[k], gone)
  {
    if refs == [] then [] else
      var most, last := Remaining(refs[..|refs| - 1], gone), refs[|refs| - 1];
      if IsPurged(last, gone) then most else most + [last]
  }

  /** A result without its purged references; nothing if that was all there was to it. */
  function PrunedResult(v: Value, gone: Purged): Option<Value> {
    var refs, kept := RefsOfResult(v), Remaining(RefsOfResult(v), gone);
    if refs == [] then Some(v)
    else if kept != [] then Some(Obj(v.fields[SubagentRef := List(kept)]))
    else if IsTruthy(Get(v.fields, Content)) || IsTruthy(Get(v.fields, Extra)) then Some(Obj(v.fields - {SubagentRef}))
    else None
  }

  function PrunedResults(results: seq<Value>, gone: Purged): seq<Value> {
    if results == [] then [] else
      var most, last := PrunedResults(results[..|results| - 1], gone), PrunedResult(results[|results| - 1], gone);
      if last.Some? then most + [last.value] else most
  }

  function LabelOf(d: Dict): Value {
    if Get(d, Extra).Obj? then Get(d[Extra].fields, LabelKey) else Null
  }

  /** A step whose results are all gone is kept for its message, or if it is not a labelled delegation. */
  function PrunedStep(d: Dict, gone: Purged): Option<Dict> {
    var kept := PrunedResults(ResultsOf(d), gone);
    if ResultsOf(d) == [] then Some(d)
    else if kept != [] then Some(d[Observation := Obj(map[Results := List(kept)])])
    else if IsTruthy(Get(d, Message)) || !IsTruthy(LabelOf(d)) then Some(d - {Observation})
    else None
  }

  function PrunedSteps(steps: seq<Dict>, gone: Purged): seq<Dict> {
    if steps == [] then [] else
      var most, last := PrunedSteps(steps[..|steps| - 1], gone), PrunedStep(steps[|steps| - 1], gone);
      if last.Some? then most + [last.value] else most
  }

  /** The source reads a label from whatever the extra field holds; anything but an object fails. */
  predicate FailsOn(d: Dict, gone: Purged) {
    && ResultsOf(d) != [] && PrunedResults(ResultsOf(d), gone) == [] && !IsTruthy(Get(d, Message))
    && Extra in d && !d[Extra].Obj?
  }

  // ----- the loops -------------------------------------------------------------------------------

  method PruneRefs(refs: seq<Value>, gone: Purged) returns (kept: seq<Value>)
    ensures kept == Remaining(refs, gone)
  {
    kept := [];
    for k := 0 to |refs|
      invariant kept == Remaining(refs[..k], gone)
    {
      if !IsPurged(refs[k], gone) {
        kept := kept + [refs[k]];
      }
      assert refs[..k + 1][..k] == refs[..k];
    }
    assert refs[..|refs|] == refs;
  }

  /** How many of the references are purged. */
  function Lost(refs: seq<Value>, gone: Purged): nat {
    RemainingIsShorter(refs, gone);
    |refs| - |Remaining(refs, gone)|
  }

  method PruneResult(v: Value, gone: Purged) returns (kept: Option<Value>, removed: nat)
    ensures kept == PrunedResult(v, gone) && removed == Lost(RefsOfResult(v), gone)
  {
    var refs := RefsOfResult(v);
    if refs == [] {
      return Some(v), 0;
    }
    var keptRefs := PruneRefs(refs, gone);
    RemainingIsShorter(refs, gone);
    removed := |refs| - |keptRefs|;
    if keptRefs != [] {
      kept := Some(Obj(v.fields[SubagentRef := List(keptRefs)]));
    } else if IsTruthy(Get(v.fields, Content)) || IsTruthy(Get(v.fields, Extra)) {
      kept := Some(Obj(v.fields - {SubagentRef}));
    } else {
      kept := None;
    }
  }

  method PruneResults(results: seq<Value>, gone: Purged) returns (kept: seq<Value>, removed: nat)
    ensures kept == PrunedResults(results, gone) && removed == Lost(RefsOfResults(results), gone)
  {
    kept, removed := [], 0;
    for j := 0 to |results|
      invariant kept == PrunedResults(results[..j], gone)
      invariant removed == Lost(RefsOfResults(results[..j]), gone)
    {
      var result, fewer := PruneResult(results[j], gone);
      kept := if result.Some? then kept + [result.value] else kept;
      removed := removed + fewer;
      assert results[..j + 1][..j] == results[..j];
      LostOfBoth(RefsOfResults(results[..j]), RefsOfResult(results[j]), gone);
    }
    assert results[..|results|] == results;
  }

  method PruneStep(d: Dict, gone: Purged) returns (kept: Option<Dict>, removed: nat, failed: bool)
    ensures failed <==> FailsOn(d, gone)
    ensures !failed ==> kept == PrunedStep(d, gone) && removed == Lost(RefsOfResults(ResultsOf(d)), gone)
  {
    if ResultsOf(d) == [] {
      return Some(d), 0, false;
    }
    var results, fewer := PruneResults(ResultsOf(d), gone);
    removed := fewer;
    if results != [] {
      return Some(d[Observation := Obj(map[Results := List(results)])]), removed, false;
    }
    if IsTruthy(Get(d, Message)) {
      return Some(d - {Observation}), removed, false;
    }
    if Extra in d && !d[Extra].Obj? {
      return None, removed, true;
    }
    kept := if IsTruthy(LabelOf(d)) then None else Some(d - {Observation});
    failed := false;
  }

  datatype Outcome = Failed | Unchanged | Rewrote(steps: seq<Dict>, removed: nat)

  predicate FailsBefore(steps: seq<Dict>, n: nat, gone: Purged) {
    exists i :: 0 <= i < n && i < |steps| && FailsOn(steps[i], gone)
  }

  /** Prune every step. Nothing is rewritten when no reference goes. */
  method Prune(steps: seq<Dict>, gone: Purged) returns (r: Outcome)
    ensures r == Failed <==> FailsBefore(steps, |steps|, gone)
    ensures r == Unchanged ==> Remaining(RefsOfSteps(steps), gone) == RefsOfSteps(steps)
    ensures r.Rewrote? ==> r.steps == PrunedSteps(steps, gone) && r.removed == Lost(RefsOfSteps(steps), gone) > 0
  {
    var kept: seq<Dict>, removed := [], 0;
    for i := 0 to |steps|
      invariant kept == PrunedSteps(steps[..i], gone)
      invariant removed == Lost(RefsOfSteps(steps[..i]), gone)
      invariant !FailsBefore(steps, i, gone)
    {
      var step, fewer, failed := PruneStep(steps[i], gone);
      if failed {
        return Failed;
      }
      kept := if step.Some? then kept + [step.value] else kept;
      removed := removed + fewer;
      LostOfMore(steps, i, gone);
    }
    assert steps[..|steps|] == steps;
    if removed == 0 {
      AllRemain(RefsOfSteps(steps), gone);
      return Unchanged;
    }
    return Rewrote(kept, removed);
  }

  lemma {:induction false} LostOfBoth(a: seq<Value>, b: seq<Value>, gone: Purged)
    ensures Lost(a + b, gone) == Lost(a, gone) + Lost(b, gone)
  {
    RemainingOfBoth(a, b, gone);
  }

  lemma {:induction false} LostOfMore(steps: seq<Dict>, i: nat, gone: Purged)
    requires i < |steps|
    ensures Lost(RefsOfSteps(steps[..i + 1]), gone) ==
            Lost(RefsOfSteps(steps[..i]), gone) + Lost(RefsOfResults(ResultsOf(steps[i])), gone)
    ensures PrunedSteps(steps[..i + 1], gone) ==
            PrunedSteps(steps[..i], gone)
            + if PrunedStep(steps[i], gone).Some? then [PrunedStep(steps[i], gone).value] else []
  {
    assert steps[..i + 1][..i] == steps[..i];
    LostOfBoth(RefsOfSteps(steps[..i]), RefsOfResults(ResultsOf(steps[i])), gone);
  }

  // ----- what is left ----------------------------------------------------------------------------

  function RefsOfResults(results: seq<Value>): seq<Value> {
    if results == [] then [] else RefsOfResults(results[..|results| - 1]) + RefsOfResult(results[|results| - 1])
  }

  /** All references of a document, in order. */
  function RefsOfSteps(steps: seq<Dict>): seq<Value> {
    if steps == [] then [] else
      RefsOfSteps(steps[..|steps| - 1]) + RefsOfResults(ResultsOf(steps[|steps| - 1]))
  }

  lemma {:induction false} RemainingIsShorter(refs: seq<Value>, gone: Purged)
    ensures |Remaining(refs, gone)| <= |refs|
    decreases |refs|
  {
    if refs != [] {
      RemainingIsShorter(refs[..|refs| - 1], gone);
    }
  }

  lemma {:induction false} AllRemain(refs: seq<Value>, gone: Purged)
    requires |Remaining(refs, gone)| == |refs|
    ensures Remaining(refs, gone) == refs
    decreases |refs|
  {
    if refs != [] {
      RemainingIsShorter(refs[..|refs| - 1], gone);
      AllRemain(refs[..|refs| - 1], gone);
    }
  }

  lemma {:induction false} RemainingOfBoth(a: seq<Value>, b: seq<Value>, gone: Purged)
    ensures Remaining(a + b, gone) == Remaining(a, gone) + Remaining(b, gone)
    decreases |b|
  {
    if b == [] {
      assert a + b == a;
    } else {
      RemainingOfBoth(a, b[..|b| - 1], gone);
      assert (a + b)[..|a + b| - 1] == a + b[..|b| - 1];
    }
  }

  lemma {:induction false} RefsOfPruned(v: Value, gone: Purged)
    ensures var r := PrunedResult(v, gone);
            Remaining(RefsOfResult(v), gone) == if r.Some? then RefsOfResult(r.value) else []
  {
  }

  lemma {:induction false} RefsOfLonger(results: seq<Value>, v: Value)
    ensures RefsOfResults(results + [v]) == RefsOfResults(results) + RefsOfResult(v)
  {
    assert (results + [v])[..|results|] == results;
  }

  lemma {:induction false} RefsOfPrunedResults(results: seq<Value>, gone: Purged)
    ensures RefsOfResults(PrunedResults(results, gone)) == Remaining(RefsOfResults(results), gone)
    decreases |results|
  {
    if results != [] {
      var most, last := results[..|results| - 1], results[|results| - 1];
      RefsOfPrunedResults(most, gone);
      RefsOfPruned(last, gone);
      RemainingOfBoth(RefsOfResults(most), RefsOfResult(last), gone);
      var pruned := PrunedResult(last, gone);
      if pruned.Some? {
        RefsOfLonger(PrunedResults(most, gone), pruned.value);
      }
    }
  }

  lemma {:induction false} ResultsOfPrunedStep(d: Dict, gone: Purged)
    ensures var r := PrunedStep(d, gone);
            PrunedResults(ResultsOf(d), gone) == if r.Some? then ResultsOf(r.value) else []
  {
  }

  lemma {:induction false} RefsOfMore(steps: seq<Dict>, d: Dict)
    ensures RefsOfSteps(steps + [d]) == RefsOfSteps(steps) + RefsOfResults(ResultsOf(d))
  {
    assert (steps + [d])[..|steps|] == steps;
  }

  /** Exactly the purged references are gone; all others are still there, in the same order. */
  lemma {:induction false} OthersRemain(steps: seq<Dict>, gone: Purged)
    ensures RefsOfSteps(PrunedSteps(steps, gone)) == Remaining(RefsOfSteps(steps), gone)
    decreases |steps|
  {
    if steps != [] {
      var most, last := steps[..|steps| - 1], steps[|steps| - 1];
      OthersRemain(most, gone);
      ResultsOfPrunedStep(last, gone);
      RefsOfPrunedResults(ResultsOf(last), gone);
      RemainingOfBoth(RefsOfSteps(most), RefsOfResults(ResultsOf(last)), gone);
      var pruned := PrunedStep(last, gone);
      if pruned.Some? {
        RefsOfMore(PrunedSteps(most, gone), pruned.value);
      }
    }
  }

  /** What a path is with slashes for its backslashes. */
  function Slashed(path: string): string {
    seq(|path|, i requires 0 <= i < |path| => if path[i] == '\\' then '/' else path[i])
  }

  /** The path is a purged file, or a purged directory, or lies below one. */
  predicate LiesInPurged(path: string, gone: Purged) {
    || path in gone.files || path in gone.prefixes
    || exists n :: 0 <= n < |path| && path[n] == '/' && path[..n] in gone.prefixes
  }

  predicate RefersToPurged(ref: Value, gone: Purged) {
    && ref.Obj? && TrajectoryPath in ref.fields && ref.fields[TrajectoryPath].Str?
    && ref.fields[TrajectoryPath].s != "" && LiesInPurged(Slashed(ref.fields[TrajectoryPath].s), gone)
  }

  lemma {:induction false} SlashesAreForward(path: string)
    ensures ForwardSlashes(path) == Slashed(path)
  {
    if path != "" {
      SlashesAreForward(path[1..]);
      assert Slashed(path) == [Slashed(path)[0]] + Slashed(path[1..]);
    }
  }

  lemma {:induction false} PurgedPathLies(path: string, gone: Purged)
    ensures IsPurgedPath(path, gone) <==> LiesInPurged(path, gone)
  {
    if p :| p in gone.prefixes && p + "/" <= path {
      assert path[..|p|] == p && path[|p|] == (p + "/")[|p|];
    }
    if n :| 0 <= n < |path| && path[n] == '/' && path[..n] in gone.prefixes {
      assert path[..n] + "/" == path[..n + 1];
    }
  }

  lemma {:induction false} PurgedRefers(ref: Value, gone: Purged)
    ensures IsPurged(ref, gone) <==> RefersToPurged(ref, gone)
  {
    if ref.Obj? && Get(ref.fields, TrajectoryPath).Str? {
      SlashesAreForward(ref.fields[TrajectoryPath].s);
      PurgedPathLies(Slashed(ref.fields[TrajectoryPath].s), gone);
    }
  }

  lemma {:induction false} RemainingCounts(refs: seq<Value>, gone: Purged, ref: Value)
    ensures multiset(Remaining(refs, gone))[ref] == if RefersToPurged(ref, gone) then 0 else multiset(refs)[ref]
    decreases |refs|
  {
    PurgedRefers(ref, gone);
    if refs != [] {
      RemainingCounts(refs[..|refs| - 1], gone, ref);
      assert refs == refs[..|refs| - 1] + [refs[|refs| - 1]];
    }
  }

  /**
    * No reference that is left names a purged file or anything in a purged directory, however its path is
    * written; every other reference is left as often as it was there.
    */
  lemma {:induction false} NothingPurgedIsLeft(steps: seq<Dict>, gone: Purged, ref: Value)
    ensures multiset(RefsOfSteps(PrunedSteps(steps, gone)))[ref] ==
            if RefersToPurged(ref, gone) then 0 else multiset(RefsOfSteps(steps))[ref]
  {
    OthersRemain(steps, gone);
    RemainingCounts(RefsOfSteps(steps), gone, ref);
  }

  // ----- when nothing is left ------------------------------------------------------------------

  /** A result that is nothing but purged references. */
  predicate IsShellResult(v: Value, gone: Purged) {
    && RefsOfResult(v) != [] && AreAllPurged(RefsOfResult(v), gone)
    && !IsTruthy(Get(v.fields, Content)) && !IsTruthy(Get(v.fields, Extra))
  }

  predicate AreAllPurged(refs: seq<Value>, gone: Purged) {
    forall k :: 0 <= k < |refs| ==> IsPurged(refs[k], gone)
  }

  /** A labelled delegation without a message whose results are nothing but purged references. */
  predicate IsShell(d: Dict, gone: Purged) {
    ResultsOf(d) != [] && AreAllShells(ResultsOf(d), gone) && !IsTruthy(Get(d, Message)) && IsTruthy(LabelOf(d))
  }

  predicate AreAllShells(results: seq<Value>, gone: Purged) {
    forall j :: 0 <= j < |results| ==> IsShellAt(results, gone, j)
  }

  predicate IsShellAt(results: seq<Value>, gone: Purged, j: nat)
    requires j < |results|
  {
    IsShellResult(results[j], gone)
  }

  predicate OnlyShells(steps: seq<Dict>, gone: Purged) {
    forall i :: 0 <= i < |steps| ==> IsShell(steps[i], gone)
  }

  lemma {:induction false} OneMorePurged(refs: seq<Value>, gone: Purged)
    requires refs != []
    ensures AreAllPurged(refs, gone) <==>
            AreAllPurged(refs[..|refs| - 1], gone) && IsPurged(refs[|refs| - 1], gone)
  {
    var most := refs[..|refs| - 1];
    assert forall k :: 0 <= k < |most| ==> refs[k] == most[k];
  }

  lemma {:induction false} NoneRemain(refs: seq<Value>, gone: Purged)
    ensures Remaining(refs, gone) == [] <==> AreAllPurged(refs, gone)
    decreases |refs|
  {
    if refs != [] {
      NoneRemain(refs[..|refs| - 1], gone);
      OneMorePurged(refs, gone);
    }
  }

  lemma {:induction false} ResultGoes(v: Value, gone: Purged)
    ensures PrunedResult(v, gone).None? <==> IsShellResult(v, gone)
  {
    NoneRemain(RefsOfResult(v), gone);
  }

  lemma {:induction false} NoResultLeft(results: seq<Value>, gone: Purged)
    requires results != []
    ensures PrunedResults(results, gone) == [] <==>
            PrunedResults(results[..|results| - 1], gone) == [] && PrunedResult(results[|results| - 1], gone).None?
  {
  }

  lemma {:induction false} OneMoreShell(results: seq<Value>, gone: Purged)
    requires results != []
    ensures AreAllShells(results, gone) <==>
            AreAllShells(results[..|results| - 1], gone) && IsShellResult(results[|results| - 1], gone)
  {
    var most := results[..|results| - 1];
    assert forall j :: 0 <= j < |most| ==> (IsShellAt(results, gone, j) <==> IsShellAt(most, gone, j));
    assert IsShellAt(results, gone, |most|) <==> IsShellResult(results[|most|], gone);
  }

  lemma {:induction false} ResultsGo(results: seq<Value>, gone: Purged)
    ensures PrunedResults(results, gone) == [] <==> AreAllShells(results, gone)
    decreases |results|
  {
    if results != [] {
      NoResultLeft(results, gone);
      OneMoreShell(results, gone);
      ResultsGo(results[..|results| - 1], gone);
      ResultGoes(results[|results| - 1], gone);
    }
  }

  lemma {:induction false} StepGoes(d: Dict, gone: Purged)
    ensures PrunedStep(d, gone).None? <==> IsShell(d, gone)
  {
    ResultsGo(ResultsOf(d), gone);
  }

  lemma {:induction false} NoStepLeft(steps: seq<Dict>, gone: Purged)
    requires steps != []
    ensures PrunedSteps(steps, gone) == [] <==>
            PrunedSteps(steps[..|steps| - 1], gone) == [] && PrunedStep(steps[|steps| - 1], gone).None?
  {
  }

  lemma {:induction false} OneMoreShellStep(steps: seq<Dict>, gone: Purged)
    requires steps != []
    ensures OnlyShells(steps, gone) <==>
            OnlyShells(steps[..|steps| - 1], gone) && IsShell(steps[|steps| - 1], gone)
  {
    var most := steps[..|steps| - 1];
    assert forall j :: 0 <= j < |most| ==> steps[j] == most[j];
  }

  /** No step is left exactly when every step is a shell. */
  lemma {:induction false} StepsGo(steps: seq<Dict>, gone: Purged)
    ensures PrunedSteps(steps, gone) == [] <==> OnlyShells(steps, gone)
    decreases |steps|
  {
    if steps != [] {
      NoStepLeft(steps, gone);
      OneMoreShellStep(steps, gone);
      StepsGo(steps[..|steps| - 1], gone);
      StepGoes(steps[|steps| - 1], gone);
    }
  }

  // ----- no evidence goes with the references ---------------------------------------------------

  lemma {:induction false} ResultTextStays(v: Value, gone: Purged, item: Item)
    requires item.text != ""
    ensures var r := PrunedResult(v, gone); Matches(v, item) == if r.Some? then Matches(r.value, item) else 0
  {
  }

  lemma {:induction false} ResultTextsStay(results: seq<Value>, gone: Purged, item: Item)
    requires item.text != ""
    ensures InResults(PrunedResults(results, gone), item) == InResults(results, item)
    decreases |results|
  {
    if results != [] {
      var most, last := results[..|results| - 1], results[|results| - 1];
      ResultTextsStay(most, gone, item);
      ResultTextStays(last, gone, item);
      if PrunedResult(last, gone).Some? {
        LongerResults(PrunedResults(most, gone), PrunedResult(last, gone).value, item);
      }
    }
  }

  /** Only references and empty shells go: every text that a result holds is still held as often. */
  lemma {:induction false} TextsStay(steps: seq<Dict>, gone: Purged, item: Item)
    requires item.text != ""
    ensures InSteps(PrunedSteps(steps, gone), item) == InSteps(steps, item)
    decreases |steps|
  {
    if steps != [] {
      var most, last := steps[..|steps| - 1], steps[|steps| - 1];
      TextsStay(most, gone, item);
      ResultsOfPrunedStep(last, gone);
      ResultTextsStay(ResultsOf(last), gone, item);
      if PrunedStep(last, gone).Some? {
        CountAppended(PrunedSteps(most, gone), PrunedStep(last, gone).value, item);
      }
    }
  }

  // ----- the rewritten document ---------------------------------------------------------------------

  lemma {:induction false} RemainingAreClean(refs: seq<Value>, gone: Purged)
    requires AreCleanRefs(refs)
    ensures AreCleanRefs(Remaining(refs, gone))
  {
  }

  lemma {:induction false} PrunedResultConforms(v: Value, gone: Purged, callIds: set<string>)
    requires ConformsResult(v, callIds) && PrunedResult(v, gone).Some?
    ensures ConformsResult(PrunedResult(v, gone).value, callIds)
  {
    var refs := RefsOfResult(v);
    assert AreCleanRefs(refs);
    RemainingAreClean(refs, gone);
    assert SubagentRef in RESULT_FIELDS;
  }

  predicate ResultsConform(results: seq<Value>, callIds: set<string>) {
    forall i :: 0 <= i < |results| ==> ConformsResult(results[i], callIds)
  }

  lemma {:induction false} PrunedResultsConform(results: seq<Value>, gone: Purged, callIds: set<string>)
    requires ResultsConform(results, callIds)
    ensures ResultsConform(PrunedResults(results, gone), callIds)
    decreases |results|
  {
    if results != [] {
      var most, last := results[..|results| - 1], results[|results| - 1];
      PrunedResultsConform(most, gone, callIds);
      if PrunedResult(last, gone).Some? {
        PrunedResultConforms(last, gone, callIds);
      }
    }
  }

  lemma {:induction false} SameRules(d: Dict, d': Dict, n: nat)
    requires ConformsHeader(d, n) && ConformsRole(d) && DiffersOnlyIn(d, d', Observation)
    ensures ConformsHeader(d', n) && ConformsRole(d')
    ensures Get(d', Metrics) == Get(d, Metrics) && Get(d', ToolCalls) == Get(d, ToolCalls)
  {
    SameHeader(d, d', Observation, n);
    SameRole(d, d', Observation);
  }

  predicate IsPrunedObservation(v: Value, callIds: set<string>) {
    v.Null? || (v.Obj? && v.fields.Keys == {Results} && v.fields[Results].List?
                && ResultsConform(v.fields[Results].items, callIds))
  }

  lemma {:induction false} ObservationReplaced(d: Dict, d': Dict, n: nat)
    requires ConformsStep(d, n) && DiffersOnlyIn(d, d', Observation)
    requires IsPrunedObservation(Get(d', Observation), CallIds(CallsOf(d)))
    ensures ConformsStep(d', n)
  {
    SameRules(d, d', n);
    assert CallsOf(d') == CallsOf(d);
    assert ConformsObservation(d');
  }

  lemma {:induction false} PrunedObservation(d: Dict, gone: Purged)
    requires ResultsConform(ResultsOf(d), CallIds(CallsOf(d))) && ResultsOf(d) != [] && PrunedStep(d, gone).Some?
    ensures var d' := PrunedStep(d, gone).value;
            && DiffersOnlyIn(d, d', Observation)
            && IsPrunedObservation(Get(d', Observation), CallIds(CallsOf(d)))
  {
    var kept := PrunedResults(ResultsOf(d), gone);
    PrunedResultsConform(ResultsOf(d), gone, CallIds(CallsOf(d)));
    WithObservation(d, kept, CallIds(CallsOf(d)));
    WithoutObservation(d, CallIds(CallsOf(d)));
  }

  lemma {:induction false} WithObservation(d: Dict, kept: seq<Value>, callIds: set<string>)
    requires ResultsConform(kept, callIds)
    ensures var d' := d[Observation := Obj(map[Results := List(kept)])];
            DiffersOnlyIn(d, d', Observation) && IsPrunedObservation(Get(d', Observation), callIds)
  {
  }

  lemma {:induction false} WithoutObservation(d: Dict, callIds: set<string>)
    ensures DiffersOnlyIn(d, d - {Observation}, Observation)
    ensures IsPrunedObservation(Get(d - {Observation}, Observation), callIds)
  {
  }

  lemma {:induction false} PrunedStepConforms(d: Dict, gone: Purged, n: nat)
    requires ConformsStep(d, n) && PrunedStep(d, gone).Some?
    ensures ConformsStep(PrunedStep(d, gone).value, n)
  {
    if ResultsOf(d) != [] {
      ResultsOfConforming(d, n);
      PrunedObservation(d, gone);
      ObservationReplaced(d, PrunedStep(d, gone).value, n);
    }
  }

  lemma {:induction false} ResultsOfConforming(d: Dict, n: nat)
    requires ConformsStep(d, n)
    ensures ResultsConform(ResultsOf(d), CallIds(CallsOf(d)))
  {
  }

  ghost predicate ConformsSomewhere(d: Dict) {
    exists n: nat :: ConformsStep(d, n)
  }

  ghost predicate SomewhereAt(steps: seq<Dict>, i: int) {
    0 <= i < |steps| ==> ConformsSomewhere(steps[i])
  }

  lemma {:induction false} FirstSteps(steps: seq<Dict>)
    requires steps != [] && AllConform(steps)
    ensures AllConform(steps[..|steps| - 1])
  {
    var most := steps[..|steps| - 1];
    forall i
      ensures ConformsAt(most, i)
    {
      assert ConformsAt(steps, i);
    }
  }

  lemma {:induction false} OneMoreStep(steps: seq<Dict>, d: Dict)
    requires ConformsSomewhere(d) && forall i :: SomewhereAt(steps, i)
    ensures forall i :: SomewhereAt(steps + [d], i)
  {
    var more := steps + [d];
    forall i
      ensures SomewhereAt(more, i)
    {
      assert SomewhereAt(steps, i);
    }
  }

  lemma {:induction false} PrunedStepSomewhere(d: Dict, gone: Purged, n: nat)
    requires ConformsStep(d, n) && PrunedStep(d, gone).Some?
    ensures ConformsSomewhere(PrunedStep(d, gone).value)
  {
    PrunedStepConforms(d, gone, n);
  }

  /** Every kept step conforms, at the place it had. */
  lemma {:induction false} KeptStepsConform(steps: seq<Dict>, gone: Purged)
    requires AllConform(steps)
    ensures forall i :: SomewhereAt(PrunedSteps(steps, gone), i)
    decreases |steps|
  {
    if steps != [] {
      var most, last := steps[..|steps| - 1], steps[|steps| - 1];
      FirstSteps(steps);
      KeptStepsConform(most, gone);
      assert ConformsAt(steps, |most|);
      if PrunedStep(last, gone).Some? {
        PrunedStepSomewhere(last, gone, |steps|);
        OneMoreStep(PrunedSteps(most, gone), PrunedStep(last, gone).value);
      }
    }
  }

  /** It conforms under the number it is written with. */
  lemma {:induction false} RenumberedConforms(d: Dict, n: nat)
    requires ConformsSomewhere(d)
    ensures ConformsStep(StepOut(d, n), n)
  {
    var m: nat :| ConformsStep(d, m);
    ConformingIsSound(d, m);
    WrittenStep(d, n);
    Rewritten(d, m, StepOut(d, n), n);
    SoundAndClean(StepOut(d, n), n);
  }

  predicate ConformsInPlace(vs: seq<Value>, i: int) {
    0 <= i < |vs| ==> vs[i].Obj? && ConformsStep(vs[i].fields, i + 1)
  }

  lemma {:induction false} WrittenInPlace(steps: seq<Dict>, i: int)
    requires SomewhereAt(steps, i)
    ensures ConformsInPlace(StepsOut(steps), i)
  {
    if 0 <= i < |steps| {
      RenumberedConforms(steps[i], i + 1);
    }
  }

  lemma {:induction false} StepsInPlace(vs: seq<Value>)
    requires forall i :: ConformsInPlace(vs, i)
    ensures ConformsSteps(vs) <==> vs != []
  {
    forall i | 0 <= i < |vs|
      ensures vs[i].Obj? && ConformsStep(vs[i].fields, i + 1)
    {
      assert ConformsInPlace(vs, i);
    }
  }

  lemma {:induction false} WrittenStepsConform(steps: seq<Dict>)
    requires forall i :: SomewhereAt(steps, i)
    ensures ConformsSteps(StepsOut(steps)) <==> steps != []
  {
    var vs := StepsOut(steps);
    forall i
      ensures ConformsInPlace(vs, i)
    {
      assert SomewhereAt(steps, i);
      WrittenInPlace(steps, i);
    }
    StepsInPlace(vs);
  }

  /** The document that is written after pruning: the steps that are left, and their number. */
  function PrunedDocument(document: Dict, fallback: Defaults, kept: seq<Dict>): Value {
    var final := FieldsOf(Get(document, FinalMetrics))[TotalSteps := Int(|kept|)];
    ToDocument(State(kept, map[], None, Some(final), map[], map[], None), LoadedSettings(document, fallback))
  }

  lemma {:induction false} RefreshedTotals(document: Dict, n: nat)
    requires ConformsFinal(Get(document, FinalMetrics))
    ensures ConformsTotals(FieldsOf(Get(document, FinalMetrics))[TotalSteps := Int(n)])
  {
    assert TotalSteps in FINAL_FIELDS;
  }

  lemma {:induction false} WrittenConforms(st: State, s: Settings)
    requires s.agentName != "" && s.version != "" && HasGoodTotals(st)
    ensures Conforms(ToDocument(st, s)) <==> ConformsSteps(StepsOut(st.steps))
  {
    DocumentFields(st, s);
    DocumentOptions(st, s);
    RootConforms(ToDocument(st, s).fields, s);
    AgentConforms(s);
    FinalConforms(st);
  }

  /**
    * Pruning a conforming document leaves a conforming document exactly when some step is no shell.
    * Otherwise it is not published, and the old document keeps its dangling references.
    */
  lemma {:induction false} PrunedConforms(document: Dict, fallback: Defaults, gone: Purged)
    requires Conforms(Obj(document))
    ensures var steps := LoadedSteps(Get(document, Steps).items);
            Conforms(PrunedDocument(document, fallback, PrunedSteps(steps, gone))) <==>
            exists i :: 0 <= i < |steps| && !IsShell(steps[i], gone)
  {
    var steps := LoadedSteps(Get(document, Steps).items);
    var kept := PrunedSteps(steps, gone);
    LoadedStepsConform(Get(document, Steps).items);
    KeptStepsConform(steps, gone);
    WrittenStepsConform(kept);
    RefreshedTotals(document, |kept|);
    var final := FieldsOf(Get(document, FinalMetrics))[TotalSteps := Int(|kept|)];
    WrittenConforms(State(kept, map[], None, Some(final), map[], map[], None), LoadedSettings(document, fallback));
    StepsGo(steps, gone);
  }

  // ----- a document that loses its only step ----------------------------------------------------------

  lemma {:induction false} DelegationFields(s: Settings, a: SubagentArgs)
    requires a.summary == ""
    ensures var v := MatchedResult(DelegationResult(s, a));
            && !IsTruthy(Get(v.fields, Content)) && !IsTruthy(Get(v.fields, Extra))
            && RefsOfResult(v) == [Obj(DelegationRef(s, a))]
  {
    var r := DelegationResult(s, a);
    assert ResultExtra(r) == map[];
    ResultFields(r);
  }

  lemma {:induction false} DelegationLabel(a: SubagentArgs)
    requires a.title != ""
    ensures ObjOrNull(DelegationCall(a).extra) == Obj(map[LabelKey := Str(a.title)])
  {
    assert LabelKey in DelegationCall(a).extra;
  }

  lemma {:induction false} DelegationHeader(s: Settings, a: SubagentArgs, n: nat)
    requires a.title != ""
    ensures var d := AgentDict(s, DelegationCall(a))[StepId := Int(n)];
            && Get(d, Message) == Str("") && Get(d, Extra) == Obj(map[LabelKey := Str(a.title)])
            && Get(d, Observation).Null?
  {
    var call := DelegationCall(a);
    var d := AgentDict(s, call);
    DelegationLabel(a);
    AgentField(s, call, Observation);
    AgentField(s, call, Message);
    AgentField(s, call, Extra);
    NumberedFields(d, n, Observation);
    NumberedFields(d, n, Message);
    NumberedFields(d, n, Extra);
  }

  lemma {:induction false} WithOneResult(d: Dict, v: Value)
    requires Get(d, Observation).Null?
    ensures var d' := AddResult(d, v);
            ResultsOf(d') == [v] && Get(d', Message) == Get(d, Message) && LabelOf(d') == LabelOf(d)
  {
    ResultAdded(d, v);
    assert ResultsOf(d) == [];
    assert Get(AddResult(d, v), Extra) == Get(d, Extra);
  }

  lemma {:induction false} DelegationIsShell(s: Settings, a: SubagentArgs, gone: Purged)
    requires a.summary == "" && a.title != "" && IsPurged(Obj(DelegationRef(s, a)), gone)
    ensures IsShell(DelegationDict(s, a, 1), gone)
  {
    var v := MatchedResult(DelegationResult(s, a));
    DelegationFields(s, a);
    DelegationHeader(s, a, 1);
    WithOneResult(AgentDict(s, DelegationCall(a))[StepId := Int(1)], v);
    assert IsShellResult(v, gone);
  }

  /** Writing a step keeps what pruning looks at. */
  lemma {:induction false} ShellIsWritten(d: Dict, n: nat, gone: Purged)
    ensures IsShell(StepOut(d, n), gone) <==> IsShell(d, gone)
  {
    WrittenStep(d, n);
    assert Get(StepOut(d, n), Observation) == Get(d, Observation) && Get(StepOut(d, n), Extra) == Get(d, Extra);
    assert ResultsOf(StepOut(d, n)) == ResultsOf(d) && LabelOf(StepOut(d, n)) == LabelOf(d);
  }

  lemma {:induction false} PurgedByName(s: Settings, a: SubagentArgs)
    requires a.path != "" && ForwardSlashes(a.path) == a.path
    ensures IsPurged(Obj(DelegationRef(s, a)), Purged({}, {a.path}))
  {
    assert Get(DelegationRef(s, a), TrajectoryPath) == Str(a.path);
  }

  lemma {:induction false} NamedDelegation(start: State, s: Settings, a: SubagentArgs)
    requires IsValid(start) && AllClean(start.steps) && HasGoodTotals(start) && a.path != ""
    ensures var st := AddSubagent(start, s, a); IsValid(st) && AllClean(st.steps) && HasGoodTotals(st)
  {
    AddSubagentKeeps(start, s, a);
    TotalsStay(start, s, Delegated(a));
  }

  lemma {:induction false} OnlyDelegation(start: State, s: Settings, a: SubagentArgs)
    requires start.steps == []
    ensures AddSubagent(start, s, a).steps == [DelegationDict(s, a, 1)]
  {
    DelegationAppends(start, s, a);
  }

  lemma {:induction false} CleanDocument(st: State, s: Settings)
    requires IsValid(st) && AllClean(st.steps) && HasGoodTotals(st) && st.steps != []
    requires s.agentName != "" && s.version != ""
    ensures Conforms(ToDocument(st, s))
  {
    DocumentConforms(st, s);
  }

  lemma {:induction false} LoadedAgain(steps: seq<Dict>, i: nat)
    requires i < |steps|
    ensures |LoadedSteps(StepsOut(steps))| == |steps| && LoadedSteps(StepsOut(steps))[i] == StepOut(steps[i], i + 1)
  {
    AllLoaded(StepsOut(steps));
  }

  lemma {:induction false} AllLoadedAgain(steps: seq<Dict>)
    ensures |LoadedSteps(StepsOut(steps))| == |steps|
  {
    AllLoaded(StepsOut(steps));
  }

  lemma {:induction false} LoadedShells(steps: seq<Dict>, gone: Purged)
    requires OnlyShells(steps, gone)
    ensures OnlyShells(LoadedSteps(StepsOut(steps)), gone)
  {
    AllLoadedAgain(steps);
    forall i | 0 <= i < |steps|
      ensures IsShell(LoadedSteps(StepsOut(steps))[i], gone)
    {
      LoadedAgain(steps, i);
      ShellIsWritten(steps[i], i + 1, gone);
    }
  }

  /** A document of shells only is not published after pruning. */
  lemma {:induction false} ShellsAreRefused(st: State, s: Settings, fallback: Defaults, gone: Purged)
    requires Conforms(ToDocument(st, s)) && OnlyShells(st.steps, gone)
    ensures var document := ToDocument(st, s).fields;
            var kept := PrunedSteps(LoadedSteps(Get(document, Steps).items), gone);
            kept == [] && !Conforms(PrunedDocument(document, fallback, kept))
  {
    var document := ToDocument(st, s).fields;
    DocumentFields(st, s);
    LoadedShells(st.steps, gone);
    StepsGo(LoadedSteps(StepsOut(st.steps)), gone);
    PrunedConforms(document, fallback, gone);
  }

  lemma {:induction false} LoneShell(st: State, s: Settings, fallback: Defaults, d: Dict, gone: Purged)
    requires st.steps == [d] && IsShell(d, gone)
    requires IsValid(st) && AllClean(st.steps) && HasGoodTotals(st) && s.agentName != "" && s.version != ""
    ensures var document := ToDocument(st, s);
            && Conforms(document)
            && var kept := PrunedSteps(LoadedSteps(Get(document.fields, Steps).items), gone);
            kept == [] && !Conforms(PrunedDocument(document.fields, fallback, kept))
  {
    CleanDocument(st, s);
    ShellsAreRefused(st, s, fallback, gone);
  }

  /**
    * It happens: the document of one delegation without a summary conforms. When the child is purged it
    * loses its only step, and what would be written does not conform.
    */
  lemma {:induction false} AllStepsMayGo(s: Settings, fallback: Defaults, a: SubagentArgs)
    requires s.agentName != "" && s.version != ""
    requires a.summary == "" && a.path != "" && a.title != "" && ForwardSlashes(a.path) == a.path
    ensures var document := ToDocument(AddSubagent(FRESH, s, a), s);
            && Conforms(document)
            && var kept := PrunedSteps(LoadedSteps(Get(document.fields, Steps).items), Purged({}, {a.path}));
            kept == [] && !Conforms(PrunedDocument(document.fields, fallback, kept))
  {
    var gone := Purged({}, {a.path});
    FreshIsValid();
    NamedDelegation(FRESH, s, a);
    OnlyDelegation(FRESH, s, a);
    PurgedByName(s, a);
    DelegationIsShell(s, a, gone);
    LoneShell(AddSubagent(FRESH, s, a), s, fallback, DelegationDict(s, a, 1), gone);
  }
}
