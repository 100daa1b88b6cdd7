/**
  * The checkpoint manager of a resumable run (code_auditor/checkpoint.py) and what a whole run of
  * marks and clears leaves complete.
  */
module Checkpoint {
  import opened Wrappers
  import opened MarkerCodec

  /** The files the manager looks at: marker names, pending Stage 4 files, and the Stage 1 record. */
  datatype Files = Files(markers: set<string>, pending: set<string>, stage1Record: bool)

  predicate StartsWith(s: string, prefix: string) {
    prefix <= s
  }

  predicate NeedsMarker(key: string) {
    || key == "stage2"
    || StartsWith(key, "stage3:")
    || StartsWith(key, "stage4:")
    || StartsWith(key, "stage5:")
    || StartsWith(key, "stage6:")
  }

  /** A key whose completion is recorded by a marker. */
  predicate IsTracked(key: string) {
    NeedsMarker(key) && EncodeTaskKey(key).Some?
  }

  /** The part of a Stage 4 key that names its finding file. */
  function FindingName(key: string): string
    requires StartsWith(key, "stage4:")
  {
    key[7..]
  }

  predicate IsSafeFinding(name: string) {
    IsSafeComponent(name) && name !in {".", ".."}
  }

  predicate Has(markers: set<string>, name: Option<string>) {
    name.Some? && name.value in markers
  }

  /** A Stage 4 finding whose output file is pending counts as complete without any marker. */
  predicate HasPendingFile(pending: set<string>, key: string) {
    && StartsWith(key, "stage4:")
    && EncodeTaskKey(key).Some?
    && IsSafeFinding(FindingName(key))
    && FindingName(key) in pending
  }

  /** A legacy marker is consulted only when the key resolves to some path. */
  predicate ConsultsLegacy(key: string) {
    IsTracked(key) && (StartsWith(key, "stage4:") ==> IsSafeFinding(FindingName(key)))
  }

  predicate IsDoneBy(markers: set<string>, marker: Option<string>, legacy: Option<string>, consults: bool,
      pending: bool)
  {
    Has(markers, marker) || pending || (consults && Has(markers, legacy))
  }

  predicate IsDone(files: Files, key: string) {
    if key == "stage1" then files.stage1Record else
      && IsTracked(key)
      && IsDoneBy(files.markers, EncodeTaskKey(key), LegacyMarkerName(key), ConsultsLegacy(key),
                  HasPendingFile(files.pending, key))
  }

  // ----- whole runs -----------------------------------------------------------

  datatype Op = Mark(key: string) | Clear(key: string)

  function Elements(name: Option<string>): set<string> {
    if name.Some? then {name.value} else {}
  }

  /** The file names that belong to a key: its marker and its legacy marker. */
  function NamesOf(key: string): set<string> {
    Elements(EncodeTaskKey(key)) + Elements(LegacyMarkerName(key))
  }

  function Apply(files: Files, op: Op): Files {
    if !IsTracked(op.key) then files
    else if op.Mark? then files.(markers := files.markers + {EncodeTaskKey(op.key).value})
    else files.(markers := files.markers - NamesOf(op.key))
  }

  function ApplyAll(files: Files, ops: seq<Op>): Files {
    if ops == [] then files else Apply(ApplyAll(files, ops[..|ops| - 1]), ops[|ops| - 1])
  }

  function LastOp(ops: seq<Op>, key: string): Option<Op> {
    if ops == [] then None
    else if ops[|ops| - 1].key == key then Some(ops[|ops| - 1])
    else LastOp(ops[..|ops| - 1], key)
  }

  lemma {:induction false} EncodedApart(k1: string, k2: string)
    requires IsTracked(k1) && IsTracked(k2) && k1 != k2
    ensures Elements(EncodeTaskKey(k1)) !! Elements(EncodeTaskKey(k2))
  {
    if EncodeTaskKey(k1) == EncodeTaskKey(k2) {
      EncodingIsInjective(k1, k2);
    }
  }

  lemma {:induction false} LegacyApart(k1: string, k2: string)
    requires IsTracked(k1) && IsTracked(k2) && k1 != k2
    ensures Elements(LegacyMarkerName(k1)) !! Elements(LegacyMarkerName(k2))
  {
    if LegacyMarkerName(k1).Some? && LegacyMarkerName(k1) == LegacyMarkerName(k2) {
      LegacyIsInjective(k1, k2);
    }
  }

  lemma {:induction false} SchemesApart(k1: string, k2: string)
    requires IsTracked(k1) && IsTracked(k2)
    ensures Elements(LegacyMarkerName(k1)) !! Elements(EncodeTaskKey(k2))
  {
    if LegacyMarkerName(k1).Some? {
      SchemesAreDisjoint(k1, k2);
    }
  }

  /** Two different tracked keys share no file name, in either scheme. */
  lemma {:induction false} NamesAreSeparate(k1: string, k2: string)
    requires IsTracked(k1) && IsTracked(k2) && k1 != k2
    ensures NamesOf(k1) !! NamesOf(k2)
  {
    EncodedApart(k1, k2);
    LegacyApart(k1, k2);
    SchemesApart(k1, k2);
    SchemesApart(k2, k1);
  }

  /** An operation touches only names of its own key. */
  lemma {:induction false} MarkersTouched(files: Files, op: Op)
    ensures forall n :: n !in NamesOf(op.key) ==> (n in Apply(files, op).markers <==> n in files.markers)
  {
  }

  lemma {:induction false} DoneByOwnNames(m1: set<string>, m2: set<string>, marker: Option<string>,
      legacy: Option<string>, consults: bool,
                       pending: bool)
    requires forall n :: n in Elements(marker) + Elements(legacy) ==> (n in m1 <==> n in m2)
    ensures IsDoneBy(m1, marker, legacy, consults, pending) <==> IsDoneBy(m2, marker, legacy, consults, pending)
  {
  }

  /** One operation on another key leaves the completion of this key as it was. */
  lemma {:induction false} OtherKeyUnaffected(files: Files, op: Op, key: string)
    requires op.key != key && IsTracked(key)
    ensures IsDone(Apply(files, op), key) <==> IsDone(files, key)
  {
    if IsTracked(op.key) {
      var after := Apply(files, op);
      NamesAreSeparate(op.key, key);
      MarkersTouched(files, op);
      DoneByOwnNames(files.markers, after.markers, EncodeTaskKey(key), LegacyMarkerName(key), ConsultsLegacy(key),
                     HasPendingFile(files.pending, key));
    }
  }

  /** What an operation on the key itself does to its completion. */
  lemma {:induction false} OwnOperation(files: Files, op: Op)
    requires IsTracked(op.key)
    ensures IsDone(Apply(files, op), op.key) <==> op.Mark? || HasPendingFile(files.pending, op.key)
  {
  }

  lemma {:induction false} UntrackedUnaffected(files: Files, op: Op, key: string)
    requires !IsTracked(key)
    ensures IsDone(Apply(files, op), key) <==> IsDone(files, key)
  {
  }

  /**
    * From any files, legacy markers and pending files included, and after any marks and clears:
    * a tracked key is complete exactly when its last operation was a mark, or was a clear while its
    * finding file is pending, or there was none and it was complete to begin with. Any other key
    * is as it was at the start.
    */
  lemma {:induction false} CompletionAfterRun(files: Files, ops: seq<Op>, key: string)
    ensures ApplyAll(files, ops).pending == files.pending
    ensures ApplyAll(files, ops).stage1Record == files.stage1Record
    ensures IsDone(ApplyAll(files, ops), key) <==>
            if !IsTracked(key) then IsDone(files, key) else
              match LastOp(ops, key)
              case None => IsDone(files, key)
              case Some(Mark(_)) => true
              case Some(Clear(_)) => HasPendingFile(files.pending, key)
    decreases |ops|
  {
    if ops != [] {
      var before, op := ops[..|ops| - 1], ops[|ops| - 1];
      CompletionAfterRun(files, before, key);
      if !IsTracked(key) {
        UntrackedUnaffected(ApplyAll(files, before), op, key);
      } else if op.key != key {
        OtherKeyUnaffected(ApplyAll(files, before), op, key);
      } else {
        OwnOperation(ApplyAll(files, before), op);
      }
    }
  }

  /** With nothing on disk at the start, complete means: tracked, and marked last. */
  lemma {:induction false} FreshRunCompletion(ops: seq<Op>, key: string)
    ensures IsDone(ApplyAll(Files({}, {}, false), ops), key) <==>
            IsTracked(key) && LastOp(ops, key) == Some(Mark(key))
  {
    CompletionAfterRun(Files({}, {}, false), ops, key);
    LastOpIsOnKey(ops, key);
  }

  lemma {:induction false} LastOpIsOnKey(ops: seq<Op>, key: string)
    ensures LastOp(ops, key).Some? ==> LastOp(ops, key).value.key == key
    decreases |ops|
  {
    if ops != [] {
      LastOpIsOnKey(ops[..|ops| - 1], key);
    }
  }

  // ----- which keys there are ---------------------------------------------------------------

  const STAGES := {"stage3", "stage4", "stage5", "stage6"}

  lemma {:induction false} StagesAreStages(stage: string)
    requires stage in STAGES
    ensures IsStage(stage) && |stage| == 6
  {
  }

  lemma {:induction false} NeedsMarkerAt(stage: string, suffix: string)
    requires stage in STAGES
    ensures var key := stage + ":" + suffix;
            NeedsMarker(key) && (StartsWith(key, "stage4:") <==> stage == "stage4") && key != "stage1"
            && key[7..] == suffix
  {
    var key := stage + ":" + suffix;
    assert key[..7] == stage + ":";
    assert forall p: string :: |p| == 7 && StartsWith(key, p) ==> p == key[..7];
    assert (stage + ":")[..6] == stage;
  }

  lemma {:induction false} KeySplits(key: string)
    requires NeedsMarker(key) && key != "stage2"
    ensures key[..6] in STAGES && key == key[..6] + ":" + key[7..]
  {
    var prefix := if StartsWith(key, "stage3:") then "stage3:" else if StartsWith(key, "stage4:") then "stage4:"
                  else if StartsWith(key, "stage5:") then "stage5:" else "stage6:";
    assert StartsWith(key, prefix) && prefix[..6] in STAGES && prefix == prefix[..6] + ":" by {
      assert "stage3:"[..6] == "stage3" && "stage4:"[..6] == "stage4";
      assert "stage5:"[..6] == "stage5" && "stage6:"[..6] == "stage6";
    }
    assert key[..7] == prefix && key[..6] == prefix[..6];
    assert key == key[..7] + key[7..];
  }

  /**
    * Completion is tracked for Stage 2 as a whole, and for every key of the Stages 3 to 6 whose suffix takes
    * at most 192 characters when it is quoted; for nothing else.
    */
  lemma {:induction false} TrackedExactly(key: string)
    ensures IsTracked(key) <==>
            || key == "stage2"
            || exists stage, suffix :: stage in STAGES && key == stage + ":" + suffix && QuotedLength(suffix) <= 192
  {
    if key == "stage2" {
      assert IndexOf(key, ':') == |key| && key[..|key|] == key && IsStage(key);
    } else if NeedsMarker(key) {
      var stage, suffix := key[..6], key[7..];
      KeySplits(key);
      StagesAreStages(stage);
      EncodedExactly(stage, suffix);
      forall other, rest | other in STAGES && key == other + ":" + rest
        ensures rest == suffix
      {
        StagesAreStages(other);
        assert (other + ":" + rest)[7..] == rest;
      }
    } else {
      forall other, rest | other in STAGES && key == other + ":" + rest
        ensures false
      {
        NeedsMarkerAt(other, rest);
      }
    }
  }

  predicate IsPlainName(name: string) {
    && name !in {"", ".", ".."}
    && forall i :: 0 <= i < |name| ==> QuotedCharLength(name[i]) == 1 && name[i] != '~'
  }

  /**
    * What counts as complete on disk: the marker, the marker of the older scheme, or for Stage 4 a pending
    * file; the latter two of Stage 4 only for names that are plain.
    */
  lemma {:induction false} DoneExactly(files: Files, stage: string, suffix: string)
    requires stage in STAGES
    ensures IsDone(files, stage + ":" + suffix) <==>
            && QuotedLength(suffix) <= 192
            && (|| stage + "--" + Quote(suffix) in files.markers
                || (stage == "stage4" && IsPlainName(suffix) && suffix in files.pending)
                || ((stage == "stage4" ==> IsPlainName(suffix)) && IsLegacySuffix(suffix)
                    && stage + "-" + suffix in files.markers))
  {
    StagesAreStages(stage);
    NeedsMarkerAt(stage, suffix);
    EncodedExactly(stage, suffix);
    LegacyExactly(stage, suffix);
    PlainIsSafe(suffix);
  }

  /** The first two stages have one key each: a record, and a marker of that name. */
  lemma {:induction false} WholeStagesDone(files: Files)
    ensures IsDone(files, "stage1") <==> files.stage1Record
    ensures IsDone(files, "stage2") <==> "stage2" in files.markers
  {
    var key := "stage2";
    assert IndexOf(key, ':') == |key| && key[..|key|] == key && IsStage(key);
    CountAbsent(key, ':');
  }

  lemma {:induction false} PlainIsSafe(name: string)
    ensures IsPlainName(name) <==> IsSafeFinding(name)
  {
    assert forall c :: IsSafeChar(c) <==> QuotedCharLength(c) == 1 && c != '~';
    assert forall i :: 0 <= i < |name| ==> name[i] in name;
  }

  // ----- the manager ------------------------------------------------------------

  class CheckpointManager {
    const resume: bool
    var markers: set<string>
    var pending: set<string>
    var stage1Record: bool

    constructor (resume: bool, files: Files)
      ensures this.resume == resume && State() == files
    {
      this.resume := resume;
      markers := files.markers;
      pending := files.pending;
      stage1Record := files.stage1Record;
    }

    function State(): Files
      reads this
    {
      Files(markers, pending, stage1Record)
    }

    method IsComplete(key: string) returns (complete: bool)
      ensures complete <==> resume && IsDone(State(), key)
    {
      if !resume {
        return false;
      }
      var resolved := Resolve(key);
      if !resolved.known {
        return false;
      }
      if resolved.exists_ {
        return true;
      }
      var legacy := LegacyMarkerName(key);
      CountAbsent("stage1", ':');
      return legacy.Some? && legacy.value in markers;
    }

    /** The path a key resolves to: whether there is one, and whether it exists. */
    method Resolve(key: string) returns (r: Resolved)
      ensures r.known <==> key == "stage1" ||
                           (IsTracked(key) && (Has(markers, EncodeTaskKey(key)) || ConsultsLegacy(key)))
      ensures r.exists_ <==> r.known && if key == "stage1" then stage1Record else
                             Has(markers, EncodeTaskKey(key)) || HasPendingFile(pending, key)
    {
      if key == "stage1" {
        return Resolved(true, stage1Record);
      }
      if key == "stage2" || StartsWith(key, "stage3:") || StartsWith(key, "stage5:") || StartsWith(key, "stage6:") {
        var marker := EncodeTaskKey(key);
        return Resolved(marker.Some?, marker.Some? && marker.value in markers);
      }
      if StartsWith(key, "stage4:") {
        var marker := EncodeTaskKey(key);
        if marker.None? {
          return Resolved(false, false);
        }
        if marker.value in markers {
          return Resolved(true, true);
        }
        var filename := FindingName(key);
        if !IsSafeComponent(filename) || filename in {".", ".."} {
          return Resolved(false, false);
        }
        return Resolved(true, filename in pending);
      }
      return Resolved(false, false);
    }

    method MarkComplete(key: string)
      modifies this
      ensures State() == Apply(old(State()), Mark(key))
    {
      if !NeedsMarker(key) {
        return;
      }
      var marker := EncodeTaskKey(key);
      if marker.None? {
        return;
      }
      markers := markers + {marker.value};
    }

    method Clear(key: string)
      modifies this
      ensures State() == Apply(old(State()), Op.Clear(key))
    {
      if !NeedsMarker(key) {
        return;
      }
      var marker := EncodeTaskKey(key);
      if marker.None? {
        return;
      }
      Unlink(marker);
      Unlink(LegacyMarkerName(key));
      RemovedTogether(old(markers), marker, LegacyMarkerName(key));
    }

    /** Path.unlink(missing_ok=True), for a name that may be absent. */
    method Unlink(name: Option<string>)
      modifies this`markers
      ensures markers == old(markers) - Elements(name)
    {
      if name.Some? {
        markers := markers - {name.value};
      }
    }
  }

  lemma {:induction false} RemovedTogether(m: set<string>, a: Option<string>, b: Option<string>)
    ensures m - Elements(a) - Elements(b) == m - (Elements(a) + Elements(b))
  {
  }

  datatype Resolved = Resolved(known: bool, exists_: bool)
}
