/**
  * Finalising vulnerabilities (code_auditor/stages/stage4.py:185-365): ordering, deduplication, numbering,
  * and the directory of final files.
  */
module Stage4 {
  import opened Wrappers
  import opened FindingIds

  /** What matters of a vulnerability document. The dedupe key is None when it cannot be computed. */
  datatype Document = Document(id: string, key: Option<string>, body: string)

  datatype File = Unreadable | Readable(document: Document)

  /** Final files by stem. */
  type Directory = map<string, File>

  datatype Finding = Finding(document: Document, severity: Severity, score: real)

  // ----- counters -----------------------------------------------------------------------------

  datatype Counters = Counters(critical: nat, high: nat, medium: nat, low: nat)
  {
    function Of(s: Severity): nat {
      match s
      case Critical => critical
      case High => high
      case Medium => medium
      case Low => low
    }

    function Set(s: Severity, n: nat): (c: Counters)
      ensures c.Of(s) == n && forall t :: t != s ==> c.Of(t) == Of(t)
    {
      match s
      case Critical => this.(critical := n)
      case High => this.(high := n)
      case Medium => this.(medium := n)
      case Low => this.(low := n)
    }
  }

  const ZERO := Counters(0, 0, 0, 0)

  predicate Uses(dir: Directory, stem: string, s: Severity, n: int) {
    stem in dir && dir[stem].Readable? && NumberOf(dir[stem].document.id) == Some((s, n))
  }

  predicate IsBelow(c: Counters, dir: Directory, stem: string, done: set<string>) {
    stem in done && stem in dir && dir[stem].Readable? && NumberOf(dir[stem].document.id).Some? ==>
      NumberOf(dir[stem].document.id).value.1 <= c.Of(NumberOf(dir[stem].document.id).value.0)
  }

  ghost predicate IsUsed(c: Counters, dir: Directory, s: Severity) {
    c.Of(s) == 0 || exists stem :: Uses(dir, stem, s, c.Of(s))
  }

  /** Each counter is the highest number in use for its severity, or zero. */
  ghost predicate AreHighest(c: Counters, dir: Directory) {
    && (forall stem :: IsBelow(c, dir, stem, dir.Keys))
    && forall s: Severity :: IsUsed(c, dir, s)
  }

  function Raised(c: Counters, number: Option<(Severity, int)>): (r: Counters)
    ensures forall s :: c.Of(s) <= r.Of(s)
    ensures number.Some? ==> number.value.1 <= r.Of(number.value.0)
    ensures forall s :: r.Of(s) == c.Of(s) || number == Some((s, r.Of(s) as int))
  {
    if number.Some? && number.value.1 > c.Of(number.value.0) then c.Set(number.value.0, number.value.1) else c
  }

  method CountExisting(dir: Directory) returns (c: Counters)
    ensures AreHighest(c, dir)
  {
    c := ZERO;
    var todo := dir.Keys;
    while todo != {}
      invariant todo <= dir.Keys
      invariant forall stem :: IsBelow(c, dir, stem, dir.Keys - todo)
      invariant forall s: Severity :: IsUsed(c, dir, s)
      decreases |todo|
    {
      var stem :| stem in todo;
      var before := c;
      var number := if dir[stem].Readable? then NumberOf(dir[stem].document.id) else None;
      c := Raised(c, number);
      StillHighest(before, c, dir, dir.Keys - todo, stem, number);
      assert dir.Keys - (todo - {stem}) == dir.Keys - todo + {stem};
      todo := todo - {stem};
    }
    assert dir.Keys - {} == dir.Keys;
  }

  lemma {:induction false} StillHighest(
      before: Counters, c: Counters, dir: Directory, done: set<string>, stem: string, number: Option<(Severity, int)>)
    requires stem in dir && c == Raised(before, number)
    requires number == if dir[stem].Readable? then NumberOf(dir[stem].document.id) else None
    requires (forall x :: IsBelow(before, dir, x, done)) && forall s: Severity :: IsUsed(before, dir, s)
    ensures (forall x :: IsBelow(c, dir, x, done + {stem})) && forall s: Severity :: IsUsed(c, dir, s)
  {
    var more := done + {stem};
    forall x
      ensures IsBelow(c, dir, x, more)
    {
      assert IsBelow(before, dir, x, done);
    }
    forall s: Severity
      ensures IsUsed(c, dir, s)
    {
      assert IsUsed(before, dir, s);
      if c.Of(s) != before.Of(s) {
        assert Uses(dir, stem, s, c.Of(s));
      }
    }
  }

  // ----- ordering -----------------------------------------------------------------------------

  function Rank(s: Severity): nat {
    match s
    case Critical => 0
    case High => 1
    case Medium => 2
    case Low => 3
  }

  /** More severe first; within a severity, higher scores first. */
  predicate GoesBefore(a: Finding, b: Finding) {
    Rank(a.severity) < Rank(b.severity) || (a.severity == b.severity && a.score > b.score)
  }

  /** The order of the severities, and of scores within one. */
  lemma {:induction false} MoreSevereFirst(a: Finding, b: Finding)
    ensures a.severity == Critical && b.severity != Critical ==> GoesBefore(a, b)
    ensures a.severity == High && (b.severity == Medium || b.severity == Low) ==> GoesBefore(a, b)
    ensures a.severity == Medium && b.severity == Low ==> GoesBefore(a, b)
    ensures a.severity == b.severity ==> (GoesBefore(a, b) <==> a.score > b.score)
    ensures GoesBefore(a, b) ==> !GoesBefore(b, a)
  {
  }

  predicate IsSorted(fs: seq<Finding>) {
    forall i, j :: 0 <= i < j < |fs| ==> !GoesBefore(fs[j], fs[i])
  }

  /** Insert after everything that is at least as urgent: the sort is stable. */
  function Insert(fs: seq<Finding>, f: Finding): seq<Finding> {
    if fs == [] || !GoesBefore(f, fs[|fs| - 1]) then fs + [f] else Insert(fs[..|fs| - 1], f) + [fs[|fs| - 1]]
  }

  function Sorted(fs: seq<Finding>): seq<Finding> {
    if fs == [] then [] else Insert(Sorted(fs[..|fs| - 1]), fs[|fs| - 1])
  }

  lemma {:induction false} InsertHolds(fs: seq<Finding>, f: Finding)
    ensures forall x :: x in Insert(fs, f) <==> x in fs || x == f
    ensures |Insert(fs, f)| == |fs| + 1
    decreases |fs|
  {
    if fs != [] && GoesBefore(f, fs[|fs| - 1]) {
      InsertHolds(fs[..|fs| - 1], f);
      assert fs == fs[..|fs| - 1] + [fs[|fs| - 1]];
    }
  }

  lemma {:induction false} InsertSorts(fs: seq<Finding>, f: Finding)
    requires IsSorted(fs)
    ensures IsSorted(Insert(fs, f))
    decreases |fs|
  {
    if fs != [] {
      var most, last := fs[..|fs| - 1], fs[|fs| - 1];
      if GoesBefore(f, last) {
        InsertSorts(most, f);
        InsertHolds(most, f);
        var all := Insert(most, f) + [last];
        forall i, j | 0 <= i < j < |all|
          ensures !GoesBefore(all[j], all[i])
        {
          if j == |all| - 1 {
            assert all[i] in Insert(most, f);
          }
        }
      } else {
        NoneAfter(fs, f);
      }
    }
  }

  lemma {:induction false} NoneAfter(fs: seq<Finding>, f: Finding)
    requires IsSorted(fs) && fs != [] && !GoesBefore(f, fs[|fs| - 1])
    ensures forall i :: 0 <= i < |fs| ==> !GoesBefore(f, fs[i])
  {
    forall i | 0 <= i < |fs|
      ensures !GoesBefore(f, fs[i])
    {
      assert i < |fs| - 1 ==> !GoesBefore(fs[|fs| - 1], fs[i]);
    }
  }

  lemma {:induction false} SortedIsSorted(fs: seq<Finding>)
    ensures IsSorted(Sorted(fs)) && |Sorted(fs)| == |fs| && forall x :: x in Sorted(fs) <==> x in fs
    decreases |fs|
  {
    if fs != [] {
      var most, last := fs[..|fs| - 1], fs[|fs| - 1];
      SortedIsSorted(most);
      InsertSorts(Sorted(most), last);
      InsertHolds(Sorted(most), last);
      assert fs == most + [last];
    }
  }

  lemma {:induction false} InsertKeepsAll(fs: seq<Finding>, f: Finding)
    ensures multiset(Insert(fs, f)) == multiset(fs) + multiset{f}
    decreases |fs|
  {
    if fs != [] && GoesBefore(f, fs[|fs| - 1]) {
      InsertKeepsAll(fs[..|fs| - 1], f);
      assert fs == fs[..|fs| - 1] + [fs[|fs| - 1]];
    }
  }

  /** Sorting is a permutation. */
  lemma {:induction false} SortKeepsAll(fs: seq<Finding>)
    ensures multiset(Sorted(fs)) == multiset(fs)
    decreases |fs|
  {
    if fs != [] {
      SortKeepsAll(fs[..|fs| - 1]);
      InsertKeepsAll(Sorted(fs[..|fs| - 1]), fs[|fs| - 1]);
      assert fs == fs[..|fs| - 1] + [fs[|fs| - 1]];
    }
  }

  // ----- deduplication ------------------------------------------------------------------------

  function KeySet(key: Option<string>): set<string> {
    if key.Some? then {key.value} else {}
  }

  function KeysOf(fs: seq<Finding>): set<string> {
    if fs == [] then {} else KeysOf(fs[..|fs| - 1]) + KeySet(fs[|fs| - 1].document.key)
  }

  predicate IsRepeated(f: Finding, seen: set<string>) {
    f.document.key.Some? && f.document.key.value in seen
  }

  /** The findings that are kept, given the keys of the existing documents. */
  function Kept(fs: seq<Finding>, existing: set<string>): seq<Finding> {
    if fs == [] then [] else
      var most, last := Kept(fs[..|fs| - 1], existing), fs[|fs| - 1];
      if IsRepeated(last, existing + KeysOf(most)) then most else most + [last]
  }

  method Dedupe(fs: seq<Finding>, existing: set<string>) returns (kept: seq<Finding>)
    ensures kept == Kept(fs, existing)
  {
    var seen := existing;
    kept := [];
    for i := 0 to |fs|
      invariant kept == Kept(fs[..i], existing) && seen == existing + KeysOf(kept)
    {
      assert fs[..i + 1][..i] == fs[..i];
      if !IsRepeated(fs[i], seen) {
        seen := seen + KeySet(fs[i].document.key);
        kept := kept + [fs[i]];
        assert kept[..|kept| - 1] == Kept(fs[..i], existing);
      }
    }
    assert fs[..|fs|] == fs;
  }

  /** Kept findings have keys of their own, which no existing document has. */
  lemma {:induction false} KeptKeysAreNew(fs: seq<Finding>, existing: set<string>)
    ensures var kept := Kept(fs, existing);
            && KeysOf(kept) !! existing
            && forall i, j :: 0 <= i < j < |kept| && kept[i].document.key.Some? ==>
                                kept[i].document.key != kept[j].document.key
    decreases |fs|
  {
    if fs != [] {
      var most, last := Kept(fs[..|fs| - 1], existing), fs[|fs| - 1];
      KeptKeysAreNew(fs[..|fs| - 1], existing);
      if !IsRepeated(last, existing + KeysOf(most)) {
        assert (most + [last])[..|most|] == most;
        forall i | 0 <= i < |most| && most[i].document.key.Some?
          ensures most[i].document.key != last.document.key
        {
          KeyIsIn(most, i);
        }
      }
    }
  }

  lemma {:induction false} KeyIsIn(fs: seq<Finding>, i: nat)
    requires i < |fs| && fs[i].document.key.Some?
    ensures fs[i].document.key.value in KeysOf(fs)
    decreases |fs|
  {
    if i < |fs| - 1 {
      KeyIsIn(fs[..|fs| - 1], i);
    }
  }

  lemma {:induction false} KeyHasOwner(fs: seq<Finding>, key: string)
    requires key in KeysOf(fs)
    ensures exists i :: 0 <= i < |fs| && fs[i].document.key == Some(key)
    decreases |fs|
  {
    var n := |fs| - 1;
    if fs[n].document.key != Some(key) {
      KeyHasOwner(fs[..n], key);
      var i :| 0 <= i < n && fs[..n][i].document.key == Some(key);
      assert fs[i].document.key == Some(key);
    }
  }

  lemma {:induction false} KeptGrows(fs: seq<Finding>, existing: set<string>, i: nat)
    requires i <= |fs|
    ensures Kept(fs[..i], existing) <= Kept(fs, existing)
    decreases |fs|
  {
    if i < |fs| {
      KeptGrows(fs[..|fs| - 1], existing, i);
      assert fs[..|fs| - 1][..i] == fs[..i];
    } else {
      assert fs[..i] == fs;
    }
  }

  lemma {:induction false} KeptAreFindings(fs: seq<Finding>, existing: set<string>)
    ensures forall f :: f in Kept(fs, existing) ==> f in fs
    decreases |fs|
  {
    if fs != [] {
      KeptAreFindings(fs[..|fs| - 1], existing);
    }
  }

  predicate Represents(g: Finding, f: Finding) {
    g.document.key == f.document.key && !GoesBefore(f, g)
  }

  /**
    * Every finding is kept, or an existing document has its key, or a kept finding has its key and ranks at
    * least as high.
    */
  lemma {:induction false} DroppedAreRepresented(fs: seq<Finding>, existing: set<string>, i: nat)
    requires IsSorted(fs) && i < |fs|
    ensures fs[i] in Kept(fs, existing) || (fs[i].document.key.Some? && fs[i].document.key.value in existing)
            || exists g :: g in Kept(fs, existing) && Represents(g, fs[i])
  {
    var before, f := Kept(fs[..i], existing), fs[i];
    KeptGrows(fs, existing, i);
    KeptGrows(fs, existing, i + 1);
    assert fs[..i + 1][..i] == fs[..i];
    if !IsRepeated(f, existing + KeysOf(before)) {
      assert Kept(fs[..i + 1], existing) == before + [f];
      assert Kept(fs, existing)[|before|] == f;
    } else if f.document.key.value !in existing {
      KeyHasOwner(before, f.document.key.value);
      var k :| 0 <= k < |before| && before[k].document.key == f.document.key;
      var g := before[k];
      KeptAreFindings(fs[..i], existing);
      assert g in fs[..i];
      var m :| 0 <= m < i && fs[m] == g;
      assert Kept(fs, existing)[k] == g;
      assert g in Kept(fs, existing) && Represents(g, f);
    }
  }

  lemma {:induction false} KeptAreSorted(fs: seq<Finding>, existing: set<string>)
    requires IsSorted(fs)
    ensures IsSorted(Kept(fs, existing))
    decreases |fs|
  {
    if fs != [] {
      var n := |fs| - 1;
      var most := Kept(fs[..n], existing);
      KeptAreSorted(fs[..n], existing);
      KeptAreFindings(fs[..n], existing);
      forall i | 0 <= i < |most|
        ensures !GoesBefore(fs[n], most[i])
      {
        assert most[i] in fs[..n];
      }
    }
  }

  // ----- numbering ----------------------------------------------------------------------------

  function After(kept: seq<Finding>, c: Counters): Counters {
    if kept == [] then c else
      var before, s := After(kept[..|kept| - 1], c), kept[|kept| - 1].severity;
      before.Set(s, before.Of(s) + 1)
  }

  /** The number of the i-th kept finding. */
  function NumberFor(kept: seq<Finding>, c: Counters, i: nat): nat
    requires i < |kept|
  {
    After(kept[..i], c).Of(kept[i].severity) + 1
  }

  function IdFor(kept: seq<Finding>, c: Counters, i: nat): string
    requires i < |kept|
  {
    Id(kept[i].severity, NumberFor(kept, c, i))
  }

  /** Move a document to its final name, and write its id into it. */
  function Place(dir: Directory, f: Finding, n: nat): Directory {
    dir[Id(f.severity, n) := Readable(f.document.(id := Id(f.severity, n)))]
  }

  /** The directory after the kept findings have been moved in and given their ids. */
  function Written(dir: Directory, kept: seq<Finding>, c: Counters): Directory {
    if kept == [] then dir else
      var n := |kept| - 1;
      Place(Written(dir, kept[..n], c), kept[n], NumberFor(kept, c, n))
  }

  method AssignIds(dir: Directory, kept: seq<Finding>, highest: Counters) returns (final: Directory)
    ensures final == Written(dir, kept, highest)
  {
    var counters := highest;
    final := dir;
    for i := 0 to |kept|
      invariant counters == After(kept[..i], highest) && final == Written(dir, kept[..i], highest)
    {
      var f := kept[i];
      var next := counters.Of(f.severity) + 1;
      counters := counters.Set(f.severity, next);
      final := Place(final, f, next);
      assert kept[..i + 1][..i] == kept[..i];
    }
    assert kept[..|kept|] == kept;
  }

  function CountOf(kept: seq<Finding>, s: Severity): nat {
    if kept == [] then 0 else CountOf(kept[..|kept| - 1], s) + if kept[|kept| - 1].severity == s then 1 else 0
  }

  lemma {:induction false} CountersCount(kept: seq<Finding>, c: Counters, s: Severity)
    ensures After(kept, c).Of(s) == c.Of(s) + CountOf(kept, s)
    decreases |kept|
  {
    if kept != [] {
      CountersCount(kept[..|kept| - 1], c, s);
    }
  }

  lemma {:induction false} CountGrows(kept: seq<Finding>, i: nat, s: Severity)
    requires i <= |kept|
    ensures CountOf(kept[..i], s) <= CountOf(kept, s)
    ensures i < |kept| && kept[i].severity == s ==> CountOf(kept[..i], s) < CountOf(kept, s)
    decreases |kept|
  {
    if i < |kept| {
      CountGrows(kept[..|kept| - 1], i, s);
      assert kept[..|kept| - 1][..i] == kept[..i];
    } else {
      assert kept[..i] == kept;
    }
  }

  /** New numbers follow the highest in use, without gaps or repeats, in order. */
  lemma {:induction false} NumbersFollow(kept: seq<Finding>, c: Counters, i: nat)
    requires i < |kept|
    ensures c.Of(kept[i].severity) < NumberFor(kept, c, i) <= c.Of(kept[i].severity) + CountOf(kept, kept[i].severity)
    ensures forall j :: 0 <= j < i && kept[j].severity == kept[i].severity ==>
                          NumberFor(kept, c, j) < NumberFor(kept, c, i)
  {
    var s := kept[i].severity;
    CountersCount(kept[..i], c, s);
    CountGrows(kept, i, s);
    forall j | 0 <= j < i && kept[j].severity == s
      ensures NumberFor(kept, c, j) < NumberFor(kept, c, i)
    {
      CountersCount(kept[..j], c, s);
      CountGrows(kept[..i], j, s);
      assert kept[..i][..j] == kept[..j];
    }
  }

  /** Within a severity, a higher score never gets a larger number. */
  lemma {:induction false} HigherScoresFirst(fs: seq<Finding>, existing: set<string>, c: Counters, i: nat, j: nat)
    requires var kept := Kept(Sorted(fs), existing);
             i < |kept| && j < |kept| && kept[i].severity == kept[j].severity && kept[i].score > kept[j].score
    ensures var kept := Kept(Sorted(fs), existing);
            NumberFor(kept, c, i) < NumberFor(kept, c, j)
  {
    var kept := Kept(Sorted(fs), existing);
    SortedIsSorted(fs);
    KeptAreSorted(Sorted(fs), existing);
    assert GoesBefore(kept[i], kept[j]);
    NumbersFollow(kept, c, j);
  }

  lemma {:induction false} IdsDiffer(kept: seq<Finding>, c: Counters, i: nat, j: nat)
    requires i < j < |kept|
    ensures IdFor(kept, c, i) != IdFor(kept, c, j)
  {
    IdRoundTrip(kept[i].severity, NumberFor(kept, c, i));
    IdRoundTrip(kept[j].severity, NumberFor(kept, c, j));
    NumbersFollow(kept, c, j);
  }

  predicate IsPlaced(final: Directory, f: Finding, id: string) {
    id in final && final[id] == Readable(f.document.(id := id))
  }

  lemma {:induction false} PlaceKeeps(dir: Directory, f: Finding, id: string, g: Finding, n: nat)
    requires IsPlaced(dir, f, id) && Id(g.severity, n) != id
    ensures IsPlaced(Place(dir, g, n), f, id)
  {
  }

  lemma {:induction false} SameIdFor(kept: seq<Finding>, c: Counters, i: nat, n: nat)
    requires i < n <= |kept|
    ensures IdFor(kept[..n], c, i) == IdFor(kept, c, i) && kept[..n][i] == kept[i]
  {
    assert kept[..n][..i] == kept[..i];
  }

  lemma {:induction false} LastWritten(dir: Directory, kept: seq<Finding>, c: Counters)
    requires kept != []
    ensures var n := |kept| - 1;
            && Written(dir, kept, c) == Place(Written(dir, kept[..n], c), kept[n], NumberFor(kept, c, n))
            && IsPlaced(Written(dir, kept, c), kept[n], IdFor(kept, c, n))
  {
  }

  /** Every kept finding is in the directory under its own id. */
  lemma {:induction false} AllPlaced(dir: Directory, kept: seq<Finding>, c: Counters, i: nat)
    requires i < |kept|
    ensures IsPlaced(Written(dir, kept, c), kept[i], IdFor(kept, c, i))
    decreases |kept|
  {
    var n := |kept| - 1;
    LastWritten(dir, kept, c);
    if i < n {
      AllPlaced(dir, kept[..n], c, i);
      SameIdFor(kept, c, i, n);
      IdsDiffer(kept, c, i, n);
      PlaceKeeps(Written(dir, kept[..n], c), kept[i], IdFor(kept, c, i), kept[n], NumberFor(kept, c, n));
    }
  }

  // ----- the directory ------------------------------------------------------------------------

  predicate IsConsistentAt(dir: Directory, stem: string) {
    stem in dir ==> IsFinalStem(stem) && dir[stem].Readable? && dir[stem].document.id == stem
  }

  /** Every final file can be read and carries its own name as its id. */
  ghost predicate IsConsistent(dir: Directory) {
    forall stem :: IsConsistentAt(dir, stem)
  }

  lemma {:induction false} NewIdIsNew(dir: Directory, c: Counters, s: Severity, n: nat)
    requires IsConsistent(dir) && AreHighest(c, dir) && n > c.Of(s)
    ensures Id(s, n) !in dir
  {
    var id := Id(s, n);
    IdRoundTrip(s, n);
    assert IsConsistentAt(dir, id) && IsBelow(c, dir, id, dir.Keys);
  }

  /** What is in the directory afterwards: the new documents under their ids, and otherwise what was there. */
  predicate IsWrittenAt(dir: Directory, kept: seq<Finding>, c: Counters, final: Directory, stem: string) {
    if stem in NewIds(kept, c) then
      stem in final && final[stem].Readable? && final[stem].document.id == stem
    else (stem in final <==> stem in dir) && (stem in dir ==> final[stem] == dir[stem])
  }

  function NewIds(kept: seq<Finding>, c: Counters): set<string> {
    if kept == [] then {} else NewIds(kept[..|kept| - 1], c) + {IdFor(kept, c, |kept| - 1)}
  }

  lemma {:induction false} WrittenAt(dir: Directory, kept: seq<Finding>, c: Counters, stem: string)
    ensures IsWrittenAt(dir, kept, c, Written(dir, kept, c), stem)
    decreases |kept|
  {
    if kept != [] {
      WrittenAt(dir, kept[..|kept| - 1], c, stem);
    }
  }

  lemma {:induction false} SameId(s: Severity, n: nat, t: Severity, m: nat)
    ensures Id(s, n) == Id(t, m) <==> s == t && n == m
  {
    IdRoundTrip(s, n);
    IdRoundTrip(t, m);
  }

  predicate Follows(c: Counters, kept: seq<Finding>, s: Severity, n: nat) {
    c.Of(s) < n <= c.Of(s) + CountOf(kept, s)
  }

  lemma {:induction false} OneMoreFollows(kept: seq<Finding>, c: Counters, s: Severity, n: nat)
    requires kept != []
    ensures var last := |kept| - 1;
            Follows(c, kept, s, n) <==>
            Follows(c, kept[..last], s, n) || (s == kept[last].severity && n == NumberFor(kept, c, last))
  {
    var last := |kept| - 1;
    CountersCount(kept[..last], c, kept[last].severity);
  }

  /** The new ids are exactly the ones that follow the counters. */
  lemma {:induction false} NewIdsFollow(kept: seq<Finding>, c: Counters, s: Severity, n: nat)
    ensures Id(s, n) in NewIds(kept, c) <==> Follows(c, kept, s, n)
    decreases |kept|
  {
    if kept != [] {
      var last := |kept| - 1;
      NewIdsFollow(kept[..last], c, s, n);
      OneMoreFollows(kept, c, s, n);
      SameId(s, n, kept[last].severity, NumberFor(kept, c, last));
    }
  }

  lemma {:induction false} NewIdHasOwner(kept: seq<Finding>, c: Counters, stem: string)
    requires stem in NewIds(kept, c)
    ensures exists i :: 0 <= i < |kept| && IdFor(kept, c, i) == stem
    decreases |kept|
  {
    var n := |kept| - 1;
    if stem != IdFor(kept, c, n) {
      NewIdHasOwner(kept[..n], c, stem);
      var i :| 0 <= i < n && IdFor(kept[..n], c, i) == stem;
      assert kept[..n][..i] == kept[..i];
      assert IdFor(kept, c, i) == stem;
    }
  }

  predicate IsReplacedBy(final: Directory, kept: seq<Finding>, c: Counters, i: int, stem: string) {
    0 <= i < |kept| && IdFor(kept, c, i) == stem && IsPlaced(final, kept[i], stem)
  }

  ghost predicate IsReplaced(final: Directory, kept: seq<Finding>, c: Counters, stem: string) {
    exists i :: IsReplacedBy(final, kept, c, i, stem)
  }

  /**
    * An existing file stays as it was unless its name is one of the next ids; then a kept finding is in
    * its place. So a file whose number was not counted, because it cannot be read or carries another id,
    * is lost exactly when its number comes up.
    */
  lemma {:induction false} Overwritten(dir: Directory, kept: seq<Finding>, c: Counters, s: Severity, n: nat)
    requires Id(s, n) in dir
    ensures Follows(c, kept, s, n) ==> IsReplaced(Written(dir, kept, c), kept, c, Id(s, n))
    ensures !Follows(c, kept, s, n) ==>
              Id(s, n) in Written(dir, kept, c) && Written(dir, kept, c)[Id(s, n)] == dir[Id(s, n)]
  {
    NewIdsFollow(kept, c, s, n);
    WrittenAt(dir, kept, c, Id(s, n));
    if Follows(c, kept, s, n) {
      NewIdHasOwner(kept, c, Id(s, n));
      var i :| 0 <= i < |kept| && IdFor(kept, c, i) == Id(s, n);
      AllPlaced(dir, kept, c, i);
      assert IsReplacedBy(Written(dir, kept, c), kept, c, i, Id(s, n));
    }
  }

  /** C-01 cannot be read, so no number is in use; the first critical finding takes its name. */
  lemma {:induction false} UnreadableIsOverwritten(f: Finding)
    requires f.severity == Critical
    ensures var dir: Directory := map["C-01" := Unreadable];
            AreHighest(ZERO, dir) && IsPlaced(Written(dir, [f], ZERO), f, "C-01")
  {
    var dir: Directory := map["C-01" := Unreadable];
    assert Id(Critical, 1) == "C-01";
    forall stem
      ensures IsBelow(ZERO, dir, stem, dir.Keys)
    {
    }
    forall s: Severity
      ensures IsUsed(ZERO, dir, s)
    {
    }
    AllPlaced(dir, [f], ZERO, 0);
    assert IdFor([f], ZERO, 0) == "C-01" by {
      assert [f][..0] == [];
    }
  }

  lemma {:induction false} NewIdsAreNew(dir: Directory, kept: seq<Finding>, c: Counters, stem: string)
    requires IsConsistent(dir) && AreHighest(c, dir) && stem in NewIds(kept, c)
    ensures stem !in dir && IsFinalStem(stem)
    decreases |kept|
  {
    var n := |kept| - 1;
    if stem == IdFor(kept, c, n) {
      NumbersFollow(kept, c, n);
      IdRoundTrip(kept[n].severity, NumberFor(kept, c, n));
      NewIdIsNew(dir, c, kept[n].severity, NumberFor(kept, c, n));
    } else {
      NewIdsAreNew(dir, kept[..n], c, stem);
    }
  }

  /** In a consistent directory nothing is overwritten, and it stays consistent. */
  lemma {:induction false} StaysConsistent(dir: Directory, kept: seq<Finding>, c: Counters)
    requires IsConsistent(dir) && AreHighest(c, dir)
    ensures IsConsistent(Written(dir, kept, c)) && NewIds(kept, c) !! dir.Keys
    ensures forall stem :: stem in dir ==> stem in Written(dir, kept, c) && Written(dir, kept, c)[stem] == dir[stem]
  {
    var final := Written(dir, kept, c);
    forall stem
      ensures IsConsistentAt(final, stem)
      ensures stem in NewIds(kept, c) ==> stem !in dir
      ensures stem in dir ==> stem in final && final[stem] == dir[stem]
    {
      WrittenAt(dir, kept, c, stem);
      assert IsConsistentAt(dir, stem);
      if stem in NewIds(kept, c) {
        NewIdsAreNew(dir, kept, c, stem);
      }
    }
  }

  // ----- all of it ----------------------------------------------------------------------------

  /** A pending document: whether it validates, and the severity its score gives, if any. */
  datatype Pending = Pending(document: Document, isValid: bool, severity: Option<Severity>, score: real)

  function Rated(pending: seq<Pending>): seq<Finding> {
    if pending == [] then [] else
      var most, p := Rated(pending[..|pending| - 1]), pending[|pending| - 1];
      if p.isValid && p.severity.Some? then most + [Finding(p.document, p.severity.value, p.score)] else most
  }

  function ExistingKeys(dir: Directory): set<string> {
    set stem | stem in dir && dir[stem].Readable? && dir[stem].document.key.Some? :: dir[stem].document.key.value
  }

  // What becomes of a pending document, told from what was given and what there is afterwards.

  /** It is valid and its score gives a severity. */
  predicate IsRated(p: Pending) {
    p.isValid && p.severity.Some?
  }

  /** It is a final file, under an id of its severity. */
  ghost predicate IsFinalised(final: Directory, p: Pending) {
    IsRated(p) && exists n: nat :: IsFinalisedAs(final, p, n)
  }

  predicate IsFinalisedAs(final: Directory, p: Pending, n: nat)
    requires p.severity.Some?
  {
    var id := Id(p.severity.value, n);
    id in final && final[id] == Readable(p.document.(id := id))
  }

  predicate HasKey(file: File, key: string) {
    file.Readable? && file.document.key == Some(key)
  }

  /** More severe, or as severe with a score that is no lower. */
  predicate IsNoLess(p: Pending, q: Pending)
    requires p.severity.Some? && q.severity.Some?
  {
    !GoesBefore(FindingOf(q), FindingOf(p))
  }

  function FindingOf(p: Pending): Finding
    requires p.severity.Some?
  {
    Finding(p.document, p.severity.value, p.score)
  }

  /** It is final, or there was a document with its key, or one that is no less has its key and is final. */
  ghost predicate IsAccountedFor(dir: Directory, pending: seq<Pending>, final: Directory, p: Pending)
    requires IsRated(p)
  {
    || IsFinalised(final, p)
    || (p.document.key.Some?
        && (|| (exists stem :: stem in dir && HasKey(dir[stem], p.document.key.value))
            || (exists q :: q in pending && IsRated(q) && q.document.key == p.document.key
                            && IsNoLess(q, p) && IsFinalised(final, q))))
  }

  /** A file is as before, or it is a pending document under a name of its severity. */
  ghost predicate IsOldOrFinalised(dir: Directory, pending: seq<Pending>, final: Directory, stem: string) {
    || ((stem in final <==> stem in dir) && (stem in dir ==> final[stem] == dir[stem]))
    || exists p :: p in pending && IsFinalisedUnder(final, p, stem)
  }

  ghost predicate IsFinalisedUnder(final: Directory, p: Pending, stem: string) {
    IsRated(p) && exists n: nat :: stem == Id(p.severity.value, n) && IsFinalisedAs(final, p, n)
  }

  predicate Gives(p: Pending, f: Finding) {
    IsRated(p) && FindingOf(p) == f
  }

  lemma {:induction false} RatedHolds(pending: seq<Pending>, f: Finding)
    ensures f in Rated(pending) <==> exists p :: p in pending && Gives(p, f)
    decreases |pending|
  {
    if pending != [] {
      var most, last := pending[..|pending| - 1], pending[|pending| - 1];
      RatedHolds(most, f);
      assert pending == most + [last];
      assert f in Rated(pending) <==> f in Rated(most) || Gives(last, f);
      if p :| p in pending && Gives(p, f) {
        assert p in most || p == last;
      }
    }
  }

  lemma {:induction false} PlacedIsFinalised(dir: Directory, kept: seq<Finding>, c: Counters, p: Pending)
    requires IsRated(p) && FindingOf(p) in kept
    ensures IsFinalised(Written(dir, kept, c), p)
  {
    var i :| 0 <= i < |kept| && kept[i] == FindingOf(p);
    AllPlaced(dir, kept, c, i);
    assert IsFinalisedAs(Written(dir, kept, c), p, NumberFor(kept, c, i));
  }

  lemma {:induction false} RepresentedIsFinalised(dir: Directory, pending: seq<Pending>, kept: seq<Finding>,
      c: Counters, p: Pending, g: Finding) returns (q: Pending)
    requires IsRated(p) && g in kept && Represents(g, FindingOf(p)) && g in Rated(pending)
    ensures q in pending && IsRated(q) && q.document.key == p.document.key && IsNoLess(q, p)
    ensures IsFinalised(Written(dir, kept, c), q)
  {
    RatedHolds(pending, g);
    q :| q in pending && Gives(q, g);
    PlacedIsFinalised(dir, kept, c, q);
  }

  lemma {:induction false} RatedIsAccountedFor(
      dir: Directory, pending: seq<Pending>, c: Counters, final: Directory, p: Pending)
    requires final == Written(dir, Kept(Sorted(Rated(pending)), ExistingKeys(dir)), c) && p in pending && IsRated(p)
    ensures IsAccountedFor(dir, pending, final, p)
  {
    var fs, f, existing := Sorted(Rated(pending)), FindingOf(p), ExistingKeys(dir);
    var kept := Kept(fs, existing);
    assert Gives(p, f);
    RatedHolds(pending, f);
    SortedIsSorted(Rated(pending));
    var i :| 0 <= i < |fs| && fs[i] == f;
    if f.document.key.None? {
      KeylessAreKept(fs, existing, i);
    }
    KeptAreFindings(fs, existing);
    DroppedAreRepresented(fs, existing, i);
    if f in kept {
      PlacedIsFinalised(dir, kept, c, p);
    } else if g :| g in kept && Represents(g, f) {
      var q := RepresentedIsFinalised(dir, pending, kept, c, p, g);
    }
  }

  lemma {:induction false} KeylessAreKept(fs: seq<Finding>, existing: set<string>, i: nat)
    requires i < |fs| && fs[i].document.key.None?
    ensures fs[i] in Kept(fs, existing)
    decreases |fs|
  {
    if i < |fs| - 1 {
      KeylessAreKept(fs[..|fs| - 1], existing, i);
    }
  }

  lemma {:induction false} ChangesArePending(
      dir: Directory, pending: seq<Pending>, c: Counters, final: Directory, stem: string)
    requires final == Written(dir, Kept(Sorted(Rated(pending)), ExistingKeys(dir)), c)
    ensures IsOldOrFinalised(dir, pending, final, stem)
  {
    var fs, existing := Sorted(Rated(pending)), ExistingKeys(dir);
    var kept := Kept(fs, existing);
    WrittenAt(dir, kept, c, stem);
    if stem in NewIds(kept, c) {
      NewIdHasOwner(kept, c, stem);
      var i :| 0 <= i < |kept| && IdFor(kept, c, i) == stem;
      AllPlaced(dir, kept, c, i);
      KeptAreFindings(fs, existing);
      SortedIsSorted(Rated(pending));
      assert kept[i] in kept;
      RatedHolds(pending, kept[i]);
      var p :| p in pending && Gives(p, kept[i]);
      assert IsFinalisedAs(final, p, NumberFor(kept, c, i));
      assert IsFinalisedUnder(final, p, stem);
    }
  }

  /**
    * The whole step: every valid document with a severity is finalised or stands behind one with its key
    * that is no less, and no other document is.
    */
  method AssignIdsAndFinalize(dir: Directory, pending: seq<Pending>) returns (final: Directory, highest: Counters)
    ensures AreHighest(highest, dir)
    ensures forall p :: p in pending && IsRated(p) ==> IsAccountedFor(dir, pending, final, p)
    ensures forall stem :: IsOldOrFinalised(dir, pending, final, stem)
    ensures final == Written(dir, Kept(Sorted(Rated(pending)), ExistingKeys(dir)), highest)
    ensures IsConsistent(dir) ==> IsConsistent(final)
    ensures IsConsistent(dir) ==> forall stem :: stem in dir ==> stem in final && final[stem] == dir[stem]
  {
    highest := CountExisting(dir);
    var findings := [];
    for i := 0 to |pending|
      invariant findings == Rated(pending[..i])
    {
      var p := pending[i];
      assert pending[..i + 1][..i] == pending[..i];
      if p.isValid && p.severity.Some? {
        findings := findings + [Finding(p.document, p.severity.value, p.score)];
      }
    }
    assert pending[..|pending|] == pending;
    var kept := Dedupe(Sorted(findings), ExistingKeys(dir));
    final := AssignIds(dir, kept, highest);
    forall p | p in pending && IsRated(p)
      ensures IsAccountedFor(dir, pending, final, p)
    {
      RatedIsAccountedFor(dir, pending, highest, final, p);
    }
    forall stem
      ensures IsOldOrFinalised(dir, pending, final, stem)
    {
      ChangesArePending(dir, pending, highest, final, stem);
    }
    if IsConsistent(dir) {
      StaysConsistent(dir, kept, highest);
    }
  }
}
