/**
  * Replacing a persistent artifact directory by exactly the retained files (code_auditor/retention.py),
  * when any single copy, rename or delete may fail.
  */
module Retention {
  import opened Wrappers
  import opened FileSystem
  import opened RetainManifest

  const MANIFEST: Path := [Name(MANIFEST_NAME)]
  const MAX_MANIFEST_BYTES := 256 * 1024

  /** What a validated manifest guarantees about the source directory. */
  ghost predicate Retainable(t: Tree, source: Path, files: seq<Path>) {
    && (forall i :: 0 <= i < |files| ==> files[i] != [] && source + files[i] in t && t[source + files[i]].File?)
    && (forall i, j :: 0 <= i < j < |files| ==> files[i] != files[j])
    && MANIFEST !in files && source + MANIFEST in t && t[source + MANIFEST].File?
  }

  /** sub holds the listed files with the contents of src, their parent directories, and nothing else. */
  ghost predicate HoldsExactly(sub: Tree, files: seq<Path>, src: Tree) {
    forall x :: HoldsAt(sub, files, src, x)
  }

  ghost predicate HoldsAt(sub: Tree, files: seq<Path>, src: Tree, x: Path) {
    && (x in sub <==> x == [] || IsParentOrFile(x, files))
    && (x in sub && x in files ==> x in src && sub[x] == src[x])
    && (x in sub && x !in files ==> sub[x] == Dir)
  }

  ghost predicate IsParentOrFile(x: Path, files: seq<Path>) {
    exists f :: f in files && x <= f
  }

  /** No listed file is a parent of another one. */
  ghost predicate IsAntichain(files: seq<Path>) {
    forall i, j :: AreApartAt(files, i, j)
  }

  predicate AreApartAt(files: seq<Path>, i: int, j: int) {
    0 <= i < |files| && 0 <= j < |files| && i != j ==> !(files[i] <= files[j])
  }

  lemma {:induction false} FilesFormAntichain(t: Tree, source: Path, files: seq<Path>)
    requires IsTree(t)
    requires forall i :: 0 <= i < |files| ==> source + files[i] in t && t[source + files[i]].File?
    requires forall i, j :: 0 <= i < j < |files| ==> files[i] != files[j]
    ensures IsAntichain(files)
  {
    forall i, j
      ensures AreApartAt(files, i, j)
    {
      if 0 <= i < |files| && 0 <= j < |files| && i != j {
        assert files[i] != files[j];
        FileHasNothingBelow(t, source, files[i], files[j]);
      }
    }
  }

  lemma {:induction false} FileHasNothingBelow(t: Tree, source: Path, f: Path, g: Path)
    requires IsTree(t) && source + f in t && source + g in t && t[source + f].File?
    ensures f <= g ==> f == g
  {
    if f <= g {
      assert source + g == source + f + g[|f|..];
      AncestorsExist(t, source + g, source + f);
      PrependRoot(source, f, g);
    }
  }

  lemma {:induction false} PrependRoot(root: Path, a: Path, b: Path)
    ensures root + a == root + b <==> a == b
  {
    assert (root + a)[|root|..] == a && (root + b)[|root|..] == b;
  }

  lemma {:induction false} ParentsBelowRoot(root: Path, rel: Path, x: Path)
    ensures root + x in ParentsBelow(root, rel) <==> x in ParentsBelow([], rel)
  {
    if root + x in ParentsBelow(root, rel) {
      var k :| 0 <= k < |rel| && root + x == root + rel[..k];
      PrependRoot(root, x, rel[..k]);
      assert x == [] + rel[..k];
    }
    if x in ParentsBelow([], rel) {
      var k :| 0 <= k < |rel| && x == [] + rel[..k];
      assert root + x == root + rel[..k];
    }
  }

  lemma {:induction false} WithFileBelow(t: Tree, sub: Tree, root: Path, rel: Path, e: Entry, x: Path)
    requires root + x in t <==> x in sub
    requires x in sub ==> sub[x] == t[root + x]
    ensures root + x in WithFile(t, root, rel, e) <==> x in WithFile(sub, [], rel, e)
    ensures x in WithFile(sub, [], rel, e) ==> WithFile(sub, [], rel, e)[x] == WithFile(t, root, rel, e)[root + x]
  {
    assert [] + rel == rel;
    PrependRoot(root, x, rel);
    ParentsBelowRoot(root, rel, x);
  }

  lemma {:induction false} SubtreeOfWithFile(t: Tree, root: Path, rel: Path, e: Entry)
    ensures Subtree(WithFile(t, root, rel, e), root) == WithFile(Subtree(t, root), [], rel, e)
  {
    forall x
      ensures root + x in WithFile(t, root, rel, e) <==> x in WithFile(Subtree(t, root), [], rel, e)
      ensures x in WithFile(Subtree(t, root), [], rel, e) ==>
                WithFile(Subtree(t, root), [], rel, e)[x] == WithFile(t, root, rel, e)[root + x]
    {
      WithFileBelow(t, Subtree(t, root), root, rel, e, x);
    }
  }

  lemma {:induction false} ParentsAreProperPrefixes(rel: Path, x: Path)
    ensures x in ParentsBelow([], rel) <==> x <= rel && x != rel
  {
    if x <= rel && x != rel {
      assert x == [] + rel[..|x|];
    }
    if k :| 0 <= k < |rel| && x == [] + rel[..k] {
      assert x == rel[..k];
    }
  }

  /** Adding the next listed file extends what the staging directory holds by exactly that file. */
  lemma {:induction false} HoldsOneMore(sub: Tree, files: seq<Path>, rel: Path, src: Tree)
    requires HoldsExactly(sub, files, src) && rel in src && rel != []
    requires IsAntichain(files + [rel])
    ensures CanCreate(sub, [], rel)
    ensures HoldsExactly(WithFile(sub, [], rel, src[rel]), files + [rel], src)
  {
    var more := files + [rel];
    assert [] + rel == rel;
    assert more[|files|] == rel;
    forall f | f in files
      ensures !(rel <= f) && !(f <= rel)
    {
      var i :| 0 <= i < |files| && files[i] == f;
      assert more[i] == f && AreApartAt(more, i, |files|) && AreApartAt(more, |files|, i);
    }
    forall k | 0 <= k < |rel|
      ensures [] + rel[..k] !in sub || sub[[] + rel[..k]] == Dir
    {
      assert [] + rel[..k] == rel[..k] && rel[..k] <= rel;
      assert HoldsAt(sub, files, src, rel[..k]);
    }
    assert HoldsAt(sub, files, src, rel);
    var sub' := WithFile(sub, [], rel, src[rel]);
    forall x
      ensures HoldsAt(sub', more, src, x)
    {
      assert HoldsAt(sub, files, src, x);
      ParentsAreProperPrefixes(rel, x);
      if IsParentOrFile(x, files) {
        var f :| f in files && x <= f;
        assert f in more;
      }
      assert rel in more;
      assert IsParentOrFile(x, more) <==> IsParentOrFile(x, files) || x <= rel;
    }
  }

  lemma {:induction false} SameOutsideTwice(a: Tree, b: Tree, c: Tree, root: Path)
    requires SameOutside(a, b, root) && SameOutside(b, c, root)
    ensures SameOutside(a, c, root)
  {
    forall p
      ensures SameOutsideAt(a, c, root, p)
    {
      assert SameOutsideAt(a, b, root, p) && SameOutsideAt(b, c, root, p);
    }
  }

  lemma {:induction false} FirstApart(files: seq<Path>, i: nat)
    requires i < |files| && IsAntichain(files)
    ensures IsAntichain(files[..i] + [files[i]])
  {
    var first := files[..i] + [files[i]];
    forall j, k
      ensures AreApartAt(first, j, k)
    {
      assert AreApartAt(files, j, k);
    }
  }

  /** One more copy: it can be made, and extends what is staged by one listed file. */
  lemma {:induction false} StageStep(start: Tree, now: Tree, source: Path, staging: Path, files: seq<Path>, i: nat)
    requires i < |files| && files[i] != [] && IsAntichain(files)
    requires source + files[i] in start && start[source + files[i]].File? && !(staging <= source + files[i])
    requires SameOutside(start, now, staging)
    requires HoldsExactly(Subtree(now, staging), files[..i], Subtree(start, source))
    ensures source + files[i] in now && now[source + files[i]].File? && CanCreate(now, staging, files[i])
    ensures HoldsExactly(Subtree(WithFile(now, staging, files[i], now[source + files[i]]), staging), files[..i + 1],
                         Subtree(start, source))
  {
    var rel, src := files[i], Subtree(start, source);
    assert SameOutsideAt(start, now, staging, source + rel);
    assert src[rel] == now[source + rel];
    assert files[..i + 1] == files[..i] + [rel];
    FirstApart(files, i);
    HoldsOneMore(Subtree(now, staging), files[..i], rel, src);
    CanCreateInSubtree(now, staging, rel);
    SubtreeOfWithFile(now, staging, rel, now[source + rel]);
  }

  predicate CanCopy(t: Tree, source: Path, staging: Path, f: Path) {
    f != [] && source + f in t && t[source + f].File? && !(staging <= source + f)
  }

  predicate AllCanBeCopied(t: Tree, source: Path, staging: Path, files: seq<Path>) {
    forall i :: 0 <= i < |files| ==> CanCopy(t, source, staging, files[i])
  }

  /** The first n files are staged, and nothing else has changed. */
  ghost predicate AreStaged(start: Tree, now: Tree, source: Path, staging: Path, files: seq<Path>, n: nat)
    requires n <= |files|
  {
    forall side: Side :: IsStagedOn(start, now, source, staging, files, n, side)
  }

  datatype Side = Inside | Outside

  ghost predicate IsStagedOn(
      start: Tree, now: Tree, source: Path, staging: Path, files: seq<Path>, n: nat, side: Side)
    requires n <= |files|
  {
    match side
    case Inside => staging in now && HoldsExactly(Subtree(now, staging), files[..n], Subtree(start, source))
    case Outside => SameOutside(start, now, staging)
  }

  lemma {:induction false} StagedSides(
      start: Tree, now: Tree, source: Path, staging: Path, files: seq<Path>, n: nat)
    requires n <= |files|
    ensures AreStaged(start, now, source, staging, files, n) <==>
            && SameOutside(start, now, staging) && staging in now
            && HoldsExactly(Subtree(now, staging), files[..n], Subtree(start, source))
  {
    assert AreStaged(start, now, source, staging, files, n) ==>
        IsStagedOn(start, now, source, staging, files, n, Inside)
        && IsStagedOn(start, now, source, staging, files, n, Outside);
  }

  lemma {:induction false} CanStageNext(
      start: Tree, before: Tree, source: Path, staging: Path, files: seq<Path>, i: nat)
    requires i < |files| && IsAntichain(files) && AllCanBeCopied(start, source, staging, files)
    requires AreStaged(start, before, source, staging, files, i)
    ensures source + files[i] in before && before[source + files[i]].File? && CanCreate(before, staging, files[i])
  {
    StagedSides(start, before, source, staging, files, i);
    assert CanCopy(start, source, staging, files[i]);
    StageStep(start, before, source, staging, files, i);
  }

  lemma {:induction false} StageNext(start: Tree, before: Tree, after: Tree, source: Path, staging: Path,
      files: seq<Path>, i: nat)
    requires i < |files| && IsAntichain(files) && AllCanBeCopied(start, source, staging, files)
    requires AreStaged(start, before, source, staging, files, i) && SameOutside(before, after, staging)
    requires source + files[i] in before && staging in after
    ensures SameOutside(start, after, staging)
    ensures after == WithFile(before, staging, files[i], before[source + files[i]]) ==>
              AreStaged(start, after, source, staging, files, i + 1)
  {
    StagedSides(start, before, source, staging, files, i);
    assert CanCopy(start, source, staging, files[i]);
    StageStep(start, before, source, staging, files, i);
    SameOutsideTwice(start, before, after, staging);
    StagedSides(start, after, source, staging, files, i + 1);
  }

  /** Copy the next listed file. */
  method StageOne(host: Host, source: Path, staging: Path, files: seq<Path>, i: nat, ghost start: Tree)
    returns (ok: bool)
    requires i < |files| && IsAntichain(files) && AllCanBeCopied(start, source, staging, files)
    requires AreStaged(start, host.tree, source, staging, files, i)
    modifies host`tree, host`clock
    ensures host.clock == old(host.clock) + 1
    ensures ok ==> AreStaged(start, host.tree, source, staging, files, i + 1)
    ensures !ok ==> host.fails(old(host.clock)) && SameOutside(start, host.tree, staging) && staging in host.tree
  {
    ghost var before := host.tree;
    CanStageNext(start, before, source, staging, files, i);
    StagedSides(start, before, source, staging, files, i);
    ok := host.CopyFile(source + files[i], staging, files[i]);
    StageNext(start, before, host.tree, source, staging, files, i);
  }

  /** Copy every listed file into the staging directory. */
  method StageFiles(host: Host, source: Path, staging: Path, files: seq<Path>) returns (ok: bool)
    requires IsAntichain(files) && AllCanBeCopied(host.tree, source, staging, files)
    requires staging in host.tree && Subtree(host.tree, staging) == map[[] := Dir]
    modifies host`tree, host`clock
    ensures SameOutside(old(host.tree), host.tree, staging) && staging in host.tree
    ensures host.clock >= old(host.clock)
    ensures ok ==> HoldsExactly(Subtree(host.tree, staging), files, Subtree(old(host.tree), source))
    ensures !ok ==> SomeFails(host.fails, old(host.clock), host.clock)
  {
    ghost var start := host.tree;
    NothingStaged(start, source, staging, files);
    ok := true;
    var i := 0;
    while i < |files| && ok
      invariant 0 <= i <= |files| && host.clock >= old(host.clock)
      invariant ok ==> AreStaged(start, host.tree, source, staging, files, i)
      invariant !ok ==> SomeFails(host.fails, old(host.clock), host.clock)
      invariant !ok ==> SameOutside(start, host.tree, staging) && staging in host.tree
      decreases |files| - i, ok
    {
      ghost var time := host.clock;
      ok := StageOne(host, source, staging, files, i, start);
      FailedByNow(host.fails, old(host.clock), time);
      i := if ok then i + 1 else i;
    }
    if ok {
      AllStaged(start, host.tree, source, staging, files, i);
    }
  }

  lemma {:induction false} AllStaged(start: Tree, now: Tree, source: Path, staging: Path, files: seq<Path>, n: nat)
    requires n == |files| && AreStaged(start, now, source, staging, files, n)
    ensures SameOutside(start, now, staging) && staging in now
    ensures HoldsExactly(Subtree(now, staging), files, Subtree(start, source))
  {
    StagedSides(start, now, source, staging, files, n);
    assert files[..n] == files;
  }

  lemma {:induction false} NothingStaged(start: Tree, source: Path, staging: Path, files: seq<Path>)
    requires staging in start && Subtree(start, staging) == map[[] := Dir]
    ensures AreStaged(start, start, source, staging, files, 0)
  {
    assert files[..0] == [];
    forall p
      ensures SameOutsideAt(start, start, staging, p)
    {
    }
    StagedSides(start, start, source, staging, files, 0);
  }

  lemma {:induction false} CanCreateInSubtree(t: Tree, root: Path, rel: Path)
    ensures CanCreate(Subtree(t, root), [], rel) <==> CanCreate(t, root, rel)
  {
    assert [] + rel == rel;
    assert forall k :: 0 <= k < |rel| ==> [] + rel[..k] == rel[..k];
  }

  // ----- the export ---------------------------------------------------------------

  /** The destination holds its complete previous tree. */
  ghost predicate IsPrevious(before: Tree, after: Tree, dest: Path) {
    Subtree(after, dest) == Subtree(before, dest)
  }

  /** The destination holds exactly the manifest's files and the manifest. */
  ghost predicate IsExported(before: Tree, after: Tree, source: Path, dest: Path, files: seq<Path>) {
    HoldsExactly(Subtree(after, dest), files + [MANIFEST], Subtree(before, source))
  }

  /** The destination is missing, but its complete previous tree is in the backup directory. */
  ghost predicate IsInBackup(before: Tree, after: Tree, dest: Path, backup: Path) {
    dest in before && NothingUnder(after, dest) && Subtree(after, backup) == Subtree(before, dest)
  }

  /** The three places the export works in. */
  datatype Places = Places(dest: Path, staging: Path, backup: Path)

  function PlacesFor(dest: Path, token: nat): Places
    requires dest != []
  {
    Places(dest, Sibling(dest, Retain, token), Sibling(dest, Previous, token))
  }

  ghost predicate ArePlaces(w: Places) {
    Apart(w.dest, w.staging) && Apart(w.dest, w.backup) && Apart(w.staging, w.backup)
  }

  lemma {:induction false} TemporaryIsNotItsBase(c: Component, tag: Tag, token: nat)
    ensures Temporary(c, tag, token) != c
    decreases c
  {
    match c
    case Name(_) =>
    case Temporary(b, tg, tk) => TemporaryIsNotItsBase(b, tg, tk);
  }

  lemma {:induction false} PlacesAreApart(dest: Path, token: nat)
    requires dest != []
    ensures ArePlaces(PlacesFor(dest, token))
  {
    var w := PlacesFor(dest, token);
    var n := |dest| - 1;
    TemporaryIsNotItsBase(dest[n], Retain, token);
    TemporaryIsNotItsBase(dest[n], Previous, token);
    assert w.staging[n] != dest[n] && w.backup[n] != dest[n] && w.staging[n] != w.backup[n];
  }

  /** The rest of the file system is as it was. */
  ghost predicate SameElsewhere(before: Tree, after: Tree, w: Places) {
    forall p :: SameAt(before, after, w, p)
  }

  ghost predicate SameAt(before: Tree, after: Tree, w: Places, p: Path) {
    || w.dest <= p || w.staging <= p || w.backup <= p
    || (p in after && p in before && after[p] == before[p])
    || (p !in after && p !in before)
  }

  /** Nothing has happened to the destination yet. */
  ghost predicate IsUntouched(before: Tree, now: Tree, w: Places) {
    SameElsewhere(before, now, w) && IsPrevious(before, now, w.dest) && NothingUnder(now, w.backup)
  }

  /** The new tree is in place. */
  ghost predicate IsSwapped(before: Tree, now: Tree, source: Path, w: Places, files: seq<Path>) {
    && SameElsewhere(before, now, w)
    && IsExported(before, now, source, w.dest, files)
    && NothingUnder(now, w.staging) && w.dest in now
  }

  /** The old tree has been moved away and nothing has taken its place. */
  ghost predicate IsMissing(before: Tree, now: Tree, w: Places) {
    SameElsewhere(before, now, w) && IsInBackup(before, now, w.dest, w.backup) && w.backup in now
  }

  lemma {:induction false} DestinationExists(before: Tree, now: Tree, dest: Path)
    requires IsPrevious(before, now, dest)
    ensures dest in now <==> dest in before
  {
    assert dest + [] == dest;
    assert [] in Subtree(now, dest) <==> dest in now;
    assert [] in Subtree(before, dest) <==> dest in before;
  }

  lemma {:induction false} MoveClears(t: Tree, src: Path, dst: Path)
    requires Apart(src, dst)
    ensures NothingUnder(Move(t, src, dst), src)
  {
    forall p | p in Move(t, src, dst)
      ensures !(src <= p)
    {
      if src <= p && dst <= p {
        CommonPath(src, dst, p);
      }
    }
  }

  lemma {:induction false} MoveStaysIn(before: Tree, now: Tree, w: Places, src: Path, dst: Path)
    requires SameElsewhere(before, now, w) && {src, dst} <= {w.dest, w.staging, w.backup}
    ensures SameElsewhere(before, Move(now, src, dst), w)
  {
    forall p
      ensures SameAt(before, Move(now, src, dst), w, p)
    {
      assert SameAt(before, now, w, p);
      assert src in {w.dest, w.staging, w.backup} && dst in {w.dest, w.staging, w.backup};
    }
  }

  /** The destination is renamed to the backup. */
  lemma {:induction false} MovedAway(before: Tree, now: Tree, w: Places)
    requires ArePlaces(w) && IsUntouched(before, now, w) && w.dest in now
    ensures IsMissing(before, Move(now, w.dest, w.backup), w)
    ensures Subtree(Move(now, w.dest, w.backup), w.staging) == Subtree(now, w.staging)
  {
    var t := Move(now, w.dest, w.backup);
    SubtreeOfMoved(now, w.dest, w.backup);
    DestinationExists(before, now, w.dest);
    assert Origin(w.backup, w.dest, w.backup) == w.dest;
    MoveAvoids(now, w.dest, w.backup, w.staging);
    MoveClears(now, w.dest, w.backup);
    MoveStaysIn(before, now, w, w.dest, w.backup);
  }

  /** A rename leaves every subtree alone that is apart from both its ends. */
  lemma {:induction false} MoveAvoids(t: Tree, src: Path, dst: Path, root: Path)
    requires Apart(src, root) && Apart(dst, root)
    ensures Subtree(Move(t, src, dst), root) == Subtree(t, root)
  {
    forall x
      ensures !(src <= root + x) && !(dst <= root + x)
    {
      if src <= root + x {
        CommonPath(src, root, root + x);
      }
      if dst <= root + x {
        CommonPath(dst, root, root + x);
      }
    }
  }

  /** The backup is renamed back to the destination. */
  lemma {:induction false} MovedBack(before: Tree, now: Tree, w: Places)
    requires ArePlaces(w) && IsMissing(before, now, w)
    ensures IsUntouched(before, Move(now, w.backup, w.dest), w)
    ensures Subtree(Move(now, w.backup, w.dest), w.staging) == Subtree(now, w.staging)
  {
    var t := Move(now, w.backup, w.dest);
    SubtreeOfMoved(now, w.backup, w.dest);
    MoveAvoids(now, w.backup, w.dest, w.staging);
    MoveClears(now, w.backup, w.dest);
    MoveStaysIn(before, now, w, w.backup, w.dest);
  }

  /** The staged tree is renamed to the destination, which is free. */
  lemma {:induction false} MovedIn(before: Tree, now: Tree, source: Path, w: Places, files: seq<Path>)
    requires ArePlaces(w) && SameElsewhere(before, now, w) && w.staging in now
    requires HoldsExactly(Subtree(now, w.staging), files + [MANIFEST], Subtree(before, source))
    ensures IsSwapped(before, Move(now, w.staging, w.dest), source, w, files)
    ensures Subtree(Move(now, w.staging, w.dest), w.backup) == Subtree(now, w.backup)
  {
    var t := Move(now, w.staging, w.dest);
    SubtreeOfMoved(now, w.staging, w.dest);
    assert Origin(w.dest, w.staging, w.dest) == w.staging;
    MoveAvoids(now, w.staging, w.dest, w.backup);
    MoveClears(now, w.staging, w.dest);
    MoveStaysIn(before, now, w, w.staging, w.dest);
  }

  lemma {:induction false} NothingMeansEmpty(t: Tree, root: Path)
    ensures NothingUnder(t, root) <==> Subtree(t, root) == map[]
  {
    forall p
      ensures NothingAt(t, root, p) || p[|root|..] in Subtree(t, root)
    {
      assert root <= p ==> root + p[|root|..] == p;
    }
    forall x | x in Subtree(t, root)
      ensures !NothingAt(t, root, root + x)
    {
      assert root <= root + x;
    }
  }

  /** A fresh staging directory next to the destination. */
  lemma {:induction false} StagingMade(before: Tree, w: Places)
    requires ArePlaces(w) && NothingUnder(before, w.staging) && NothingUnder(before, w.backup)
    ensures Subtree(before[w.staging := Dir], w.staging) == map[[] := Dir]
    ensures IsUntouched(before, before[w.staging := Dir], w)
  {
    var t := before[w.staging := Dir];
    assert w.staging + [] == w.staging;
    forall x
      ensures x in Subtree(t, w.staging) <==> x == []
    {
      assert NothingAt(before, w.staging, w.staging + x);
      PrependRoot(w.staging, x, []);
    }
    forall p
      ensures NothingAt(t, w.backup, p)
    {
      assert NothingAt(before, w.backup, p);
    }
    forall x
      ensures w.dest + x != w.staging
    {
      assert w.dest <= w.dest + x;
    }
  }

  lemma {:induction false} StagingFilled(before: Tree, made: Tree, now: Tree, w: Places)
    requires ArePlaces(w) && IsUntouched(before, made, w) && SameOutside(made, now, w.staging)
    ensures IsUntouched(before, now, w)
  {
    SubtreeUntouched(made, now, w.staging, w.dest);
    SubtreeUntouched(made, now, w.staging, w.backup);
    NothingMeansEmpty(made, w.backup);
    NothingMeansEmpty(now, w.backup);
    StaysElsewhere(before, made, now, w, w.staging);
  }

  lemma {:induction false} StaysElsewhere(before: Tree, now: Tree, after: Tree, w: Places, root: Path)
    requires SameElsewhere(before, now, w) && SameOutside(now, after, root) && root in {w.dest, w.staging, w.backup}
    ensures SameElsewhere(before, after, w)
  {
    forall p
      ensures SameAt(before, after, w, p)
    {
      assert SameAt(before, now, w, p) && SameOutsideAt(now, after, root, p);
    }
  }

  /** Deleting one of the two temporary directories leaves the destination alone. */
  lemma {:induction false} Cleaned(before: Tree, now: Tree, after: Tree, w: Places, root: Path)
    requires ArePlaces(w) && root in {w.staging, w.backup} && SameOutside(now, after, root)
    requires after.Keys <= now.Keys
    ensures Subtree(after, w.dest) == Subtree(now, w.dest)
    ensures SameElsewhere(before, now, w) ==> SameElsewhere(before, after, w)
    ensures NothingUnder(now, w.staging) ==> NothingUnder(after, w.staging)
    ensures NothingUnder(now, w.backup) ==> NothingUnder(after, w.backup)
    ensures root == w.staging ==> Subtree(after, w.backup) == Subtree(now, w.backup)
    ensures w.dest in now ==> w.dest in after
    ensures NothingUnder(now, w.dest) ==> NothingUnder(after, w.dest)
  {
    SubtreeUntouched(now, after, root, w.dest);
    if root == w.staging {
      SubtreeUntouched(now, after, root, w.backup);
    }
    forall r | r in {w.dest, w.staging, w.backup} && NothingUnder(now, r)
      ensures NothingUnder(after, r)
    {
      FewerUnder(now, after, r);
    }
    if SameElsewhere(before, now, w) {
      StaysElsewhere(before, now, after, w, root);
    }
    assert SameOutsideAt(now, after, root, w.dest);
  }

  /** How the guarded part of the export can end. */
  ghost predicate Outcome(before: Tree, now: Tree, source: Path, w: Places, files: seq<Path>, movedPrevious: bool,
                          several: bool)
  {
    || (IsUntouched(before, now, w) && !movedPrevious && w.staging in now)
    || (&& IsSwapped(before, now, source, w, files)
        && (!movedPrevious ==> NothingUnder(now, w.backup))
        && (w.backup in now || NothingUnder(now, w.backup)))
    || (IsMissing(before, now, w) && movedPrevious && w.staging in now && several)
  }

  /** The same, once the staging directory is being removed. */
  ghost predicate Settled(before: Tree, now: Tree, source: Path, w: Places, files: seq<Path>, movedPrevious: bool,
                          several: bool)
  {
    || (IsUntouched(before, now, w) && !movedPrevious)
    || (&& IsSwapped(before, now, source, w, files)
        && (!movedPrevious ==> NothingUnder(now, w.backup))
        && (w.backup in now || NothingUnder(now, w.backup)))
    || (IsMissing(before, now, w) && movedPrevious && several)
  }

  /** The destination holds all of the old tree or exactly the new one; or the old tree is in the backup. */
  ghost predicate Ended(before: Tree, now: Tree, source: Path, w: Places, files: seq<Path>, several: bool) {
    && SameElsewhere(before, now, w)
    && (|| IsPrevious(before, now, w.dest)
        || IsExported(before, now, source, w.dest, files)
        || (IsInBackup(before, now, w.dest, w.backup) && several))
  }

  ghost predicate NoTemporaries(now: Tree, w: Places) {
    NothingUnder(now, w.staging) && NothingUnder(now, w.backup)
  }

  /** It ended without an exception. */
  ghost predicate Completed(before: Tree, now: Tree, source: Path, w: Places, files: seq<Path>, movedPrevious: bool) {
    IsSwapped(before, now, source, w, files) && !movedPrevious && NothingUnder(now, w.backup)
  }

  /** The staging directory is complete and nothing else has changed. */
  ghost predicate IsStaged(before: Tree, now: Tree, source: Path, w: Places, files: seq<Path>) {
    && IsUntouched(before, now, w) && w.staging in now
    && HoldsExactly(Subtree(now, w.staging), files + [MANIFEST], Subtree(before, source))
  }

  /**
    * The guarded part of the export: fill the staging directory, move the old tree to the backup,
    * move the new one in, delete the backup. Reports whether it raised, and whether the old tree is
    * still marked as moved away.
    */
  method Replace(host: Host, source: Path, w: Places, files: seq<Path>, ghost before: Tree)
    returns (ok: bool, movedPrevious: bool)
    requires IsTree(before) && Retainable(before, source, files) && ArePlaces(w)
    requires NothingUnder(before, w.staging) && NothingUnder(before, w.backup)
    requires host.tree == before[w.staging := Dir]
    modifies host`tree, host`clock
    ensures ok ==> Completed(before, host.tree, source, w, files, movedPrevious)
    ensures !ok ==> SomeFails(host.fails, old(host.clock), host.clock)
    ensures host.clock >= old(host.clock)
    ensures Outcome(before, host.tree, source, w, files, movedPrevious,
                    TwoFail(host.fails, old(host.clock), host.clock))
  {
    ok := FillStaging(host, source, w, files, before);
    if !ok {
      return false, false;
    }
    ghost var staged, time := host.tree, host.clock;
    if w.dest !in host.tree {
      ok, movedPrevious := MoveIn(host, source, w, files, false, before);
      LongerSpan(host.fails, time, host.clock, old(host.clock), host.clock);
      return;
    }
    MovedAway(before, staged, w);
    ok := host.Rename(w.dest, w.backup);
    FailedByNow(host.fails, old(host.clock), time);
    if !ok {
      return false, false;
    }
    StagingStays(staged, host.tree, w);
    ok, movedPrevious := MoveIn(host, source, w, files, true, before);
    LongerSpan(host.fails, time + 1, host.clock, old(host.clock), host.clock);
  }

  /** The first half: copy the listed files and the manifest, then restrict the manifest's permissions. */
  method FillStaging(host: Host, source: Path, w: Places, files: seq<Path>, ghost before: Tree) returns (ok: bool)
    requires IsTree(before) && Retainable(before, source, files) && ArePlaces(w)
    requires NothingUnder(before, w.staging) && NothingUnder(before, w.backup)
    requires host.tree == before[w.staging := Dir]
    modifies host`tree, host`clock
    ensures host.clock >= old(host.clock)
    ensures IsUntouched(before, host.tree, w) && w.staging in host.tree
    ensures ok ==> IsStaged(before, host.tree, source, w, files)
    ensures !ok ==> SomeFails(host.fails, old(host.clock), host.clock)
  {
    StagingMade(before, w);
    ghost var made := host.tree;
    ListedFilesStand(before, source, w, files);
    ok := StageFiles(host, source, w.staging, files + [MANIFEST]);
    StagingFilled(before, made, host.tree, w);
    if !ok {
      return;
    }
    ListedSources(before, made, source, w, files, Subtree(host.tree, w.staging));
    ok := host.Tick();
    FailedByNow(host.fails, old(host.clock), host.clock - 1);
  }

  /** The second half: the old tree, if there was one, has just been moved to the backup. */
  method MoveIn(host: Host, source: Path, w: Places, files: seq<Path>, moved: bool, ghost before: Tree)
    returns (ok: bool, movedPrevious: bool)
    requires ArePlaces(w) && w.staging in host.tree
    requires if moved then IsMissing(before, host.tree, w) else IsUntouched(before, host.tree, w)
    requires HoldsExactly(Subtree(host.tree, w.staging), files + [MANIFEST], Subtree(before, source))
    modifies host`tree, host`clock
    ensures host.clock > old(host.clock)
    ensures ok ==> Completed(before, host.tree, source, w, files, movedPrevious)
    ensures !ok ==> SomeFails(host.fails, old(host.clock), host.clock)
    ensures Outcome(before, host.tree, source, w, files, movedPrevious,
                    TwoFail(host.fails, old(host.clock), host.clock))
  {
    ghost var start, time := host.tree, host.clock;
    MovedIn(before, start, source, w, files);
    ok := host.Rename(w.staging, w.dest);
    FailedByNow(host.fails, time, time);
    if !ok {
      movedPrevious := RestorePrevious(host, w, moved, before);
      LongerSpan(host.fails, time, time + 1, time, host.clock);
      if movedPrevious {
        SecondFailure(host.fails, time, time + 1, host.clock);
      }
      return;
    }
    BackupStays(start, host.tree, w);
    ok, movedPrevious := DropBackup(host, source, w, files, moved, before);
    LongerSpan(host.fails, time + 1, host.clock, time, host.clock);
  }

  /** The new tree is in place: the backup goes, and the manifest's permissions are set again. */
  method DropBackup(host: Host, source: Path, w: Places, files: seq<Path>, moved: bool, ghost before: Tree)
    returns (ok: bool, movedPrevious: bool)
    requires ArePlaces(w) && IsSwapped(before, host.tree, source, w, files)
    requires if moved then w.backup in host.tree else NothingUnder(host.tree, w.backup)
    modifies host`tree, host`clock
    ensures host.clock > old(host.clock)
    ensures ok ==> Completed(before, host.tree, source, w, files, movedPrevious)
    ensures !ok ==> SomeFails(host.fails, old(host.clock), host.clock)
    ensures IsSwapped(before, host.tree, source, w, files)
    ensures movedPrevious ==> w.backup in host.tree
    ensures !movedPrevious ==> NothingUnder(host.tree, w.backup)
  {
    movedPrevious := moved;
    if movedPrevious {
      ghost var swapped := host.tree;
      ok := host.RemoveTree(w.backup);
      Cleaned(before, swapped, host.tree, w, w.backup);
      FailedByNow(host.fails, old(host.clock), old(host.clock));
      if !ok {
        return;
      }
      movedPrevious := false;
    }
    ok := host.Tick();
    FailedByNow(host.fails, old(host.clock), host.clock - 1);
  }

  /** The inner handler: the new tree could not be moved in, so the old one is moved back. */
  method RestorePrevious(host: Host, w: Places, moved: bool, ghost before: Tree) returns (movedPrevious: bool)
    requires ArePlaces(w) && w.staging in host.tree
    requires if moved then IsMissing(before, host.tree, w) else IsUntouched(before, host.tree, w)
    modifies host`tree, host`clock
    ensures host.clock >= old(host.clock)
    ensures w.staging in host.tree
    ensures if movedPrevious then IsMissing(before, host.tree, w) && SomeFails(host.fails, old(host.clock), host.clock)
            else IsUntouched(before, host.tree, w)
  {
    movedPrevious := moved;
    assert NothingUnder(host.tree, w.dest) ==> NothingAt(host.tree, w.dest, w.dest);
    if movedPrevious && w.dest !in host.tree {
      ghost var now := host.tree;
      MovedBack(before, now, w);
      var restored := host.Rename(w.backup, w.dest);
      if restored {
        movedPrevious := false;
        StagingStays(now, host.tree, w);
      } else {
        FailedByNow(host.fails, old(host.clock), old(host.clock));
      }
    }
  }

  lemma {:induction false} BackupStays(a: Tree, b: Tree, w: Places)
    requires Subtree(b, w.backup) == Subtree(a, w.backup)
    ensures w.backup in b <==> w.backup in a
    ensures NothingUnder(b, w.backup) <==> NothingUnder(a, w.backup)
  {
    assert w.backup + [] == w.backup;
    assert [] in Subtree(a, w.backup) <==> w.backup in a;
    assert [] in Subtree(b, w.backup) <==> w.backup in b;
    NothingMeansEmpty(a, w.backup);
    NothingMeansEmpty(b, w.backup);
  }

  lemma {:induction false} StagingStays(a: Tree, b: Tree, w: Places)
    requires w.staging in a && Subtree(b, w.staging) == Subtree(a, w.staging)
    ensures w.staging in b
  {
    assert w.staging + [] == w.staging;
    assert [] in Subtree(a, w.staging) <==> w.staging in a;
    assert [] in Subtree(b, w.staging) <==> w.staging in b;
  }

  lemma {:induction false} ListedFilesStand(before: Tree, source: Path, w: Places, files: seq<Path>)
    requires IsTree(before) && Retainable(before, source, files)
    requires NothingUnder(before, w.staging)
    ensures IsAntichain(files + [MANIFEST])
    ensures AllCanBeCopied(before[w.staging := Dir], source, w.staging, files + [MANIFEST])
  {
    var listed := files + [MANIFEST];
    var made := before[w.staging := Dir];
    forall i, j | 0 <= i < j < |listed|
      ensures listed[i] != listed[j]
    {
      assert listed[i] == files[i];
      assert files[i] in files;
    }
    forall i | 0 <= i < |listed|
      ensures CanCopy(made, source, w.staging, listed[i])
    {
      assert NothingAt(before, w.staging, source + listed[i]);
    }
    FilesFormAntichain(before, source, listed);
  }

  /** The files that were copied are those of the source as it was on entry. */
  lemma {:induction false} ListedSources(before: Tree, made: Tree, source: Path, w: Places, files: seq<Path>, sub: Tree)
    requires Retainable(before, source, files) && made == before[w.staging := Dir]
    requires NothingUnder(before, w.staging)
    requires HoldsExactly(sub, files + [MANIFEST], Subtree(made, source))
    ensures HoldsExactly(sub, files + [MANIFEST], Subtree(before, source))
  {
    var listed := files + [MANIFEST];
    forall x
      ensures HoldsAt(sub, listed, Subtree(before, source), x)
    {
      assert HoldsAt(sub, listed, Subtree(made, source), x);
      if x in listed {
        var i :| 0 <= i < |listed| && listed[i] == x;
        assert source + x in before && NothingAt(before, w.staging, source + x);
      }
    }
  }

  /** The destination is there and is no directory. */
  predicate IsOtherFile(t: Tree, dest: Path) {
    dest in t && !t[dest].Dir?
  }

  lemma {:induction false} TwoIncludeOne(fails: nat -> bool, from: nat, until: nat)
    requires TwoFail(fails, from, until)
    ensures SomeFails(fails, from, until)
  {
  }

  /**
    * Replace a persistent directory by the retained files of a source directory, which may be the
    * same directory, contain it or lie inside it.
    */
  method Export(host: Host, source: Path, dest: Path, files: seq<Path>, token: nat) returns (ok: bool)
    requires IsTree(host.tree) && Retainable(host.tree, source, files)
    requires dest != [] && Parent(dest) in host.tree
    requires NothingUnder(host.tree, PlacesFor(dest, token).staging)
    requires NothingUnder(host.tree, PlacesFor(dest, token).backup)
    modifies host`tree, host`clock
    // Success means the new tree is in place, and a destination that is a directory, or nothing, gets it
    // unless something fails.
    ensures ok ==> IsExported(old(host.tree), host.tree, source, dest, files)
    ensures IsOtherFile(old(host.tree), dest) ==> !ok && host.tree == old(host.tree)
    ensures !IsOtherFile(old(host.tree), dest) ==> ok || SomeFails(host.fails, old(host.clock), host.clock)
    // Whatever fails, the destination holds all of the old tree or exactly the new one, or (after
    // several failures) the old tree is complete in the backup.
    ensures
      || IsPrevious(old(host.tree), host.tree, dest)
      || IsExported(old(host.tree), host.tree, source, dest, files)
      || IsInBackup(old(host.tree), host.tree, dest, PlacesFor(dest, token).backup)
    // One failure at any step never loses the destination and leaves no temporary directory.
    ensures !TwoFail(host.fails, old(host.clock), host.clock) ==>
              && (|| IsPrevious(old(host.tree), host.tree, dest)
                  || IsExported(old(host.tree), host.tree, source, dest, files))
              && NothingUnder(host.tree, PlacesFor(dest, token).staging)
              && NothingUnder(host.tree, PlacesFor(dest, token).backup)
    ensures SameElsewhere(old(host.tree), host.tree, PlacesFor(dest, token))
  {
    ghost var before := host.tree;
    var w := PlacesFor(dest, token);
    PlacesAreApart(dest, token);
    if dest in host.tree && host.tree[dest] != Dir {
      return false;
    }
    PlacesTaken(before, w);
    ok := host.MakeDir(w.staging);
    FailedByNow(host.fails, old(host.clock), old(host.clock));
    if !ok {
      return;
    }
    ghost var time := host.clock;
    var movedPrevious;
    ok, movedPrevious := Replace(host, source, w, files, before);
    var clean := CleanUp(host, source, w, files, movedPrevious, ok, before, time);
    LongerSpan(host.fails, time, host.clock, old(host.clock), host.clock);
    if TwoFail(host.fails, time, host.clock) {
      TwoIncludeOne(host.fails, time, host.clock);
    }
    ok := ok && clean;
  }

  lemma {:induction false} OnlyTheManifestHasItsPath(path: string)
    requires SafeRelativePath(path) == Some(MANIFEST)
    ensures path == MANIFEST_NAME
  {
    var parts := Split(path);
    assert Names(parts)[0] == MANIFEST[0];
    assert parts == [MANIFEST_NAME];
    JoinSplit(path);
  }

  /** An accepted manifest satisfies what the copy relies on. */
  lemma {:induction false} AcceptedIsRetainable(t: Tree, source: Path, m: Manifest, digest: string -> string,
      limits: Limits,
                             files: seq<Path>)
    requires AreListable(StatOf(t, source), m, |m.files|, digest, limits)
    requires files == PathsOf(m.files)
    requires source + MANIFEST in t && t[source + MANIFEST].File?
    ensures Retainable(t, source, files)
  {
    forall i | 0 <= i < |files|
      ensures files[i] != [] && source + files[i] in t && t[source + files[i]].File? && files[i] != MANIFEST
    {
      assert ListableAt(StatOf(t, source), m, |m.files|, digest, limits, i);
      if files[i] == MANIFEST {
        OnlyTheManifestHasItsPath(m.files[i].path);
      }
    }
    forall i, j | 0 <= i < j < |files|
      ensures files[i] != files[j]
    {
      assert DistinctAt(m, |m.files|, i, j);
      assert ListableAt(StatOf(t, source), m, |m.files|, digest, limits, i);
      if files[i] == files[j] {
        SafePathsAreDistinct(m.files[i].path, m.files[j].path);
      }
    }
  }

  /** The manifest that the source directory has, if its file is there, small enough and can be parsed. */
  predicate IsManifestIn(t: Tree, source: Path, parse: string -> Option<Manifest>, m: Manifest) {
    && source + MANIFEST in t && t[source + MANIFEST].File?
    && |t[source + MANIFEST].content| <= MAX_MANIFEST_BYTES
    && parse(t[source + MANIFEST].content) == Some(m)
  }

  /**
    * The whole export: load and validate the manifest of the source directory, then replace the
    * destination. A rejected manifest changes nothing. How the manifest's text is parsed is a parameter.
    */
  method ExportRetained(host: Host, source: Path, dest: Path, parse: string -> Option<Manifest>, required: set<string>,
                        digest: string -> string, limits: Limits, token: nat)
    returns (ok: bool, listed: Option<seq<Path>>)
    requires IsTree(host.tree)
    requires dest != [] && Parent(dest) in host.tree
    requires NothingUnder(host.tree, PlacesFor(dest, token).staging)
    requires NothingUnder(host.tree, PlacesFor(dest, token).backup)
    modifies host`tree, host`clock
    ensures listed.None? ==> !ok && host.tree == old(host.tree)
    ensures forall m :: IsManifestIn(old(host.tree), source, parse, m) ==>
                          (listed.Some? <==> IsAcceptable(StatOf(old(host.tree), source), m, required, digest, limits))
                          && (listed.Some? ==> listed.value == PathsOf(m.files))
    ensures listed.Some? ==> exists m :: IsManifestIn(old(host.tree), source, parse, m)
    ensures listed.Some? && !IsOtherFile(old(host.tree), dest) ==>
              ok || SomeFails(host.fails, old(host.clock), host.clock)
    ensures listed.Some? ==> Retainable(old(host.tree), source, listed.value)
    ensures ok ==> listed.Some? && IsExported(old(host.tree), host.tree, source, dest, listed.value)
    ensures !TwoFail(host.fails, old(host.clock), host.clock) ==>
              && (|| IsPrevious(old(host.tree), host.tree, dest)
                  || (listed.Some? && IsExported(old(host.tree), host.tree, source, dest, listed.value)))
              && NoTemporaries(host.tree, PlacesFor(dest, token))
    ensures SameElsewhere(old(host.tree), host.tree, PlacesFor(dest, token))
  {
    var file := if source + MANIFEST in host.tree then Some(host.tree[source + MANIFEST]) else None;
    if file.None? || file.value.Dir? || |file.value.content| > MAX_MANIFEST_BYTES {
      return false, None;
    }
    var manifest := parse(file.value.content);
    if manifest.None? {
      return false, None;
    }
    listed := Validate(host.tree, source, manifest.value, required, digest, limits);
    if listed.None? {
      return false, None;
    }
    assert IsManifestIn(host.tree, source, parse, manifest.value);
    AcceptedIsRetainable(host.tree, source, manifest.value, digest, limits, listed.value);
    ok := Export(host, source, dest, listed.value, token);
  }

  /** The finally block of the export. */
  method CleanUp(host: Host, source: Path, w: Places, files: seq<Path>, movedPrevious: bool, ghost ok: bool,
                 ghost before: Tree, ghost from: nat) returns (clean: bool)
    requires ArePlaces(w) && from <= host.clock
    requires ok ==> Completed(before, host.tree, source, w, files, movedPrevious)
    requires !ok ==> SomeFails(host.fails, from, host.clock)
    requires Outcome(before, host.tree, source, w, files, movedPrevious, TwoFail(host.fails, from, host.clock))
    modifies host`tree, host`clock
    ensures host.clock >= old(host.clock)
    ensures Ended(before, host.tree, source, w, files, TwoFail(host.fails, from, host.clock))
    ensures ok ==> IsExported(before, host.tree, source, w.dest, files)
    ensures TwoFail(host.fails, from, host.clock) || (clean && NoTemporaries(host.tree, w))
  {
    PlacesTaken(host.tree, w);
    clean := RemoveStaging(host, source, w, files, movedPrevious, before, from);
    if clean {
      clean := SettleBackup(host, source, w, files, movedPrevious, before, from);
    }
  }

  lemma {:induction false} SettledEnds(before: Tree, now: Tree, source: Path, w: Places, files: seq<Path>,
      movedPrevious: bool,
                    several: bool)
    requires Settled(before, now, source, w, files, movedPrevious, several)
    ensures Ended(before, now, source, w, files, several)
  {
  }

  method RemoveStaging(host: Host, source: Path, w: Places, files: seq<Path>, ghost movedPrevious: bool,
                       ghost before: Tree, ghost from: nat) returns (clean: bool)
    requires ArePlaces(w) && from <= host.clock
    requires Outcome(before, host.tree, source, w, files, movedPrevious, TwoFail(host.fails, from, host.clock))
    requires w.staging in host.tree || w.backup in host.tree ==> SomeFails(host.fails, from, host.clock)
    modifies host`tree, host`clock
    ensures host.clock >= old(host.clock)
    ensures Settled(before, host.tree, source, w, files, movedPrevious, TwoFail(host.fails, from, host.clock))
    ensures Ended(before, host.tree, source, w, files, TwoFail(host.fails, from, host.clock))
    ensures w.backup in host.tree ==> SomeFails(host.fails, from, host.clock)
    ensures clean ==> NothingUnder(host.tree, w.staging)
    ensures !clean ==> TwoFail(host.fails, from, host.clock)
    ensures w.staging !in old(host.tree) ==> host.tree == old(host.tree) && clean
  {
    clean := true;
    ghost var now, time := host.tree, host.clock;
    if w.staging in host.tree {
      clean := host.RemoveTree(w.staging);
      FailedAgain(host.fails, from, time);
      Cleaned(before, now, host.tree, w, w.staging);
      BackupStays(now, host.tree, w);
      RemoveClears(now, w.staging);
    }
    SettledEnds(before, host.tree, source, w, files, movedPrevious, TwoFail(host.fails, from, host.clock));
  }

  method SettleBackup(host: Host, source: Path, w: Places, files: seq<Path>, movedPrevious: bool, ghost before: Tree,
                      ghost from: nat) returns (clean: bool)
    requires ArePlaces(w) && from <= host.clock && NothingUnder(host.tree, w.staging)
    requires Settled(before, host.tree, source, w, files, movedPrevious, TwoFail(host.fails, from, host.clock))
    requires w.backup in host.tree ==> SomeFails(host.fails, from, host.clock)
    modifies host`tree, host`clock
    ensures host.clock >= old(host.clock)
    ensures Ended(before, host.tree, source, w, files, TwoFail(host.fails, from, host.clock))
    ensures IsSwapped(before, old(host.tree), source, w, files) ==> IsExported(before, host.tree, source, w.dest, files)
    ensures clean ==> NoTemporaries(host.tree, w)
    ensures !clean ==> TwoFail(host.fails, from, host.clock)
  {
    clean := true;
    ghost var now, time := host.tree, host.clock;
    PlacesTaken(now, w);
    if movedPrevious && w.backup in host.tree && w.dest !in host.tree {
      assert IsMissing(before, now, w) && !IsSwapped(before, now, source, w, files);
      MovedBack(before, now, w);
      BackIn(now, w);
      clean := host.Rename(w.backup, w.dest);
      FailedAgain(host.fails, from, time);
    } else if w.backup in host.tree {
      assert IsSwapped(before, now, source, w, files);
      clean := host.RemoveTree(w.backup);
      FailedAgain(host.fails, from, time);
      Cleaned(before, now, host.tree, w, w.backup);
      RemoveClears(now, w.backup);
    }
  }

  /** One more operation, after a failure. */
  lemma {:induction false} FailedAgain(fails: nat -> bool, from: nat, time: nat)
    requires from <= time
    ensures SomeFails(fails, from, time) ==> SomeFails(fails, from, time + 1)
    ensures TwoFail(fails, from, time) || (SomeFails(fails, from, time) && fails(time)) ==>
              TwoFail(fails, from, time + 1)
  {
  }

  lemma {:induction false} PlacesTaken(t: Tree, w: Places)
    ensures NothingUnder(t, w.dest) ==> w.dest !in t
    ensures NothingUnder(t, w.staging) ==> w.staging !in t
    ensures NothingUnder(t, w.backup) ==> w.backup !in t
  {
    assert forall r :: NothingUnder(t, r) ==> NothingAt(t, r, r);
  }

  lemma {:induction false} BackIn(t: Tree, w: Places)
    requires ArePlaces(w) && NothingUnder(t, w.staging)
    ensures NothingUnder(Move(t, w.backup, w.dest), w.staging)
  {
    MoveAvoids(t, w.backup, w.dest, w.staging);
    NothingMeansEmpty(t, w.staging);
    NothingMeansEmpty(Move(t, w.backup, w.dest), w.staging);
  }
}
