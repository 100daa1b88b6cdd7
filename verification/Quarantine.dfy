/**
  * Renaming a set of paths aside, one after the other, and renaming them back in reverse order
  * (code_auditor/db.py). Paths may lie inside one another.
  */
module Quarantine {
  import opened FileSystem

  datatype Moved = Moved(src: Path, dst: Path)

  /** A path without temporary components from number n on. */
  predicate IsOld(p: Path, n: nat) {
    forall i :: 0 <= i < |p| ==> p[i].Temporary? ==> p[i].token < n
  }

  ghost predicate AllOld(t: Tree, n: nat) {
    forall p :: OldAt(t, n, p)
  }

  predicate OldAt(t: Tree, n: nat, p: Path) {
    p in t ==> IsOld(p, n)
  }

  /** The tree after the recorded renames. */
  function Staged(t: Tree, q: seq<Moved>): Tree {
    if q == [] then t else Move(Staged(t, q[..|q| - 1]), q[|q| - 1].src, q[|q| - 1].dst)
  }

  /** Each rename moved an existing path to an unused name. */
  ghost predicate IsStaging(t: Tree, q: seq<Moved>) {
    forall i :: IsStagingAt(t, q, i)
  }

  ghost predicate IsStagingAt(t: Tree, q: seq<Moved>, i: int) {
    0 <= i < |q| ==>
      && q[i].src in Staged(t, q[..i]) && Apart(q[i].src, q[i].dst) && NothingUnder(Staged(t, q[..i]), q[i].dst)
  }

  /** Apart from new temporary names, exactly the subtrees of the removed paths are missing. */
  ghost predicate OldWithout(t: Tree, now: Tree, n: nat, removed: set<Path>) {
    forall p :: OldWithoutAt(t, now, n, removed, p)
  }

  ghost predicate OldWithoutAt(t: Tree, now: Tree, n: nat, removed: set<Path>, p: Path) {
    IsOld(p, n) ==>
      && (p in now <==> p in t && !CoveredBy(p, removed))
      && (p in now ==> now[p] == t[p])
  }

  predicate CoveredBy(p: Path, roots: set<Path>) {
    exists r :: r in roots && r <= p
  }

  lemma {:induction false} OldPrefix(p: Path, q: Path, n: nat)
    requires q <= p && IsOld(p, n)
    ensures IsOld(q, n)
  {
  }

  lemma {:induction false} OldLater(p: Path, n: nat, m: nat)
    requires IsOld(p, n) && n <= m
    ensures IsOld(p, m)
  {
  }

  /** A quarantine name is not an old path, so nothing old lies under it. */
  lemma {:induction false} QuarantineIsNew(src: Path, n: nat, m: nat)
    requires src != [] && IsOld(src, n) && n <= m
    ensures !IsOld(Sibling(src, Purge, m), n) && IsOld(Sibling(src, Purge, m), m + 1)
    ensures Apart(src, Sibling(src, Purge, m))
  {
    var dst := Sibling(src, Purge, m);
    assert dst[|src| - 1] == Temporary(src[|src| - 1], Purge, m);
    assert src[|src| - 1] != dst[|src| - 1];
  }

  lemma {:induction false} NothingOldUnder(t: Tree, n: nat, dst: Path)
    requires AllOld(t, n) && !IsOld(dst, n)
    ensures NothingUnder(t, dst)
  {
    forall p
      ensures NothingAt(t, dst, p)
    {
      assert OldAt(t, n, p);
      if p in t && dst <= p {
        OldPrefix(p, dst, n);
      }
    }
  }

  /** What one rename to a quarantine name does to the old paths. */
  lemma {:induction false} OneMoreAside(t: Tree, now: Tree, n: nat, m: nat, removed: set<Path>, src: Path)
    requires IsOld(src, n) && n <= m && src != [] && OldWithout(t, now, n, removed)
    ensures OldWithout(t, Move(now, src, Sibling(src, Purge, m)), n, removed + {src})
  {
    var dst := Sibling(src, Purge, m);
    QuarantineIsNew(src, n, m);
    forall p
      ensures OldWithoutAt(t, Move(now, src, dst), n, removed + {src}, p)
    {
      assert OldWithoutAt(t, now, n, removed, p);
      if IsOld(p, n) && dst <= p {
        OldPrefix(p, dst, n);
      }
      assert CoveredBy(p, removed + {src}) <==> CoveredBy(p, removed) || src <= p;
    }
  }

  lemma {:induction false} AsideStaysOld(t: Tree, src: Path, m: nat)
    requires AllOld(t, m) && src != [] && IsOld(src, m)
    ensures AllOld(Move(t, src, Sibling(src, Purge, m)), m + 1)
  {
    var dst := Sibling(src, Purge, m);
    var next := m + 1;
    QuarantineIsNew(src, m, m);
    forall p
      ensures OldAt(Move(t, src, dst), next, p)
    {
      assert OldAt(t, m, Origin(p, src, dst));
    }
  }

  /** A path that does not exist has nothing below it, so there is nothing to set aside. */
  lemma {:induction false} AbsentIsCovered(t: Tree, now: Tree, n: nat, removed: set<Path>, src: Path)
    requires IsTree(now) && src !in now && OldWithout(t, now, n, removed)
    ensures OldWithout(t, now, n, removed + {src})
  {
    forall p
      ensures OldWithoutAt(t, now, n, removed + {src}, p)
    {
      assert OldWithoutAt(t, now, n, removed, p);
      if p in now && src <= p {
        AncestorsExist(now, p, src);
      }
      assert CoveredBy(p, removed + {src}) <==> CoveredBy(p, removed) || src <= p;
    }
  }

  lemma {:induction false} StagingExtends(t: Tree, q: seq<Moved>, m: Moved)
    requires IsStaging(t, q) && m.src in Staged(t, q) && Apart(m.src, m.dst) && NothingUnder(Staged(t, q), m.dst)
    ensures IsStaging(t, q + [m]) && Staged(t, q + [m]) == Move(Staged(t, q), m.src, m.dst)
  {
    var q' := q + [m];
    assert q'[..|q|] == q;
    forall i
      ensures IsStagingAt(t, q', i)
    {
      assert IsStagingAt(t, q, i);
      assert 0 <= i < |q| ==> q'[..i] == q[..i];
    }
  }

  /** Everything that is in a staged tree under a new name lies under a recorded quarantine name. */
  ghost predicate NewUnderQuarantine(now: Tree, n: nat, q: seq<Moved>) {
    forall p :: NewUnderAt(now, n, q, p)
  }

  ghost predicate NewUnderAt(now: Tree, n: nat, q: seq<Moved>, p: Path) {
    p in now && !IsOld(p, n) ==> exists i :: 0 <= i < |q| && q[i].dst <= p
  }

  lemma {:induction false} NewUnderExtends(now: Tree, n: nat, q: seq<Moved>, m: Moved)
    requires NewUnderQuarantine(now, n, q)
    ensures NewUnderQuarantine(Move(now, m.src, m.dst), n, q + [m])
  {
    forall p
      ensures NewUnderAt(Move(now, m.src, m.dst), n, q + [m], p)
    {
      assert NewUnderAt(now, n, q, p);
      if m.dst <= p {
        assert (q + [m])[|q|].dst <= p;
      } else if p in Move(now, m.src, m.dst) && !IsOld(p, n) {
        var i :| 0 <= i < |q| && q[i].dst <= p;
        assert (q + [m])[i].dst <= p;
      }
    }
  }

  // ----- the loops ---------------------------------------------------------------------

  /** The renames so far are recorded in q. */
  ghost predicate Recorded(t: Tree, now: Tree, q: seq<Moved>) {
    IsStaging(t, q) && now == Staged(t, q)
  }

  /** Only covered paths are gone, and everything new lies under a recorded name. */
  ghost predicate SetAside(t: Tree, now: Tree, n: nat, q: seq<Moved>, covered: set<Path>) {
    && IsTree(now) && AllOld(now, n + |q|)
    && OldWithout(t, now, n, covered)
    && NewUnderQuarantine(now, n, q)
    && forall i :: NewNameAt(q, n, i)
  }

  predicate NewNameAt(q: seq<Moved>, n: nat, i: int) {
    0 <= i < |q| ==> !IsOld(q[i].dst, n)
  }

  /** Everything the staging loop maintains. */
  ghost predicate StagingState(t: Tree, now: Tree, n: nat, q: seq<Moved>, covered: set<Path>) {
    Recorded(t, now, q) && SetAside(t, now, n, q, covered)
  }

  function Aside(src: Path, n: nat, q: seq<Moved>): Moved
    requires src != []
  {
    Moved(src, Sibling(src, Purge, n + |q|))
  }

  lemma {:induction false} RecordedStep(t: Tree, now: Tree, n: nat, q: seq<Moved>, src: Path)
    requires Recorded(t, now, q) && AllOld(now, n + |q|) && IsOld(src, n) && src != [] && src in now
    ensures Recorded(t, Move(now, src, Aside(src, n, q).dst), q + [Aside(src, n, q)])
  {
    NewNameIsFree(now, n, n + |q|, src);
    StagingExtends(t, q, Aside(src, n, q));
  }

  lemma {:induction false} SetAsideStep(t: Tree, now: Tree, n: nat, q: seq<Moved>, covered: set<Path>, src: Path)
    requires SetAside(t, now, n, q, covered) && IsOld(src, n) && src != [] && src in now
    ensures SetAside(t, Move(now, src, Aside(src, n, q).dst), n, q + [Aside(src, n, q)], covered + {src})
  {
    var m := Aside(src, n, q);
    NewNameIsFree(now, n, n + |q|, src);
    NewUnderExtends(now, n, q, m);
    NewNamesExtend(q, n, m);
    OneMoreAside(t, now, n, n + |q|, covered, src);
    AsideIsTree(now, n, n + |q|, src);
  }

  lemma {:induction false} NewNameIsFree(now: Tree, n: nat, k: nat, src: Path)
    requires AllOld(now, k) && n <= k && IsOld(src, n) && src != []
    ensures Apart(src, Sibling(src, Purge, k)) && NothingUnder(now, Sibling(src, Purge, k))
    ensures !IsOld(Sibling(src, Purge, k), n)
  {
    QuarantineIsNew(src, n, k);
    OldLater(src, n, k);
    QuarantineIsNew(src, k, k);
    NothingOldUnder(now, k, Sibling(src, Purge, k));
  }

  lemma {:induction false} NewNamesExtend(q: seq<Moved>, n: nat, m: Moved)
    requires !IsOld(m.dst, n) && forall i :: NewNameAt(q, n, i)
    ensures forall i :: NewNameAt(q + [m], n, i)
  {
    forall i
      ensures NewNameAt(q + [m], n, i)
    {
      assert NewNameAt(q, n, i);
    }
  }

  lemma {:induction false} AsideIsTree(now: Tree, n: nat, k: nat, src: Path)
    requires IsTree(now) && AllOld(now, k) && n <= k && IsOld(src, n) && src != [] && src in now
    ensures IsTree(Move(now, src, Sibling(src, Purge, k))) && AllOld(Move(now, src, Sibling(src, Purge, k)), k + 1)
  {
    NewNameIsFree(now, n, k, src);
    OldLater(src, n, k);
    AsideStaysOld(now, src, k);
    AsideKeepsTree(now, src, k);
  }

  lemma {:induction false} AsideKeepsTree(t: Tree, src: Path, m: nat)
    requires IsTree(t) && src in t && src != [] && NothingUnder(t, Sibling(src, Purge, m))
    requires Apart(src, Sibling(src, Purge, m))
    ensures IsTree(Move(t, src, Sibling(src, Purge, m)))
  {
    assert IsTreeAt(t, src);
    MoveKeepsTree(t, src, Sibling(src, Purge, m));
  }

  lemma {:induction false} StagingStart(t: Tree, n: nat)
    requires IsTree(t) && AllOld(t, n)
    ensures StagingState(t, t, n, [], {})
  {
    forall i
      ensures IsStagingAt(t, [], i)
    {
    }
    forall p
      ensures OldWithoutAt(t, t, n, {}, p) && NewUnderAt(t, n, [], p)
    {
      assert OldAt(t, n, p);
    }
  }

  /** Set every existing target aside. The first failure stops the loop. */
  method Stage(host: Host, targets: set<Path>, n: nat) returns (ok: bool, q: seq<Moved>, ghost done: set<Path>)
    requires IsTree(host.tree) && AllOld(host.tree, n)
    requires forall p :: p in targets ==> p != [] && IsOld(p, n)
    modifies host`tree, host`clock
    ensures host.clock >= old(host.clock)
    ensures StagingState(old(host.tree), host.tree, n, q, done)
    ensures ok ==> done == targets
    ensures !ok ==> SomeFails(host.fails, old(host.clock), host.clock)
  {
    q := [];
    var todo := targets;
    done := {};
    StagingStart(host.tree, n);
    while todo != {}
      invariant todo + done == targets && host.clock >= old(host.clock)
      invariant StagingState(old(host.tree), host.tree, n, q, done)
      decreases todo
    {
      var src :| src in todo;
      ghost var now := host.tree;
      if src in host.tree {
        RecordedStep(old(host.tree), now, n, q, src);
        SetAsideStep(old(host.tree), now, n, q, done, src);
        var m := Aside(src, n, q);
        ghost var time := host.clock;
        ok := host.Rename(src, m.dst);
        if !ok {
          FailedByNow(host.fails, old(host.clock), time);
          return;
        }
        q := q + [m];
      } else {
        AbsentIsCovered(old(host.tree), now, n, done, src);
      }
      todo, done := todo - {src}, done + {src};
    }
    assert done == targets;
    ok := true;
  }

  /**
    * Rename everything back, last first. When none of these renames fails this restores the tree exactly,
    * also when one path was set aside inside another.
    */
  method Restore(host: Host, q: seq<Moved>, ghost t: Tree)
    requires Recorded(t, host.tree, q)
    modifies host`tree, host`clock
    ensures host.clock >= old(host.clock)
    ensures SomeFails(host.fails, old(host.clock), host.clock) || host.tree == t
  {
    var i := |q|;
    ghost var failed := false;
    assert q[..i] == q;
    while i > 0
      invariant 0 <= i <= |q| && host.clock >= old(host.clock)
      invariant failed ==> SomeFails(host.fails, old(host.clock), host.clock)
      invariant failed || host.tree == Staged(t, q[..i])
    {
      i := i - 1;
      RenameBack(t, q, i);
      if q[i].dst in host.tree && q[i].src !in host.tree {
        ghost var time := host.clock;
        var ok := host.Rename(q[i].dst, q[i].src);
        failed := failed || !ok;
        FailedByNow(host.fails, old(host.clock), time);
      }
    }
  }

  lemma {:induction false} StagedOneMore(t: Tree, q: seq<Moved>, i: nat)
    requires i < |q|
    ensures Staged(t, q[..i + 1]) == Move(Staged(t, q[..i]), q[i].src, q[i].dst)
  {
    assert q[..i + 1][..i] == q[..i];
  }

  lemma {:induction false} MovedAway(t: Tree, src: Path, dst: Path)
    requires src in t && Apart(src, dst)
    ensures dst in Move(t, src, dst) && src !in Move(t, src, dst)
  {
    assert Origin(dst, src, dst) == src;
  }

  lemma {:induction false} RenameBack(t: Tree, q: seq<Moved>, i: nat)
    requires i < |q| && IsStaging(t, q)
    ensures Move(Staged(t, q[..i + 1]), q[i].dst, q[i].src) == Staged(t, q[..i])
    ensures q[i].dst in Staged(t, q[..i + 1]) && q[i].src !in Staged(t, q[..i + 1])
  {
    assert IsStagingAt(t, q, i);
    StagedOneMore(t, q, i);
    MoveBack(Staged(t, q[..i]), q[i].src, q[i].dst);
    MovedAway(Staged(t, q[..i]), q[i].src, q[i].dst);
  }

  // ----- erasing what was set aside -------------------------------------------------------

  lemma {:induction false} ErasedOne(t: Tree, now: Tree, after: Tree, n: nat, removed: set<Path>, dst: Path)
    requires OldWithout(t, now, n, removed) && SameOutside(now, after, dst) && !IsOld(dst, n)
    ensures OldWithout(t, after, n, removed)
  {
    forall p
      ensures OldWithoutAt(t, after, n, removed, p)
    {
      assert OldWithoutAt(t, now, n, removed, p) && SameOutsideAt(now, after, dst, p);
      if IsOld(p, n) && dst <= p {
        OldPrefix(p, dst, n);
      }
    }
  }

  lemma {:induction false} RemoveKeepsTree(t: Tree, root: Path)
    requires IsTree(t)
    ensures IsTree(Remove(t, root))
  {
    forall p
      ensures IsTreeAt(Remove(t, root), p)
    {
      assert IsTreeAt(t, p);
      if p != [] {
        ParentUnder(root, p);
      }
    }
  }

  /** Once every quarantined subtree is gone, only old paths are left. */
  ghost predicate ErasedUpTo(now: Tree, n: nat, q: seq<Moved>, i: int) {
    IsTree(now) && NewUnderQuarantine(now, n, q) && forall k :: ErasedAt(now, q, i, k)
  }

  ghost predicate ErasedAt(now: Tree, q: seq<Moved>, i: int, k: int) {
    0 <= k < i && k < |q| ==> NothingUnder(now, q[k].dst)
  }

  lemma {:induction false} ErasedStep(now: Tree, n: nat, q: seq<Moved>, i: nat)
    requires i < |q| && ErasedUpTo(now, n, q, i)
    ensures ErasedUpTo(Remove(now, q[i].dst), n, q, i + 1)
    ensures q[i].dst !in now ==> ErasedUpTo(now, n, q, i + 1)
  {
    var after := Remove(now, q[i].dst);
    RemoveKeepsTree(now, q[i].dst);
    RemoveClears(now, q[i].dst);
    forall p
      ensures NewUnderAt(after, n, q, p)
    {
      assert NewUnderAt(now, n, q, p);
    }
    var next := i + 1;
    forall k
      ensures ErasedAt(after, q, next, k)
    {
      assert ErasedAt(now, q, i, k);
      if 0 <= k < i {
        FewerUnder(now, after, q[k].dst);
      }
    }
    if q[i].dst !in now {
      forall p
        ensures NothingAt(now, q[i].dst, p)
      {
        if p in now && q[i].dst <= p {
          AncestorsExist(now, p, q[i].dst);
        }
      }
      forall k
        ensures ErasedAt(now, q, next, k)
      {
        assert ErasedAt(now, q, i, k);
      }
    }
  }

  /** Erase the quarantined subtrees; a failure only leaves something under a quarantine name. */
  method Erase(host: Host, q: seq<Moved>, n: nat, ghost t: Tree, ghost removed: set<Path>)
    requires StagingState(t, host.tree, n, q, removed)
    modifies host`tree, host`clock
    ensures host.clock >= old(host.clock)
    ensures OldWithout(t, host.tree, n, removed)
    ensures SomeFails(host.fails, old(host.clock), host.clock) || AllOld(host.tree, n)
  {
    var i := 0;
    ghost var failed := false;
    assert forall k :: ErasedAt(host.tree, q, 0, k);
    while i < |q|
      invariant 0 <= i <= |q| && host.clock >= old(host.clock)
      invariant OldWithout(t, host.tree, n, removed)
      invariant failed ==> SomeFails(host.fails, old(host.clock), host.clock)
      invariant failed || ErasedUpTo(host.tree, n, q, i)
    {
      ghost var now, time := host.tree, host.clock;
      if !failed {
        ErasedStep(now, n, q, i);
      }
      if q[i].dst in host.tree {
        var ok := host.RemoveTree(q[i].dst);
        failed := failed || !ok;
        assert NewNameAt(q, n, i);
        ErasedOne(t, now, host.tree, n, removed, q[i].dst);
        FailedByNow(host.fails, old(host.clock), time);
      }
      i := i + 1;
    }
    if !failed {
      OnlyOldLeft(host.tree, n, q);
    }
  }

  lemma {:induction false} AbsentUnder(t: Tree, root: Path, p: Path)
    requires NothingUnder(t, root) && root <= p
    ensures p !in t
  {
    assert NothingAt(t, root, p);
  }

  lemma {:induction false} OnlyOldLeft(now: Tree, n: nat, q: seq<Moved>)
    requires ErasedUpTo(now, n, q, |q|)
    ensures AllOld(now, n)
  {
    forall p
      ensures OldAt(now, n, p)
    {
      assert NewUnderAt(now, n, q, p);
      if p in now && !IsOld(p, n) {
        var k :| 0 <= k < |q| && q[k].dst <= p;
        assert ErasedAt(now, q, |q|, k);
        AbsentUnder(now, q[k].dst, p);
      }
    }
  }

  /** With nothing new left over, the tree is the old one without the removed subtrees. */
  lemma {:induction false} ExactlyRemoved(t: Tree, now: Tree, n: nat, removed: set<Path>)
    requires AllOld(t, n) && AllOld(now, n) && OldWithout(t, now, n, removed)
    ensures now == map p | p in t && !CoveredBy(p, removed) :: t[p]
  {
    forall p
      ensures p in now <==> p in t && !CoveredBy(p, removed)
      ensures p in now ==> now[p] == t[p]
    {
      assert OldAt(t, n, p) && OldAt(now, n, p) && OldWithoutAt(t, now, n, removed, p);
    }
  }
}
