/**
  * The file system as a map from paths to entries, with the few operations that the transactional
  * code uses (code_auditor/retention.py:551-598, code_auditor/db.py:1424-1548). Paths are sequences of
  * components without links; a temporary sibling such as ".report.purge-<uuid>" is a component of its own
  * that carries the uuid as a number.
  */
module FileSystem {
  datatype Tag = Purge | Retain | Previous

  datatype Component =
    | Name(text: string)
    | Temporary(base: Component, tag: Tag, token: nat)

  type Path = seq<Component>

  datatype Entry = Dir | File(content: string)

  type Tree = map<Path, Entry>

  function Parent(p: Path): Path {
    if p == [] then [] else p[..|p| - 1]
  }

  function Sibling(p: Path, tag: Tag, token: nat): Path
    requires p != []
  {
    Parent(p) + [Temporary(p[|p| - 1], tag, token)]
  }

  /** Every entry but the root lies in a directory. */
  ghost predicate IsTree(t: Tree) {
    forall p :: IsTreeAt(t, p)
  }

  predicate IsTreeAt(t: Tree, p: Path) {
    p in t && p != [] ==> Parent(p) in t && t[Parent(p)] == Dir
  }

  predicate Apart(p: Path, q: Path) {
    !(p <= q) && !(q <= p)
  }

  lemma {:induction false} AncestorsExist(t: Tree, p: Path, q: Path)
    requires IsTree(t) && p in t && q <= p
    ensures q in t && (q != p ==> t[q] == Dir)
    decreases |p|
  {
    if q != p {
      assert IsTreeAt(t, p);
      assert q == Parent(p)[..|q|];
      AncestorsExist(t, Parent(p), q);
    }
  }

  lemma {:induction false} CommonPath(p: Path, q: Path, r: Path)
    requires p <= r && q <= r
    ensures p <= q || q <= p
  {
    assert p == r[..|p|] && q == r[..|q|];
  }

  // ----- moving and removing subtrees ------------------------------------------

  function Rebase(p: Path, from: Path, to: Path): (r: Path)
    requires from <= p
    ensures to <= r && r[|to|..] == p[|from|..]
  {
    to + p[|from|..]
  }

  /** Which path ends up at q when src is renamed to dst. */
  function Origin(q: Path, src: Path, dst: Path): Path {
    if dst <= q then Rebase(q, dst, src) else q
  }

  function MovedKeys(t: Tree, src: Path, dst: Path): set<Path> {
    (set p | p in t && !(src <= p) && !(dst <= p)) + (set p | p in t && src <= p :: Rebase(p, src, dst))
  }

  lemma {:induction false} MovedKey(t: Tree, src: Path, dst: Path, q: Path)
    ensures q in MovedKeys(t, src, dst) <==> Origin(q, src, dst) in t && (dst <= q || !(src <= q))
  {
    if dst <= q && Origin(q, src, dst) in t {
      var p := Rebase(q, dst, src);
      assert Rebase(p, src, dst) == q;
    }
    if q in MovedKeys(t, src, dst) && dst <= q {
      var p :| p in t && src <= p && Rebase(p, src, dst) == q;
      assert Rebase(q, dst, src) == p;
    }
  }

  /** os.replace of a file or a whole directory. */
  function Move(t: Tree, src: Path, dst: Path): (r: Tree)
    ensures forall q :: q in r <==> Origin(q, src, dst) in t && (dst <= q || !(src <= q))
    ensures forall q :: q in r ==> r[q] == t[Origin(q, src, dst)]
  {
    assert forall q :: q in MovedKeys(t, src, dst) <==> Origin(q, src, dst) in t && (dst <= q || !(src <= q)) by {
      forall q
        ensures q in MovedKeys(t, src, dst) <==> Origin(q, src, dst) in t && (dst <= q || !(src <= q))
      {
        MovedKey(t, src, dst, q);
      }
    }
    map q | q in MovedKeys(t, src, dst) :: t[Origin(q, src, dst)]
  }

  /** shutil.rmtree, or unlink of a file. */
  function Remove(t: Tree, root: Path): (r: Tree)
    ensures forall q :: q in r <==> q in t && !(root <= q)
    ensures forall q :: q in r ==> r[q] == t[q]
  {
    map q | q in t && !(root <= q) :: t[q]
  }

  ghost predicate NothingUnder(t: Tree, root: Path) {
    forall p :: NothingAt(t, root, p)
  }

  predicate NothingAt(t: Tree, root: Path, p: Path) {
    p in t ==> !(root <= p)
  }

  /** Two trees hold the same entries outside one subtree. */
  ghost predicate SameOutside(a: Tree, b: Tree, root: Path) {
    forall p :: SameOutsideAt(a, b, root, p)
  }

  predicate SameOutsideAt(a: Tree, b: Tree, root: Path, p: Path) {
    root <= p || (p in a && p in b && a[p] == b[p]) || (p !in a && p !in b)
  }

  /** Renaming back undoes a rename to an unused name. */
  lemma {:induction false} MoveBack(t: Tree, src: Path, dst: Path)
    requires NothingUnder(t, dst) && Apart(src, dst)
    ensures Move(Move(t, src, dst), dst, src) == t
  {
    var m := Move(t, src, dst);
    var r := Move(m, dst, src);
    forall q
      ensures q in r <==> q in t
      ensures q in r ==> r[q] == t[q]
    {
      assert NothingAt(t, dst, q);
      var o := Origin(q, dst, src);
      if src <= q {
        assert dst <= o && Rebase(o, dst, src) == q;
      } else {
        assert o == q;
      }
    }
  }

  lemma {:induction false} ParentUnder(root: Path, p: Path)
    requires p != []
    ensures root <= Parent(p) ==> root <= p
    ensures root <= p && p != root ==> root <= Parent(p)
  {
  }

  lemma {:induction false} RebaseParent(p: Path, from: Path, to: Path)
    requires from <= p && p != from
    ensures from <= Parent(p) && Rebase(Parent(p), from, to) == Parent(Rebase(p, from, to))
  {
  }

  lemma {:induction false} MoveKeepsTree(t: Tree, src: Path, dst: Path)
    requires IsTree(t) && Apart(src, dst) && src != [] && dst != []
    requires NothingUnder(t, dst) && Parent(dst) in t && t[Parent(dst)] == Dir && !(src <= Parent(dst))
    ensures IsTree(Move(t, src, dst))
  {
    var m := Move(t, src, dst);
    forall p
      ensures IsTreeAt(m, p)
    {
      if p != [] && p in m {
        assert IsTreeAt(t, Origin(p, src, dst));
        ParentUnder(dst, p);
        ParentUnder(src, p);
        if dst <= p && p != dst {
          RebaseParent(p, dst, src);
        }
      }
    }
  }

  lemma {:induction false} RemoveClears(t: Tree, root: Path)
    ensures NothingUnder(Remove(t, root), root)
  {
    forall p
      ensures NothingAt(Remove(t, root), root, p)
    {
    }
  }

  lemma {:induction false} FewerUnder(t: Tree, t': Tree, root: Path)
    requires NothingUnder(t, root) && t'.Keys <= t.Keys
    ensures NothingUnder(t', root)
  {
    forall p
      ensures NothingAt(t', root, p)
    {
      assert NothingAt(t, root, p);
    }
  }

  // ----- one subtree, seen from its root ----------------------------------------

  function Subtree(t: Tree, root: Path): (r: Tree)
    ensures forall x :: x in r <==> root + x in t
    ensures forall x :: x in r ==> r[x] == t[root + x]
  {
    var keys := set p | p in t && root <= p :: p[|root|..];
    assert forall x :: x in keys <==> root + x in t by {
      forall x
        ensures x in keys <==> root + x in t
      {
        if root + x in t {
          assert root <= root + x && (root + x)[|root|..] == x;
        }
        if x in keys {
          var p :| p in t && root <= p && x == p[|root|..];
          assert p == root + x;
        }
      }
    }
    map x | x in keys :: t[root + x]
  }

  lemma {:induction false} SubtreeOfMoved(t: Tree, src: Path, dst: Path)
    ensures Subtree(Move(t, src, dst), dst) == Subtree(t, src)
  {
    var a, b := Subtree(Move(t, src, dst), dst), Subtree(t, src);
    forall x
      ensures x in a <==> x in b
      ensures x in a ==> a[x] == b[x]
    {
      assert dst <= dst + x && (dst + x)[|dst|..] == x;
      assert Origin(dst + x, src, dst) == src + x;
    }
  }

  lemma {:induction false} SubtreeUntouched(a: Tree, b: Tree, touched: Path, root: Path)
    requires SameOutside(a, b, touched) && Apart(touched, root)
    ensures Subtree(a, root) == Subtree(b, root)
  {
    forall x
      ensures x in Subtree(a, root) <==> x in Subtree(b, root)
      ensures x in Subtree(a, root) ==> Subtree(a, root)[x] == Subtree(b, root)[x]
    {
      if touched <= root + x {
        CommonPath(touched, root, root + x);
      }
      assert SameOutsideAt(a, b, touched, root + x);
    }
  }

  // ----- the host: a tree, and an oracle that says which operation fails ------------

  class Host {
    var tree: Tree
    var clock: nat
    const fails: nat -> bool

    constructor (tree: Tree, fails: nat -> bool)
      ensures this.tree == tree && this.clock == 0 && this.fails == fails
    {
      this.tree := tree;
      this.clock := 0;
      this.fails := fails;
    }

    /** One operation of the environment: it succeeds unless the oracle says otherwise. */
    method Tick() returns (ok: bool)
      modifies this`clock
      ensures clock == old(clock) + 1
      ensures ok <==> !fails(old(clock))
    {
      ok := !fails(clock);
      clock := clock + 1;
    }

    method MakeDir(p: Path) returns (ok: bool)
      modifies this`tree, this`clock
      ensures clock == old(clock) + 1
      ensures ok <==> !fails(old(clock)) && p !in old(tree)
      ensures tree == if ok then old(tree)[p := Dir] else old(tree)
    {
      ok := Tick();
      ok := ok && p !in tree;
      if ok {
        tree := tree[p := Dir];
      }
    }

    /** A rename is atomic: it happens as a whole or not at all. */
    method Rename(src: Path, dst: Path) returns (ok: bool)
      modifies this`tree, this`clock
      ensures clock == old(clock) + 1
      ensures ok <==> !fails(old(clock)) && src in old(tree)
      ensures tree == if ok then Move(old(tree), src, dst) else old(tree)
    {
      ok := Tick();
      ok := ok && src in tree;
      if ok {
        tree := Move(tree, src, dst);
      }
    }

    /** A recursive delete that fails may already have deleted anything below its root. */
    method RemoveTree(root: Path) returns (ok: bool)
      modifies this`tree, this`clock
      ensures clock == old(clock) + 1
      ensures ok <==> !fails(old(clock)) && root in old(tree)
      ensures ok ==> tree == Remove(old(tree), root)
      ensures SameOutside(old(tree), tree, root) && tree.Keys <= old(tree).Keys
      ensures forall p :: p in tree ==> tree[p] == old(tree)[p]
      ensures !ok && root in old(tree) ==> root in tree
    {
      ok := Tick();
      ok := ok && root in tree;
      if ok {
        tree := Remove(tree, root);
      } else {
        var gone: set<Path> := *;
        tree := map p | p in tree && !(root <= p && p != root && p in gone) :: tree[p];
      }
    }

    /**
      * Copy a regular file into a directory tree that is being built at root, creating the parents
      * below root. A copy that fails may leave anything below root.
      */
    method CopyFile(src: Path, root: Path, rel: Path) returns (ok: bool)
      modifies this`tree, this`clock
      ensures clock == old(clock) + 1
      ensures ok <==> !fails(old(clock)) && src in old(tree) && old(tree)[src].File? && CanCreate(old(tree), root, rel)
      ensures ok ==> tree == WithFile(old(tree), root, rel, old(tree)[src])
      ensures SameOutside(old(tree), tree, root)
      ensures root in old(tree) ==> root in tree
    {
      ok := Tick();
      ok := ok && src in tree && tree[src].File? && CanCreate(tree, root, rel);
      if ok {
        tree := WithFile(tree, root, rel, tree[src]);
      } else {
        var left: Tree := *;
        tree := (map p | p in left && root <= p :: left[p])
                + (map p | p in tree && (!(root <= p) || p == root) :: tree[p]);
      }
    }
  }

  /** The new file does not exist yet, and no file stands where one of its parents must be. */
  predicate CanCreate(t: Tree, root: Path, rel: Path) {
    root + rel !in t && forall k :: 0 <= k < |rel| ==> root + rel[..k] !in t || t[root + rel[..k]] == Dir
  }

  function ParentsBelow(root: Path, rel: Path): set<Path> {
    set k | 0 <= k < |rel| :: root + rel[..k]
  }

  function WithFile(t: Tree, root: Path, rel: Path, e: Entry): Tree {
    t + (map p | p in ParentsBelow(root, rel) :: Dir) + map[root + rel := e]
  }

  /** An operation of a span of time fails. */
  ghost predicate SomeFails(fails: nat -> bool, from: nat, until: nat) {
    exists i: nat :: from <= i < until && fails(i)
  }

  /** Two operations of a span of time fail. */
  ghost predicate TwoFail(fails: nat -> bool, from: nat, until: nat) {
    exists i: nat, j: nat :: from <= i < j < until && fails(i) && fails(j)
  }

  lemma {:induction false} LongerSpan(fails: nat -> bool, from: nat, until: nat, from': nat, until': nat)
    requires from' <= from && until <= until'
    ensures SomeFails(fails, from, until) ==> SomeFails(fails, from', until')
    ensures TwoFail(fails, from, until) ==> TwoFail(fails, from', until')
  {
  }

  /** A failure after a failure is a second one. */
  lemma {:induction false} SecondFailure(fails: nat -> bool, from: nat, now: nat, until: nat)
    requires SomeFails(fails, from, now) && SomeFails(fails, now, until)
    ensures TwoFail(fails, from, until)
  {
    var i: nat :| from <= i < now && fails(i);
    var j: nat :| now <= j < until && fails(j);
  }

  /** One more operation. */
  lemma {:induction false} FailedByNow(fails: nat -> bool, from: nat, time: nat)
    requires from <= time
    ensures SomeFails(fails, from, time) || fails(time) ==> SomeFails(fails, from, time + 1)
  {
  }
}
