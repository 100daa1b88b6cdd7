/**
  * Deleting build directories of reviewed findings (code_auditor/review_cleanup.py): which targets a
  * plan selects, and what applying it can and cannot delete.
  */
module ReviewCleanup {
  import opened Wrappers
  import opened FileSystem

  // ----- the database, as the cleanup reads it --------------------------------------

  datatype Review = Unreviewed | Reported | Confirmed | Rejected | Duplicated | Triage | BugStatus | Slop
                  | Unknown(text: string)

  datatype Mapping = Mapping(reproduced: bool, review: Option<Review>)

  datatype Database =
    Database(active: set<Path>, mappings: map<(Path, Component), seq<Mapping>>, registered: set<Path>)

  datatype Gate = Unmapped | NotReproduced | ReviewUnknown | NotReviewed | Eligible | ActiveOutput

  /** The reviews of the reproduced findings among the mappings. */
  function Reviews(ms: seq<Mapping>): set<Option<Review>> {
    set m | m in ms && m.reproduced :: m.review
  }

  function ReviewGate(ms: seq<Mapping>): Gate {
    var reviews := Reviews(ms);
    if ms == [] then Unmapped
    else if reviews == {} then NotReproduced
    else if None in reviews || exists r :: r in reviews && r.Some? && r.value.Unknown? then ReviewUnknown
    else if Some(Unreviewed) in reviews then NotReviewed
    else Eligible
  }

  /** The gate opens exactly when some finding was reproduced and every reproduced one has been reviewed. */
  lemma {:induction false} GateIsOpen(ms: seq<Mapping>)
    ensures ReviewGate(ms) == Eligible <==>
            && (exists m :: m in ms && m.reproduced)
            && (forall m :: m in ms && m.reproduced ==>
                              m.review.Some? && m.review.value != Unreviewed && !m.review.value.Unknown?)
  {
    var reviews := Reviews(ms);
    assert forall m :: m in ms && m.reproduced ==> m.review in reviews;
    assert forall r :: r in reviews ==> exists m :: m in ms && m.reproduced && m.review == r;
  }

  function MappingsOf(db: Database, output: Path, vuln: Component): seq<Mapping> {
    if (output, vuln) in db.mappings then db.mappings[(output, vuln)] else []
  }

  // ----- artifacts and candidates ------------------------------------------------------

  /** What the plan asks of names and manifests: the rules are the same for any answers. */
  datatype Rules = Rules(
    isDisposable: Component -> bool,
    isKeyFile: Component -> bool,
    isOutput: Component -> bool,
    manifestPaths: (Tree, Path) -> Option<set<Path>>)

  const STAGE5 := Name("stage5-pocs")
  const STAGE6 := Name("stage6-disclosures")
  const DISCLOSURE_DIR := Name("disclosure")
  const LEFTOVERS := Name("_merged-leftovers")
  const SHARED: seq<Component> := [Name(".poc-worktree"), Name("toolchain")]

  predicate IsDir(t: Tree, p: Path) {
    p in t && t[p] == Dir
  }

  /** Managed output directories lie exactly two levels below the results root. */
  predicate IsOutputDir(t: Tree, root: Path, rules: Rules, o: Path) {
    && IsDir(t, o) && root <= o && |o| == |root| + 2
    && o[|root|] != LEFTOVERS && rules.isOutput(o[|root| + 1])
  }

  datatype Artifact = Stage5Artifact(output: Path, dir: Component) | Stage6Artifact(output: Path, dir: Component)
  {
    function Path(): Path {
      if Stage5Artifact? then output + [STAGE5, dir] else output + [STAGE6, dir, DISCLOSURE_DIR]
    }

    function VulnId(): Component {
      if Stage5Artifact? then WithoutSuffix(dir) else dir
    }
  }

  /** str.removesuffix("_fp") of a directory name. */
  function WithoutSuffix(c: Component): Component {
    if c.Name? && |c.text| >= 3 && c.text[|c.text| - 3..] == "_fp" then Name(c.text[..|c.text| - 3]) else c
  }

  function GateOf(db: Database, a: Artifact): Gate {
    ReviewGate(MappingsOf(db, a.output, a.VulnId()))
  }

  function ReviewsOf(db: Database, a: Artifact): set<Option<Review>> {
    Reviews(MappingsOf(db, a.output, a.VulnId()))
  }

  /** In the plan a running audit overrides the gate. */
  function PlanGate(db: Database, a: Artifact): Gate {
    if a.output in db.active then ActiveOutput else GateOf(db, a)
  }

  /** A directory below the artifact that the walk offers: disposable, and in no other disposable one. */
  predicate IsInside(t: Tree, rules: Rules, a: Artifact, p: Path) {
    && IsDir(t, p) && a.Path() <= p && |p| > |a.Path()|
    && rules.isDisposable(p[|p| - 1])
    && forall k :: |a.Path()| <= k < |p| - 1 ==> !rules.isDisposable(p[k])
  }

  /** For Stage 6, also the disposable siblings of the disclosure directory. */
  predicate IsBeside(t: Tree, rules: Rules, a: Artifact, p: Path) {
    && a.Stage6Artifact? && IsDir(t, p) && p != a.Path()
    && p != [] && Parent(p) == Parent(a.Path())
    && rules.isDisposable(p[|p| - 1])
  }

  // ----- blockers ---------------------------------------------------------------------

  /** A registered or retained path inside the target, or a key file below it. */
  predicate IsBlocked(t: Tree, rules: Rules, target: Path, protected: set<Path>) {
    || (exists p :: p in protected && target <= p)
    || (exists f :: f in t && IsKeyFileBelow(t, rules, target, f))
  }

  predicate IsKeyFileBelow(t: Tree, rules: Rules, target: Path, f: Path) {
    f in t && target <= f && f != target && t[f].File? && rules.isKeyFile(f[|f| - 1])
  }

  // ----- plan items ---------------------------------------------------------------------

  datatype Item =
    | ArtifactItem(path: Path, artifact: Artifact, reviews: set<Option<Review>>)
    | SharedItem(path: Path, output: Path)
  {
    function Output(): Path {
      if ArtifactItem? then artifact.output else output
    }
  }

  function ArtifactsOf(t: Tree, o: Path): set<Artifact> {
    (set p | p in t && t[p] == Dir && |p| == |o| + 2 && p[..|o| + 1] == o + [STAGE5] :: Stage5Artifact(o, p[|o| + 1]))
    + (set p | p in t && t[p] == Dir && |p| == |o| + 3 && p[..|o| + 1] == o + [STAGE6]
               && p[|o| + 2] == DISCLOSURE_DIR ::
         Stage6Artifact(o, p[|o| + 1]))
  }

  lemma {:induction false} DirectoryIsListed(t: Tree, o: Path, a: Artifact)
    requires a.output == o && IsDir(t, a.Path())
    ensures a in ArtifactsOf(t, o)
  {
    var p := a.Path();
    assert p[..|o| + 1] == if a.Stage5Artifact? then o + [STAGE5] else o + [STAGE6];
  }

  lemma {:induction false} ListedIsDirectory(t: Tree, o: Path, a: Artifact)
    requires a in ArtifactsOf(t, o)
    ensures a.output == o && IsDir(t, a.Path())
  {
    var q :| q in t && t[q] == Dir && |q| == |o| + (if a.Stage5Artifact? then 2 else 3)
             && q[..|o| + 1] == (if a.Stage5Artifact? then o + [STAGE5] else o + [STAGE6]) && a.dir == q[|o| + 1]
             && (a.Stage6Artifact? ==> q[|o| + 2] == DISCLOSURE_DIR);
    assert q == a.Path();
  }

  lemma {:induction false} ArtifactsAreDirectories(t: Tree, o: Path, a: Artifact)
    ensures a in ArtifactsOf(t, o) <==> a.output == o && IsDir(t, a.Path())
  {
    if a.output == o && IsDir(t, a.Path()) {
      DirectoryIsListed(t, o, a);
    }
    if a in ArtifactsOf(t, o) {
      ListedIsDirectory(t, o, a);
    }
  }

  function Retained(t: Tree, rules: Rules, a: Artifact): set<Path> {
    var m := rules.manifestPaths(t, a.Path());
    if m.Some? then m.value else {}
  }

  predicate HasValidManifest(t: Tree, rules: Rules, a: Artifact) {
    rules.manifestPaths(t, a.Path()).Some?
  }

  function RetainedInAll(t: Tree, rules: Rules, artifacts: set<Artifact>): set<Path> {
    set a, p | a in artifacts && p in Retained(t, rules, a) :: p
  }

  /** What must not lie inside a target: registered paths, and what the manifests retain. */
  function ProtectedFor(t: Tree, db: Database, rules: Rules, item: Item): set<Path> {
    db.registered + if item.ArtifactItem? then Retained(t, rules, item.artifact)
                    else RetainedInAll(t, rules, ArtifactsOf(t, item.output))
  }

  predicate IsItemBlocked(t: Tree, db: Database, rules: Rules, item: Item) {
    IsBlocked(t, rules, item.path, ProtectedFor(t, db, rules, item))
  }

  // ----- the plan -----------------------------------------------------------------------

  /** The shared build directories, when every artifact of the output is reviewed and has a valid manifest. */
  function SharedItems(t: Tree, db: Database, rules: Rules, o: Path): set<Item> {
    var artifacts := ArtifactsOf(t, o);
    if artifacts == {} || exists a :: a in artifacts && (PlanGate(db, a) != Eligible || !HasValidManifest(t, rules, a))
    then {}
    else set i | 0 <= i < |SHARED| && IsDir(t, o + [SHARED[i]]) :: SharedItem(o + [SHARED[i]], o)
  }

  function ArtifactItems(t: Tree, db: Database, rules: Rules, a: Artifact): set<Item> {
    if PlanGate(db, a) != Eligible || !HasValidManifest(t, rules, a) then {} else
      set p | p in t && (IsInside(t, rules, a, p) || IsBeside(t, rules, a, p)) :: ArtifactItem(p, a, ReviewsOf(db, a))
  }

  function OutputItems(t: Tree, db: Database, rules: Rules, o: Path): set<Item> {
    SharedItems(t, db, rules, o) + set a, i | a in ArtifactsOf(t, o) && i in ArtifactItems(t, db, rules, a) :: i
  }

  function OutputDirs(t: Tree, root: Path, rules: Rules): set<Path> {
    set o | o in t && IsOutputDir(t, root, rules, o)
  }

  /** Every directory that the plan considers, blocked or not. */
  function Proposed(t: Tree, db: Database, root: Path, rules: Rules): set<Item> {
    set o, i | o in OutputDirs(t, root, rules) && i in OutputItems(t, db, rules, o) :: i
  }

  predicate SortedByDepth(items: seq<Item>) {
    forall i, j :: 0 <= i < j < |items| ==> |items[i].path| <= |items[j].path|
  }

  function Insert(item: Item, items: seq<Item>): (r: seq<Item>)
    requires SortedByDepth(items)
    ensures SortedByDepth(r) && forall x :: x in r <==> x == item || x in items
  {
    if items == [] then [item]
    else if |item.path| <= |items[0].path| then [item] + items
    else
      var rest := Insert(item, items[1..]);
      assert forall k :: 0 <= k < |rest| ==> rest[k] == item || rest[k] in items[1..];
      assert forall x :: x in items <==> x == items[0] || x in items[1..];
      [items[0]] + rest
  }

  ghost predicate IsAntichain(items: seq<Item>) {
    forall i, j :: AreApart(items, i, j)
  }

  predicate AreApart(items: seq<Item>, i: int, j: int) {
    0 <= i < |items| && 0 <= j < |items| && i != j ==> !(items[i].path <= items[j].path)
  }

  predicate Covers(items: seq<Item>, path: Path) {
    exists k :: 0 <= k < |items| && items[k].path <= path
  }

  /** The selection among the first n items: they are covered, by items from among them. */
  ghost predicate IsSelection(sorted: seq<Item>, n: nat, selected: seq<Item>)
    requires n <= |sorted|
  {
    && IsAntichain(selected)
    && (forall x :: x in selected ==> x in sorted[..n])
    && (forall j :: CoversAt(sorted, n, selected, j))
  }

  predicate CoversAt(sorted: seq<Item>, n: nat, selected: seq<Item>, j: int)
    requires n <= |sorted|
  {
    0 <= j < n ==> Covers(selected, sorted[j].path)
  }

  lemma {:induction false} CoverGrows(items: seq<Item>, item: Item, path: Path)
    requires Covers(items, path) || item.path <= path
    ensures Covers(items + [item], path)
  {
    var more := items + [item];
    if k :| 0 <= k < |items| && items[k].path <= path {
      assert more[k] == items[k];
    } else {
      assert more[|items|] == item;
    }
  }

  lemma {:induction false} SelectionGrows(sorted: seq<Item>, n: nat, selected: seq<Item>)
    requires n < |sorted| && SortedByDepth(sorted) && IsSelection(sorted, n, selected)
    ensures Covers(selected, sorted[n].path) ==> IsSelection(sorted, n + 1, selected)
    ensures !Covers(selected, sorted[n].path) ==> IsSelection(sorted, n + 1, selected + [sorted[n]])
  {
    var next, item := n + 1, sorted[n];
    assert sorted[..next] == sorted[..n] + [item];
    if Covers(selected, item.path) {
      forall j
        ensures CoversAt(sorted, next, selected, j)
      {
        assert CoversAt(sorted, n, selected, j);
      }
    } else {
      var more := selected + [item];
      forall j
        ensures CoversAt(sorted, next, more, j)
      {
        assert CoversAt(sorted, n, selected, j);
        if 0 <= j < next {
          CoverGrows(selected, item, sorted[j].path);
        }
      }
      forall i, j
        ensures AreApart(more, i, j)
      {
        assert AreApart(selected, i, j);
        if 0 <= j < |selected| {
          DeeperIsNotAbove(sorted, n, selected[j]);
        }
      }
    }
  }

  /** A later item is at least as deep, so it can only contain an earlier one if the two are the same path. */
  lemma {:induction false} DeeperIsNotAbove(sorted: seq<Item>, n: nat, x: Item)
    requires n < |sorted| && SortedByDepth(sorted) && x in sorted[..n]
    ensures sorted[n].path <= x.path ==> sorted[n].path == x.path
  {
    var j :| 0 <= j < n && sorted[j] == x;
    assert |sorted[j].path| <= |sorted[n].path|;
  }

  /** The greedy selection: shallow targets first, skipping what an earlier target contains. */
  method SelectTargets(sorted: seq<Item>) returns (selected: seq<Item>)
    requires SortedByDepth(sorted)
    ensures IsAntichain(selected)
    ensures forall x :: x in selected ==> x in sorted
    ensures forall x :: x in sorted ==> Covers(selected, x.path)
  {
    selected := [];
    for i := 0 to |sorted|
      invariant IsSelection(sorted, i, selected)
    {
      var item := sorted[i];
      SelectionGrows(sorted, i, selected);
      if !Covers(selected, item.path) {
        selected := selected + [item];
      }
    }
    forall x | x in sorted
      ensures Covers(selected, x.path)
    {
      var j :| 0 <= j < |sorted| && sorted[j] == x;
      assert CoversAt(sorted, |sorted|, selected, j);
    }
  }

  // ----- what a plan has to be, told without how it is made -----------------------------------

  predicate IsReviewed(m: Mapping) {
    m.review.Some? && m.review.value != Unreviewed && !m.review.value.Unknown?
  }

  /** Something was reproduced, all that was reproduced has been reviewed, and no audit runs there. */
  predicate IsCleared(db: Database, a: Artifact) {
    var ms := MappingsOf(db, a.output, a.VulnId());
    && a.output !in db.active
    && (exists m :: m in ms && m.reproduced) && (forall m :: m in ms && m.reproduced ==> IsReviewed(m))
  }

  /** An artifact directory of a managed output. */
  predicate IsArtifactIn(t: Tree, root: Path, rules: Rules, a: Artifact) {
    IsOutputDir(t, root, rules, a.output) && IsDir(t, a.Path())
  }

  predicate MayBeCleaned(t: Tree, db: Database, root: Path, rules: Rules, a: Artifact) {
    IsArtifactIn(t, root, rules, a) && IsCleared(db, a) && HasValidManifest(t, rules, a)
  }

  /** A disposable directory inside the artifact, at any depth, or beside a disclosure directory. */
  predicate IsDisposableOf(t: Tree, rules: Rules, a: Artifact, p: Path) {
    && IsDir(t, p) && p != [] && rules.isDisposable(p[|p| - 1])
    && ((a.Path() <= p && p != a.Path()) || (a.Stage6Artifact? && Parent(p) == Parent(a.Path()) && p != a.Path()))
  }

  /** Nothing registered, nothing that the artifact retains and no key file lies in it. */
  ghost predicate IsFreeFor(t: Tree, db: Database, rules: Rules, a: Artifact, p: Path) {
    && (forall x :: x in db.registered ==> !(p <= x)) && (forall x :: x in Retained(t, rules, a) ==> !(p <= x))
    && forall x :: x in t && t[x].File? && p <= x && x != p ==> !rules.isKeyFile(x[|x| - 1])
  }

  /** Every artifact of the output may be cleaned, and there is one. */
  ghost predicate AllMayBeCleaned(t: Tree, db: Database, root: Path, rules: Rules, o: Path) {
    && (exists a: Artifact :: a.output == o && IsArtifactIn(t, root, rules, a))
    && forall a: Artifact :: a.output == o && IsArtifactIn(t, root, rules, a) ==> MayBeCleaned(t, db, root, rules, a)
  }

  predicate IsSharedDir(t: Tree, o: Path, p: Path) {
    IsDir(t, p) && (p == o + [Name(".poc-worktree")] || p == o + [Name("toolchain")])
  }

  ghost predicate IsFreeForAll(t: Tree, db: Database, root: Path, rules: Rules, o: Path, p: Path) {
    forall a: Artifact :: a.output == o && IsArtifactIn(t, root, rules, a) ==> IsFreeFor(t, db, rules, a, p)
  }

  /** A target is a free disposable directory of something that may be cleaned. */
  ghost predicate IsRightTarget(t: Tree, db: Database, root: Path, rules: Rules, item: Item) {
    match item
    case ArtifactItem(p, a, reviews) =>
      MayBeCleaned(t, db, root, rules, a) && IsDisposableOf(t, rules, a, p) && IsFreeFor(t, db, rules, a, p)
    case SharedItem(p, o) =>
      AllMayBeCleaned(t, db, root, rules, o) && IsSharedDir(t, o, p) && IsFreeForAll(t, db, root, rules, o, p)
  }

  /** A disposable directory of an artifact that may be cleaned is in a target, or in one that is not free. */
  ghost predicate IsHandled(t: Tree, db: Database, root: Path, rules: Rules, targets: seq<Item>, a: Artifact, p: Path) {
    MayBeCleaned(t, db, root, rules, a) && IsDisposableOf(t, rules, a, p) ==>
      Covers(targets, p) || exists q :: q <= p && IsDisposableOf(t, rules, a, q) && !IsFreeFor(t, db, rules, a, q)
  }

  ghost predicate IsSharedHandled(t: Tree, db: Database, root: Path, rules: Rules, targets: seq<Item>, o: Path, p: Path)
  {
    AllMayBeCleaned(t, db, root, rules, o) && IsSharedDir(t, o, p) ==>
      Covers(targets, p) || !IsFreeForAll(t, db, root, rules, o, p)
  }

  ghost predicate AllHandled(t: Tree, db: Database, root: Path, rules: Rules, targets: seq<Item>) {
    && (IsTree(t) ==> forall a, p :: IsHandled(t, db, root, rules, targets, a, p))
    && forall o, p :: IsSharedHandled(t, db, root, rules, targets, o, p)
  }

  /** The directory of an artifact names its vulnerability; forked proofs have a suffix. */
  lemma {:induction false} SuffixIsDropped(text: string)
    ensures WithoutSuffix(Name(text + "_fp")) == Name(text)
    ensures !(|text| >= 3 && text[|text| - 3..] == "_fp") ==> WithoutSuffix(Name(text)) == Name(text)
  {
    assert (text + "_fp")[|text|..] == "_fp" && (text + "_fp")[..|text|] == text;
  }

  lemma {:induction false} ClearedIsEligible(db: Database, a: Artifact)
    ensures IsCleared(db, a) <==> PlanGate(db, a) == Eligible
  {
    GateIsOpen(MappingsOf(db, a.output, a.VulnId()));
  }

  lemma {:induction false} FreeIsNotBlocked(t: Tree, db: Database, rules: Rules, a: Artifact, p: Path)
    ensures IsFreeFor(t, db, rules, a, p) <==> !IsBlocked(t, rules, p, db.registered + Retained(t, rules, a))
  {
    if IsFreeFor(t, db, rules, a, p) {
      assert forall f :: f in t ==> !IsKeyFileBelow(t, rules, p, f);
    } else if forall x :: x in db.registered + Retained(t, rules, a) ==> !(p <= x) {
      var x :| x in t && t[x].File? && p <= x && x != p && rules.isKeyFile(x[|x| - 1]);
      assert IsKeyFileBelow(t, rules, p, x);
    }
  }

  lemma {:induction false} ProposalFor(t: Tree, db: Database, root: Path, rules: Rules, item: Item)
    returns (a: Artifact)
    requires item in Proposed(t, db, root, rules) && item.ArtifactItem?
    ensures a == item.artifact && a.output in OutputDirs(t, root, rules) && a in ArtifactsOf(t, a.output)
    ensures item in ArtifactItems(t, db, rules, a)
  {
    var o :| o in OutputDirs(t, root, rules) && item in OutputItems(t, db, rules, o);
    a :| a in ArtifactsOf(t, o) && item in ArtifactItems(t, db, rules, a);
    ArtifactsAreDirectories(t, o, a);
  }

  lemma {:induction false} ProposedForArtifact(t: Tree, db: Database, root: Path, rules: Rules, p: Path, a: Artifact)
    ensures ArtifactItem(p, a, ReviewsOf(db, a)) in Proposed(t, db, root, rules) <==>
            MayBeCleaned(t, db, root, rules, a) && (IsInside(t, rules, a, p) || IsBeside(t, rules, a, p))
  {
    var item := ArtifactItem(p, a, ReviewsOf(db, a));
    ArtifactsAreDirectories(t, a.output, a);
    ClearedIsEligible(db, a);
    if item in Proposed(t, db, root, rules) {
      var b := ProposalFor(t, db, root, rules, item);
    }
    if MayBeCleaned(t, db, root, rules, a) && (IsInside(t, rules, a, p) || IsBeside(t, rules, a, p)) {
      assert item in ArtifactItems(t, db, rules, a);
      assert item in OutputItems(t, db, rules, a.output);
    }
  }

  lemma {:induction false} ReviewsAreThose(t: Tree, db: Database, root: Path, rules: Rules, item: Item)
    requires item in Proposed(t, db, root, rules) && item.ArtifactItem?
    ensures item == ArtifactItem(item.path, item.artifact, ReviewsOf(db, item.artifact))
  {
    var o :| o in OutputDirs(t, root, rules) && item in OutputItems(t, db, rules, o);
    var b :| b in ArtifactsOf(t, o) && item in ArtifactItems(t, db, rules, b);
  }

  lemma {:induction false} AllAreEligible(t: Tree, db: Database, root: Path, rules: Rules, o: Path)
    requires IsOutputDir(t, root, rules, o)
    ensures AllMayBeCleaned(t, db, root, rules, o) <==>
            && ArtifactsOf(t, o) != {}
            && forall a :: a in ArtifactsOf(t, o) ==> PlanGate(db, a) == Eligible && HasValidManifest(t, rules, a)
  {
    forall a
      ensures a in ArtifactsOf(t, o) <==> a.output == o && IsArtifactIn(t, root, rules, a)
      ensures IsCleared(db, a) <==> PlanGate(db, a) == Eligible
    {
      ArtifactsAreDirectories(t, o, a);
      ClearedIsEligible(db, a);
    }
    if ArtifactsOf(t, o) != {} {
      var a :| a in ArtifactsOf(t, o);
      assert a.output == o && IsArtifactIn(t, root, rules, a);
    }
  }

  lemma {:induction false} SharedDirs(t: Tree, o: Path, p: Path)
    ensures IsSharedDir(t, o, p) <==> exists i :: 0 <= i < |SHARED| && IsDir(t, o + [SHARED[i]]) && p == o + [SHARED[i]]
  {
    assert SHARED[0] == Name(".poc-worktree") && SHARED[1] == Name("toolchain");
  }

  lemma {:induction false} ProposedShared(t: Tree, db: Database, root: Path, rules: Rules, p: Path, o: Path)
    ensures SharedItem(p, o) in Proposed(t, db, root, rules) <==>
            IsOutputDir(t, root, rules, o) && AllMayBeCleaned(t, db, root, rules, o) && IsSharedDir(t, o, p)
  {
    var item := SharedItem(p, o);
    SharedDirs(t, o, p);
    if IsOutputDir(t, root, rules, o) {
      AllAreEligible(t, db, root, rules, o);
    }
    if item in Proposed(t, db, root, rules) {
      var o' :| o' in OutputDirs(t, root, rules) && item in OutputItems(t, db, rules, o');
      assert item in SharedItems(t, db, rules, o');
    }
    if IsOutputDir(t, root, rules, o) && item in SharedItems(t, db, rules, o) {
      assert o in OutputDirs(t, root, rules) && item in OutputItems(t, db, rules, o);
    }
  }

  /** A directory is free of what several artifacts retain exactly when it is free of what each retains. */
  lemma {:induction false} BlockedByOne(t: Tree, rules: Rules, registered: set<Path>, artifacts: set<Artifact>, p: Path)
    requires artifacts != {}
    ensures !IsBlocked(t, rules, p, registered + RetainedInAll(t, rules, artifacts)) <==>
            forall a :: a in artifacts ==> !IsBlocked(t, rules, p, registered + Retained(t, rules, a))
  {
    var all := registered + RetainedInAll(t, rules, artifacts);
    if !IsBlocked(t, rules, p, all) {
      forall a | a in artifacts
        ensures !IsBlocked(t, rules, p, registered + Retained(t, rules, a))
      {
        assert registered + Retained(t, rules, a) <= all;
      }
    } else if x :| x in all && p <= x {
      var a :| a in artifacts && (x in registered || x in Retained(t, rules, a));
      assert x in registered + Retained(t, rules, a);
    } else {
      var a :| a in artifacts;
    }
  }

  lemma {:induction false} FreeForAllIsNotBlocked(t: Tree, db: Database, root: Path, rules: Rules, o: Path, p: Path)
    requires IsOutputDir(t, root, rules, o) && AllMayBeCleaned(t, db, root, rules, o)
    ensures IsFreeForAll(t, db, root, rules, o, p) <==>
            !IsBlocked(t, rules, p, db.registered + RetainedInAll(t, rules, ArtifactsOf(t, o)))
  {
    forall a
      ensures a in ArtifactsOf(t, o) <==> a.output == o && IsArtifactIn(t, root, rules, a)
      ensures IsFreeFor(t, db, rules, a, p) <==> !IsBlocked(t, rules, p, db.registered + Retained(t, rules, a))
    {
      ArtifactsAreDirectories(t, o, a);
      FreeIsNotBlocked(t, db, rules, a, p);
    }
    var a0: Artifact :| a0.output == o && IsArtifactIn(t, root, rules, a0);
    assert a0 in ArtifactsOf(t, o);
    BlockedByOne(t, rules, db.registered, ArtifactsOf(t, o), p);
  }

  lemma {:induction false} ProposalIsRight(t: Tree, db: Database, root: Path, rules: Rules, item: Item)
    requires item in Proposed(t, db, root, rules) && !IsItemBlocked(t, db, rules, item)
    ensures IsRightTarget(t, db, root, rules, item)
  {
    match item {
      case ArtifactItem(p, a, reviews) =>
        ReviewsAreThose(t, db, root, rules, item);
        ProposedForArtifact(t, db, root, rules, p, a);
        FreeIsNotBlocked(t, db, rules, a, p);
      case SharedItem(p, o) =>
        ProposedShared(t, db, root, rules, p, o);
        FreeForAllIsNotBlocked(t, db, root, rules, o, p);
    }
  }

  /** The outermost disposable directory on the way to one. */
  lemma {:induction false} Outermost(t: Tree, rules: Rules, a: Artifact, p: Path) returns (q: Path)
    requires IsTree(t) && IsDir(t, p) && a.Path() <= p && p != a.Path() && rules.isDisposable(p[|p| - 1])
    ensures q <= p && IsInside(t, rules, a, q)
  {
    var n := |a.Path()|;
    var k := n;
    while !rules.isDisposable(p[k])
      invariant n <= k < |p| && forall i :: n <= i < k ==> !rules.isDisposable(p[i])
      decreases |p| - k
    {
      k := k + 1;
    }
    q := p[..k + 1];
    AncestorsExist(t, p, q);
  }

  lemma {:induction false} DisposableIsHandled(t: Tree, db: Database, root: Path, rules: Rules, targets: seq<Item>,
      blocked: set<Item>, a: Artifact, p: Path)
    requires IsTree(t) && forall i :: i in blocked ==> IsItemBlocked(t, db, rules, i)
    requires forall x :: x in Proposed(t, db, root, rules) - blocked ==> Covers(targets, x.path)
    ensures IsHandled(t, db, root, rules, targets, a, p)
  {
    if MayBeCleaned(t, db, root, rules, a) && IsDisposableOf(t, rules, a, p) {
      var q := p;
      if a.Path() <= p {
        q := Outermost(t, rules, a, p);
      }
      var item := ArtifactItem(q, a, ReviewsOf(db, a));
      ProposedForArtifact(t, db, root, rules, q, a);
      FreeIsNotBlocked(t, db, rules, a, q);
      assert IsDisposableOf(t, rules, a, q);
      if item !in blocked {
        CoverReaches(targets, q, p);
      }
    }
  }

  lemma {:induction false} CoverReaches(items: seq<Item>, q: Path, p: Path)
    requires Covers(items, q) && q <= p
    ensures Covers(items, p)
  {
    var k :| 0 <= k < |items| && items[k].path <= q;
    assert items[k].path <= p;
  }

  lemma {:induction false} SharedIsHandled(t: Tree, db: Database, root: Path, rules: Rules, targets: seq<Item>,
      blocked: set<Item>, o: Path, p: Path)
    requires forall i :: i in blocked ==> IsItemBlocked(t, db, rules, i)
    requires forall x :: x in Proposed(t, db, root, rules) - blocked ==> Covers(targets, x.path)
    ensures IsSharedHandled(t, db, root, rules, targets, o, p)
  {
    if AllMayBeCleaned(t, db, root, rules, o) && IsSharedDir(t, o, p) {
      ProposedShared(t, db, root, rules, p, o);
      FreeForAllIsNotBlocked(t, db, root, rules, o, p);
      if SharedItem(p, o) !in blocked {
        assert Covers(targets, SharedItem(p, o).path);
      }
    }
  }

  /** The artifacts that may be cleaned but for their manifest, which cannot be read. */
  function Refused(t: Tree, db: Database, root: Path, rules: Rules): set<Artifact> {
    set o, a | o in OutputDirs(t, root, rules) && a in ArtifactsOf(t, o) && PlanGate(db, a) == Eligible
               && !HasValidManifest(t, rules, a) :: a
  }

  ghost predicate IsRightlyRefused(t: Tree, db: Database, root: Path, rules: Rules, refused: set<Artifact>,
      a: Artifact) {
    a in refused <==> IsArtifactIn(t, root, rules, a) && IsCleared(db, a) && !HasValidManifest(t, rules, a)
  }

  lemma {:induction false} RefusalIsRight(t: Tree, db: Database, root: Path, rules: Rules, a: Artifact)
    ensures IsRightlyRefused(t, db, root, rules, Refused(t, db, root, rules), a)
  {
    ArtifactsAreDirectories(t, a.output, a);
    ClearedIsEligible(db, a);
    if a in Refused(t, db, root, rules) {
      var o :| o in OutputDirs(t, root, rules) && a in ArtifactsOf(t, o);
      ArtifactsAreDirectories(t, o, a);
    }
    if IsArtifactIn(t, root, rules, a) && IsCleared(db, a) && !HasValidManifest(t, rules, a) {
      assert a.output in OutputDirs(t, root, rules) && a in ArtifactsOf(t, a.output);
    }
  }

  /**
    * The plan: its targets are free disposable directories of artifacts that may be cleaned, none inside
    * another; every such directory is in a target, or in one that is not free. Proposals that are not free
    * are reported apart, and so are artifacts whose manifest cannot be read.
    */
  method BuildPlan(t: Tree, db: Database, root: Path, rules: Rules)
    returns (targets: seq<Item>, blocked: set<Item>, refused: set<Artifact>)
    ensures IsAntichain(targets)
    ensures forall x :: x in targets ==> IsRightTarget(t, db, root, rules, x)
    ensures AllHandled(t, db, root, rules, targets)
    ensures forall a :: IsRightlyRefused(t, db, root, rules, refused, a)
    ensures blocked == set i | i in Proposed(t, db, root, rules) && IsItemBlocked(t, db, rules, i)
    ensures forall x :: x in targets ==> x in Proposed(t, db, root, rules) - blocked
    ensures forall x :: x in Proposed(t, db, root, rules) - blocked ==> Covers(targets, x.path)
  {
    var candidates;
    candidates, blocked := Classify(Proposed(t, db, root, rules), item => IsItemBlocked(t, db, rules, item));
    targets := SelectTargets(candidates);
    refused := Refused(t, db, root, rules);
    forall x | x in targets
      ensures IsRightTarget(t, db, root, rules, x)
    {
      ProposalIsRight(t, db, root, rules, x);
    }
    AllIsHandled(t, db, root, rules, targets, blocked);
  }

  lemma {:induction false} AllIsHandled(
      t: Tree, db: Database, root: Path, rules: Rules, targets: seq<Item>, blocked: set<Item>)
    requires forall i :: i in blocked ==> IsItemBlocked(t, db, rules, i)
    requires forall x :: x in Proposed(t, db, root, rules) - blocked ==> Covers(targets, x.path)
    ensures AllHandled(t, db, root, rules, targets)
    ensures forall a :: IsRightlyRefused(t, db, root, rules, Refused(t, db, root, rules), a)
  {
    if IsTree(t) {
      forall a, p
        ensures IsHandled(t, db, root, rules, targets, a, p)
      {
        DisposableIsHandled(t, db, root, rules, targets, blocked, a, p);
      }
    }
    forall o, p
      ensures IsSharedHandled(t, db, root, rules, targets, o, p)
    {
      SharedIsHandled(t, db, root, rules, targets, blocked, o, p);
    }
    forall a
      ensures IsRightlyRefused(t, db, root, rules, Refused(t, db, root, rules), a)
    {
      RefusalIsRight(t, db, root, rules, a);
    }
  }

  /** Split the proposals into the blocked ones and, sorted by depth, the others. */
  method Classify(proposed: set<Item>, isBlocked: Item -> bool) returns (candidates: seq<Item>, blocked: set<Item>)
    ensures blocked == set i | i in proposed && isBlocked(i)
    ensures SortedByDepth(candidates) && forall x :: x in candidates <==> x in proposed - blocked
  {
    candidates, blocked := [], {};
    var todo := proposed;
    while todo != {}
      invariant todo <= proposed && SortedByDepth(candidates)
      invariant blocked == set i | i in proposed - todo && isBlocked(i)
      invariant forall x :: x in candidates <==> x in proposed - todo && !isBlocked(x)
      decreases todo
    {
      var item :| item in todo;
      if isBlocked(item) {
        blocked := blocked + {item};
      } else {
        candidates := Insert(item, candidates);
      }
      todo := todo - {item};
    }
  }

  // ----- applying it -----------------------------------------------------------------------

  /** What a check asks of the artifacts of a target. */
  predicate PassesGates(t: Tree, db: Database, rules: Rules, item: Item) {
    match item
    case ArtifactItem(_, a, reviews) =>
      GateOf(db, a) == Eligible && ReviewsOf(db, a) == reviews && HasValidManifest(t, rules, a)
    case SharedItem(_, o) =>
      && ArtifactsOf(t, o) != {}
      && forall a :: a in ArtifactsOf(t, o) ==> GateOf(db, a) == Eligible && HasValidManifest(t, rules, a)
  }

  /** What is checked again, against the current database and files, right before each deletion. */
  predicate IsStillSafe(t: Tree, db: Database, root: Path, rules: Rules, item: Item) {
    && db.active == {}
    && root <= item.Output() && PassesGates(t, db, rules, item)
    && item.path != []
    && (rules.isDisposable(item.path[|item.path| - 1]) || item.path[|item.path| - 1] in SHARED)
    && !IsItemBlocked(t, db, rules, item)
    && IsDir(t, item.path) && root <= item.path && |item.path| >= |root| + 3
  }

  /** One deletion: the tree and the database as they were at its check, and its plan item. */
  datatype Deletion = Deletion(tree: Tree, db: Database, item: Item)

  ghost predicate IsChecked(d: Deletion, root: Path, rules: Rules) {
    IsStillSafe(d.tree, d.db, root, rules, d.item)
  }

  ghost predicate DeletedBy(log: seq<Deletion>, p: Path) {
    exists i :: 0 <= i < |log| && log[i].item.path <= p && p in log[i].tree
  }

  /** Only what lies in a checked target is gone, and nothing else has changed. */
  ghost predicate OnlyDeleted(before: Tree, after: Tree, log: seq<Deletion>) {
    forall p :: OnlyDeletedAt(before, after, log, p)
  }

  ghost predicate OnlyDeletedAt(before: Tree, after: Tree, log: seq<Deletion>, p: Path) {
    && (p in after ==> p in before && after[p] == before[p])
    && (p in before && p !in after ==> DeletedBy(log, p))
  }

  /** A deletion that was proposed by the plan and checked, on files that the plan had seen. */
  ghost predicate IsJustified(d: Deletion, before: Tree, db: Database, root: Path, rules: Rules) {
    && IsChecked(d, root, rules)
    && d.item in Proposed(before, db, root, rules)
    && forall p :: p in d.tree ==> p in before && d.tree[p] == before[p]
  }

  ghost predicate AllJustified(log: seq<Deletion>, before: Tree, db: Database, root: Path, rules: Rules) {
    forall d :: d in log ==> IsJustified(d, before, db, root, rules)
  }

  lemma {:induction false} LaterFiles(before: Tree, now: Tree, log: seq<Deletion>)
    requires OnlyDeleted(before, now, log)
    ensures forall p :: p in now ==> p in before && now[p] == before[p]
  {
    forall p | p in now
      ensures p in before && now[p] == before[p]
    {
      assert OnlyDeletedAt(before, now, log, p);
    }
  }

  lemma {:induction false} OneMoreDeletion(before: Tree, now: Tree, after: Tree, log: seq<Deletion>, d: Deletion)
    requires OnlyDeleted(before, now, log) && d.tree == now
    requires SameOutside(now, after, d.item.path) && after.Keys <= now.Keys
    requires forall p :: p in after ==> after[p] == now[p]
    ensures OnlyDeleted(before, after, log + [d])
  {
    var log' := log + [d];
    forall p
      ensures OnlyDeletedAt(before, after, log', p)
    {
      assert OnlyDeletedAt(before, now, log, p) && SameOutsideAt(now, after, d.item.path, p);
      if p in before && p !in now {
        var i :| 0 <= i < |log| && log[i].item.path <= p && p in log[i].tree;
        assert log'[i] == log[i];
      } else if p in before && p !in after {
        assert log'[|log|] == d;
      }
    }
  }

  // ----- what a cleanup cannot delete ---------------------------------------------------------

  /** No registered path, no retained file and no key file is deleted. */
  lemma {:induction false} ProtectedPathsStay(d: Deletion, root: Path, rules: Rules, p: Path)
    requires IsChecked(d, root, rules) && d.item.path <= p && p in d.tree
    ensures p !in d.db.registered
    ensures d.item.ArtifactItem? ==> p !in Retained(d.tree, rules, d.item.artifact)
    ensures d.item.SharedItem? ==>
              forall a :: a in ArtifactsOf(d.tree, d.item.output) ==> p !in Retained(d.tree, rules, a)
    ensures d.tree[p].File? ==> !rules.isKeyFile(p[|p| - 1])
  {
    assert !IsBlocked(d.tree, rules, d.item.path, ProtectedFor(d.tree, d.db, rules, d.item));
    if d.tree[p].File? {
      assert !IsKeyFileBelow(d.tree, rules, d.item.path, p);
    }
  }

  /** Where a proposed target lies. */
  lemma {:induction false} ProposedPlace(t: Tree, db: Database, root: Path, rules: Rules, item: Item)
    requires item in Proposed(t, db, root, rules)
    ensures root <= item.Output() && |item.Output()| == |root| + 2
    ensures item.SharedItem? ==> exists i :: 0 <= i < |SHARED| && item.path == item.output + [SHARED[i]]
    ensures item.ArtifactItem? ==>
              IsInside(t, rules, item.artifact, item.path) || IsBeside(t, rules, item.artifact, item.path)
  {
    var o :| o in OutputDirs(t, root, rules) && item in OutputItems(t, db, rules, o);
    if item !in SharedItems(t, db, rules, o) {
      var a :| a in ArtifactsOf(t, o) && item in ArtifactItems(t, db, rules, a);
      ArtifactsAreDirectories(t, o, a);
    }
  }

  lemma {:induction false} SharedNamesDiffer(i: nat)
    requires i < |SHARED|
    ensures SHARED[i] != STAGE5 && SHARED[i] != STAGE6
  {
    assert |STAGE5.text| == 11 && |STAGE6.text| == 18;
    assert |SHARED[0].text| == 13 && |SHARED[1].text| == 9;
  }

  lemma {:induction false} StageNamesDiffer()
    ensures STAGE5 != STAGE6
  {
    assert |STAGE5.text| == 11 && |STAGE6.text| == 18;
  }

  /** No artifact directory meets a shared build directory. */
  lemma {:induction false} SharedMeetsNoArtifact(o: Path, i: nat, a: Artifact, p: Path)
    requires i < |SHARED| && o + [SHARED[i]] <= p && |a.output| == |o|
    ensures !(a.Path() <= p)
  {
    SharedNamesDiffer(i);
    var n := |o|;
    assert (o + [SHARED[i]])[n] == SHARED[i];
    assert a.Path()[n] in {STAGE5, STAGE6};
  }

  /** Two artifacts of equally deep outputs meet only if they are the same. */
  lemma {:induction false} ArtifactsMeet(a: Artifact, b: Artifact, p: Path)
    requires |a.output| == |b.output| && a.Path() <= p && Parent(b.Path()) <= p
    requires b.Stage5Artifact? ==> b.Path() <= p
    ensures a == b
  {
    StageNamesDiffer();
    var n := |a.output|;
    assert a.output == a.Path()[..n] && b.output == b.Path()[..n];
    assert a.output == p[..n] && b.output == p[..n];
    assert a.Path()[n] == p[n] && a.Path()[n + 1] == p[n + 1];
    assert b.Path()[n] == p[n];
    assert b.Path()[n + 1] == p[n + 1];
  }

  /** A deleted path inside an artifact lies inside the artifact of the deletion's own item. */
  lemma {:induction false} DeletedInOwnArtifact(t: Tree, db: Database, root: Path, rules: Rules, item: Item,
      a: Artifact, p: Path)
    requires item in Proposed(t, db, root, rules) && item.path <= p && a.Path() <= p
    requires root <= a.output && |a.output| == |root| + 2
    ensures item.ArtifactItem? && item.artifact == a
  {
    ProposedPlace(t, db, root, rules, item);
    if item.SharedItem? {
      var i :| 0 <= i < |SHARED| && item.path == item.output + [SHARED[i]];
      SharedMeetsNoArtifact(item.output, i, a, p);
    } else {
      var b := item.artifact;
      assert Parent(b.Path()) <= item.path;
      ArtifactsMeet(a, b, p);
    }
  }

  /**
    * Nothing inside an artifact directory is deleted unless, at the moment of the deletion, every
    * reproduced finding of that artifact had been reviewed and no audit was running.
    */
  lemma {:induction false} OnlyReviewedArtifactsLoseFiles(t: Tree, db: Database, root: Path, rules: Rules,
      d: Deletion, a: Artifact, p: Path)
    requires d.item in Proposed(t, db, root, rules) && IsChecked(d, root, rules)
    requires d.item.path <= p && a.Path() <= p
    requires root <= a.output && |a.output| == |root| + 2
    ensures GateOf(d.db, a) == Eligible && d.db.active == {}
  {
    DeletedInOwnArtifact(t, db, root, rules, d.item, a, p);
  }

  /** The reviews of what was reproduced for an artifact. */
  function ReviewsIn(db: Database, a: Artifact): set<Option<Review>> {
    set m | m in MappingsOf(db, a.output, a.VulnId()) && m.reproduced :: m.review
  }

  /**
    * A deletion in an artifact was planned and made on the same reviews; a shared directory was deleted
    * beside at least one artifact, all of which had been reviewed.
    */
  lemma {:induction false} ReviewsHaveNotChanged(d: Deletion, before: Tree, db: Database, root: Path, rules: Rules)
    requires IsJustified(d, before, db, root, rules)
    ensures d.item.ArtifactItem? ==> ReviewsIn(d.db, d.item.artifact) == ReviewsIn(db, d.item.artifact)
    ensures d.item.SharedItem? ==> exists a: Artifact :: a.output == d.item.output && IsDir(d.tree, a.Path())
    ensures d.item.SharedItem? ==>
              forall a: Artifact :: a.output == d.item.output && IsDir(d.tree, a.Path()) ==> GateOf(d.db, a) == Eligible
  {
    if d.item.ArtifactItem? {
      ReviewsAreThose(before, db, root, rules, d.item);
    } else {
      forall a: Artifact
        ensures a in ArtifactsOf(d.tree, d.item.output) <==> a.output == d.item.output && IsDir(d.tree, a.Path())
      {
        ArtifactsAreDirectories(d.tree, d.item.output, a);
      }
    }
  }

  /** Why a path may go: nothing refers to it, and every artifact that holds it has been reviewed. */
  ghost predicate IsExpendable(d: Deletion, root: Path, rules: Rules, p: Path)
    requires p in d.tree
  {
    && p !in d.db.registered && d.db.active == {}
    && (d.item.ArtifactItem? ==> p !in Retained(d.tree, rules, d.item.artifact))
    && (d.item.SharedItem? ==> forall a :: a in ArtifactsOf(d.tree, d.item.output) ==> p !in Retained(d.tree, rules, a))
    && (d.tree[p].File? ==> p != [] && !rules.isKeyFile(p[|p| - 1]))
    && forall a: Artifact :: IsReviewedFor(d.db, root, a, p)
  }

  predicate IsReviewedFor(db: Database, root: Path, a: Artifact, p: Path) {
    root <= a.output && |a.output| == |root| + 2 && a.Path() <= p ==> GateOf(db, a) == Eligible
  }

  ghost predicate WentRightly(d: Deletion, log: seq<Deletion>, root: Path, rules: Rules, p: Path) {
    d in log && d.item.path <= p && p in d.tree && IsExpendable(d, root, rules, p)
  }

  lemma {:induction false} DeletionIsRight(d: Deletion, before: Tree, db: Database, root: Path, rules: Rules, p: Path)
    requires IsJustified(d, before, db, root, rules) && d.item.path <= p && p in d.tree
    ensures IsExpendable(d, root, rules, p)
  {
    ProtectedPathsStay(d, root, rules, p);
    forall a: Artifact
      ensures IsReviewedFor(d.db, root, a, p)
    {
      if root <= a.output && |a.output| == |root| + 2 && a.Path() <= p {
        OnlyReviewedArtifactsLoseFiles(before, db, root, rules, d, a, p);
      }
    }
  }

  /** Whatever an application of the plan removed was expendable when it was removed. */
  lemma {:induction false} DeletedPathIsExpendable(
      before: Tree, after: Tree, log: seq<Deletion>, db: Database, root: Path, rules: Rules, p: Path)
    requires OnlyDeleted(before, after, log) && AllJustified(log, before, db, root, rules)
    requires p in before && p !in after
    ensures exists d :: WentRightly(d, log, root, rules, p)
  {
    assert OnlyDeletedAt(before, after, log, p);
    var i :| 0 <= i < |log| && log[i].item.path <= p && p in log[i].tree;
    DeletionIsRight(log[i], before, db, root, rules, p);
    assert WentRightly(log[i], log, root, rules, p);
  }

  // ----- what a cleanup deletes -----------------------------------------------------------------

  ghost predicate IsGone(t: Tree, p: Path) {
    forall x :: x in t ==> !(p <= x)
  }

  /** A free disposable directory of an artifact that may be cleaned is gone with all that it held. */
  ghost predicate IsCleaned(before: Tree, after: Tree, db: Database, root: Path, rules: Rules, a: Artifact, p: Path) {
    && MayBeCleaned(before, db, root, rules, a) && IsDisposableOf(before, rules, a, p)
    && (forall q :: q <= p && IsDisposableOf(before, rules, a, q) ==> IsFreeFor(before, db, rules, a, q))
    ==> IsGone(after, p)
  }

  ghost predicate IsSharedCleaned(before: Tree, after: Tree, db: Database, root: Path, rules: Rules, o: Path, p: Path) {
    && AllMayBeCleaned(before, db, root, rules, o) && IsSharedDir(before, o, p)
    && IsFreeForAll(before, db, root, rules, o, p)
    ==> IsGone(after, p)
  }

  ghost predicate AllCleaned(before: Tree, after: Tree, db: Database, root: Path, rules: Rules) {
    && (IsTree(before) ==> forall a, p :: IsCleaned(before, after, db, root, rules, a, p))
    && forall o, p :: IsSharedCleaned(before, after, db, root, rules, o, p)
  }

  /** Whether a target that the plan was right about fails its check. */
  ghost predicate IsHeldBack(before: Tree, now: Tree, db: Database, later: Database, root: Path, rules: Rules) {
    exists item :: IsRightTarget(before, db, root, rules, item) && !IsStillSafe(now, later, root, rules, item)
  }

  /** A manifest says the same as long as what it retains is still there, and it retains only its own files. */
  ghost predicate KeepsManifests(rules: Rules) {
    forall t, t', p :: ManifestStays(rules, t, t', p)
  }

  ghost predicate ManifestStays(rules: Rules, t: Tree, t': Tree, p: Path) {
    var m := rules.manifestPaths(t, p);
    m.Some? ==>
      && (forall x :: x in m.value ==> p <= x)
      && (IsPartOf(t', t) && (forall x :: x in m.value && x in t ==> x in t') ==> rules.manifestPaths(t', p) == m)
  }

  predicate IsPartOf(t': Tree, t: Tree) {
    t'.Keys <= t.Keys && forall x :: x in t' ==> t'[x] == t[x]
  }

  lemma {:induction false} ProposedArtifactItem(t: Tree, db: Database, root: Path, rules: Rules, item: Item)
    requires item in Proposed(t, db, root, rules) && item.ArtifactItem?
    ensures var a := item.artifact;
            && PlanGate(db, a) == Eligible && HasValidManifest(t, rules, a) && item.reviews == ReviewsOf(db, a)
            && (IsInside(t, rules, a, item.path) || IsBeside(t, rules, a, item.path))
  {
    var o :| o in OutputDirs(t, root, rules) && item in OutputItems(t, db, rules, o);
    var a :| a in ArtifactsOf(t, o) && item in ArtifactItems(t, db, rules, a);
  }

  lemma {:induction false} ProposedSharedItem(t: Tree, db: Database, root: Path, rules: Rules, item: Item)
    requires item in Proposed(t, db, root, rules) && item.SharedItem?
    ensures IsDir(t, item.path) && ArtifactsOf(t, item.output) != {}
    ensures forall a :: a in ArtifactsOf(t, item.output) ==>
                          PlanGate(db, a) == Eligible && HasValidManifest(t, rules, a)
  {
    var o :| o in OutputDirs(t, root, rules) && item in OutputItems(t, db, rules, o);
    assert item in SharedItems(t, db, rules, o);
  }

  lemma {:induction false} ItemIsDeep(t: Tree, db: Database, root: Path, rules: Rules, item: Item)
    requires item in Proposed(t, db, root, rules)
    ensures root <= item.Output() && root <= item.path && |item.path| >= |root| + 3
    ensures item.SharedItem? ==> item.path[|item.path| - 1] in SHARED
  {
    ProposedPlace(t, db, root, rules, item);
    if item.SharedItem? {
      var i :| 0 <= i < |SHARED| && item.path == item.output + [SHARED[i]];
    } else {
      ArtifactIsDeep(root, item.artifact, item.path);
    }
  }

  lemma {:induction false} ArtifactIsDeep(root: Path, a: Artifact, p: Path)
    requires root <= a.output && |a.output| == |root| + 2 && p != []
    requires (a.Path() <= p && |p| > |a.Path()|) || (Parent(p) == Parent(a.Path()) && a.Stage6Artifact?)
    ensures root <= p && |p| >= |root| + 3
  {
    assert a.output <= Parent(a.Path()) <= p;
  }

  lemma {:induction false} FreshGates(t: Tree, db: Database, root: Path, rules: Rules, item: Item)
    requires item in Proposed(t, db, root, rules) && db.active == {}
    ensures PassesGates(t, db, rules, item)
  {
    if item.ArtifactItem? {
      ProposedArtifactItem(t, db, root, rules, item);
    } else {
      ProposedSharedItem(t, db, root, rules, item);
    }
  }

  lemma {:induction false} ArtifactItemIsNamed(t: Tree, db: Database, root: Path, rules: Rules, item: Item)
    requires item in Proposed(t, db, root, rules) && item.ArtifactItem? && item.path != []
    ensures IsDir(t, item.path) && rules.isDisposable(item.path[|item.path| - 1])
  {
    ProposedArtifactItem(t, db, root, rules, item);
  }

  lemma {:induction false} ItemIsNamed(t: Tree, db: Database, root: Path, rules: Rules, item: Item)
    requires item in Proposed(t, db, root, rules) && item.path != []
    ensures IsDir(t, item.path)
    ensures rules.isDisposable(item.path[|item.path| - 1]) || item.path[|item.path| - 1] in SHARED
  {
    if item.ArtifactItem? {
      ArtifactItemIsNamed(t, db, root, rules, item);
    } else {
      ProposedSharedItem(t, db, root, rules, item);
      ItemIsDeep(t, db, root, rules, item);
    }
  }

  /** What is planned passes its check as long as nothing has changed. */
  lemma {:induction false} FreshTargetIsSafe(t: Tree, db: Database, root: Path, rules: Rules, item: Item)
    requires item in Proposed(t, db, root, rules) && !IsItemBlocked(t, db, rules, item) && db.active == {}
    ensures IsStillSafe(t, db, root, rules, item)
  {
    FreshGates(t, db, root, rules, item);
    ItemIsDeep(t, db, root, rules, item);
    ItemIsNamed(t, db, root, rules, item);
  }

  /** No target holds an artifact directory. */
  lemma {:induction false} TargetHoldsNoArtifact(t: Tree, db: Database, root: Path, rules: Rules, item: Item,
      a: Artifact)
    requires item in Proposed(t, db, root, rules) && root <= a.output && |a.output| == |root| + 2
    ensures !(item.path <= a.Path())
  {
    ProposedPlace(t, db, root, rules, item);
    if item.path <= a.Path() {
      DeletedInOwnArtifact(t, db, root, rules, item, a, a.Path());
    }
  }

  lemma {:induction false} UnblockedIsFree(t: Tree, db: Database, rules: Rules, item: Item, x: Path)
    requires !IsItemBlocked(t, db, rules, item) && x in ProtectedFor(t, db, rules, item)
    ensures !(item.path <= x)
  {
  }

  lemma {:induction false} RetainedLiesElsewhere(t0: Tree, t: Tree, db: Database, root: Path, rules: Rules, item: Item,
      a: Artifact, x: Path)
    requires item in Proposed(t0, db, root, rules) && root <= a.output && |a.output| == |root| + 2
    requires !IsItemBlocked(t, db, rules, item) && x in Retained(t, rules, a) && a.Path() <= x
    ensures !(item.path <= x)
  {
    if item.path <= x {
      DeletedInOwnArtifact(t0, db, root, rules, item, a, x);
      UnblockedIsFree(t, db, rules, item, x);
    }
  }

  lemma {:induction false} OtherManifestStays(t0: Tree, t: Tree, db: Database, root: Path, rules: Rules, item: Item,
      a: Artifact)
    requires item in Proposed(t0, db, root, rules) && root <= a.output && |a.output| == |root| + 2
    requires !IsItemBlocked(t, db, rules, item) && KeepsManifests(rules) && HasValidManifest(t, rules, a)
    ensures rules.manifestPaths(Remove(t, item.path), a.Path()) == rules.manifestPaths(t, a.Path())
  {
    var t', retained := Remove(t, item.path), Retained(t, rules, a);
    assert ManifestStays(rules, t, t', a.Path());
    forall x | x in retained && x in t
      ensures x in t'
    {
      RetainedLiesElsewhere(t0, t, db, root, rules, item, a, x);
    }
  }

  /** The output of a planned item, and of every artifact of it, lies two levels below the root. */
  predicate IsPlaced(root: Path, o: Path) {
    root <= o && |o| == |root| + 2
  }

  lemma {:induction false} FewerArtifacts(t0: Tree, t: Tree, db: Database, root: Path, rules: Rules, item: Item,
      o: Path)
    requires item in Proposed(t0, db, root, rules) && IsPlaced(root, o)
    ensures ArtifactsOf(Remove(t, item.path), o) == ArtifactsOf(t, o)
  {
    var t' := Remove(t, item.path);
    forall a: Artifact
      ensures a in ArtifactsOf(t', o) <==> a in ArtifactsOf(t, o)
    {
      ArtifactsAreDirectories(t, o, a);
      ArtifactsAreDirectories(t', o, a);
      if a.output == o {
        TargetHoldsNoArtifact(t0, db, root, rules, item, a);
      }
    }
  }

  lemma {:induction false} StaysUnblocked(t: Tree, t': Tree, rules: Rules, target: Path, protected: set<Path>)
    requires IsPartOf(t', t) && !IsBlocked(t, rules, target, protected)
    ensures !IsBlocked(t', rules, target, protected)
  {
    assert forall f :: f in t' && IsKeyFileBelow(t', rules, target, f) ==> IsKeyFileBelow(t, rules, target, f);
  }

  lemma {:induction false} GatesStay(t0: Tree, t: Tree, db: Database, root: Path, rules: Rules, item: Item,
      other: Item)
    requires item in Proposed(t0, db, root, rules) && IsPlaced(root, other.Output())
    requires !IsItemBlocked(t, db, rules, item) && PassesGates(t, db, rules, other) && KeepsManifests(rules)
    ensures var t' := Remove(t, item.path);
            PassesGates(t', db, rules, other) && ProtectedFor(t', db, rules, other) == ProtectedFor(t, db, rules, other)
  {
    var t', o := Remove(t, item.path), other.Output();
    if other.ArtifactItem? {
      OtherManifestStays(t0, t, db, root, rules, item, other.artifact);
    } else {
      FewerArtifacts(t0, t, db, root, rules, item, o);
      forall a | a in ArtifactsOf(t, o)
        ensures rules.manifestPaths(t', a.Path()) == rules.manifestPaths(t, a.Path())
      {
        ArtifactsAreDirectories(t, o, a);
        OtherManifestStays(t0, t, db, root, rules, item, a);
      }
      SameRetained(t, t', rules, ArtifactsOf(t, o));
    }
  }

  /** Deleting one target leaves every other target as safe as it was. */
  lemma {:induction false} OthersStaySafe(t0: Tree, t: Tree, db: Database, root: Path, rules: Rules, item: Item,
      other: Item)
    requires item in Proposed(t0, db, root, rules) && other in Proposed(t0, db, root, rules)
    requires IsStillSafe(t, db, root, rules, item) && IsStillSafe(t, db, root, rules, other)
    requires KeepsManifests(rules) && !(item.path <= other.path)
    ensures IsStillSafe(Remove(t, item.path), db, root, rules, other)
  {
    var t' := Remove(t, item.path);
    ProposedPlace(t0, db, root, rules, other);
    GatesStay(t0, t, db, root, rules, item, other);
    StaysUnblocked(t, t', rules, other.path, ProtectedFor(t, db, rules, other));
  }

  lemma {:induction false} SameRetained(t: Tree, t': Tree, rules: Rules, artifacts: set<Artifact>)
    requires forall a :: a in artifacts ==> rules.manifestPaths(t', a.Path()) == rules.manifestPaths(t, a.Path())
    ensures RetainedInAll(t', rules, artifacts) == RetainedInAll(t, rules, artifacts)
  {
    assert forall a :: a in artifacts ==> Retained(t', rules, a) == Retained(t, rules, a);
  }

  /** What the targets from the i-th on have to pass when nothing disturbs the application. */
  ghost predicate AreSafe(t: Tree, db: Database, root: Path, rules: Rules, targets: seq<Item>, i: nat) {
    forall k :: i <= k < |targets| ==> IsStillSafe(t, db, root, rules, targets[k])
  }

  lemma {:induction false} RestStaysSafe(t0: Tree, t: Tree, db: Database, root: Path, rules: Rules, targets: seq<Item>,
      i: nat)
    requires i < |targets| && AreSafe(t, db, root, rules, targets, i) && KeepsManifests(rules)
    requires IsAntichain(targets) && forall x :: x in targets ==> x in Proposed(t0, db, root, rules)
    ensures AreSafe(Remove(t, targets[i].path), db, root, rules, targets, i + 1)
  {
    forall k | i + 1 <= k < |targets|
      ensures IsStillSafe(Remove(t, targets[i].path), db, root, rules, targets[k])
    {
      assert AreApart(targets, i, k);
      OthersStaySafe(t0, t, db, root, rules, targets[i], targets[k]);
    }
  }

  ghost predicate AreGone(t: Tree, targets: seq<Item>, n: nat) {
    forall k :: 0 <= k < n && k < |targets| ==> IsGone(t, targets[k].path)
  }

  lemma {:induction false} CoveredIsGone(t: Tree, targets: seq<Item>, p: Path)
    requires AreGone(t, targets, |targets|) && Covers(targets, p)
    ensures IsGone(t, p)
  {
    var k :| 0 <= k < |targets| && targets[k].path <= p;
    assert IsGone(t, targets[k].path);
  }

  lemma {:induction false} AllIsCleaned(before: Tree, after: Tree, db: Database, root: Path, rules: Rules,
      targets: seq<Item>)
    requires AreGone(after, targets, |targets|) && AllHandled(before, db, root, rules, targets)
    ensures AllCleaned(before, after, db, root, rules)
  {
    if IsTree(before) {
      forall a, p
        ensures IsCleaned(before, after, db, root, rules, a, p)
      {
        assert IsHandled(before, db, root, rules, targets, a, p);
        if Covers(targets, p) {
          CoveredIsGone(after, targets, p);
        }
      }
    }
    forall o, p
      ensures IsSharedCleaned(before, after, db, root, rules, o, p)
    {
      assert IsSharedHandled(before, db, root, rules, targets, o, p);
      if Covers(targets, p) {
        CoveredIsGone(after, targets, p);
      }
    }
  }

  lemma {:induction false} AllAreSafe(t: Tree, db: Database, root: Path, rules: Rules, targets: seq<Item>)
    requires db.active == {}
    requires forall x :: x in targets ==> x in Proposed(t, db, root, rules) && !IsItemBlocked(t, db, rules, x)
    ensures AreSafe(t, db, root, rules, targets, 0)
  {
    forall k | 0 <= k < |targets|
      ensures IsStillSafe(t, db, root, rules, targets[k])
    {
      FreshTargetIsSafe(t, db, root, rules, targets[k]);
    }
  }

  lemma {:induction false} OneMoreGone(now: Tree, after: Tree, targets: seq<Item>, i: nat)
    requires i < |targets| && AreGone(now, targets, i) && after == Remove(now, targets[i].path)
    ensures AreGone(after, targets, i + 1)
  {
    forall k | 0 <= k < i
      ensures IsGone(after, targets[k].path)
    {
      assert IsGone(now, targets[k].path);
    }
  }

  /** What the log has to say of the files so far. */
  ghost predicate HasApplied(before: Tree, now: Tree, db: Database, root: Path, rules: Rules, log: seq<Deletion>) {
    OnlyDeleted(before, now, log) && AllJustified(log, before, db, root, rules)
  }

  lemma {:induction false} OneMoreApplied(before: Tree, now: Tree, after: Tree, db: Database, root: Path,
      rules: Rules, log: seq<Deletion>, d: Deletion)
    requires HasApplied(before, now, db, root, rules, log) && d.tree == now && IsChecked(d, root, rules)
    requires d.item in Proposed(before, db, root, rules) && SameOutside(now, after, d.item.path)
    requires IsPartOf(after, now)
    ensures HasApplied(before, after, db, root, rules, log + [d])
  {
    LaterFiles(before, now, log);
    OneMoreDeletion(before, now, after, log, d);
    OneMoreJustified(before, db, root, rules, log, d);
  }

  lemma {:induction false} OneMoreJustified(before: Tree, db: Database, root: Path, rules: Rules, log: seq<Deletion>,
      d: Deletion)
    requires AllJustified(log, before, db, root, rules) && IsJustified(d, before, db, root, rules)
    ensures AllJustified(log + [d], before, db, root, rules)
  {
  }

  /** Nothing gets in the way: no deletion fails, and the database stays as the plan read it. */
  ghost predicate IsUndisturbed(host: Host, db: Database, rules: Rules, later: nat -> Database) {
    && db.active == {} && (forall i :: later(i) == db)
    && (forall i :: !host.fails(i)) && KeepsManifests(rules)
  }

  /**
    * Apply a fresh plan. The database is read again before every deletion, and may have changed; the
    * log says which deletions were made and on what evidence. Success means that everything that could
    * be cleaned is gone; otherwise an audit was active, a target failed its check, or a deletion failed.
    * An application that nothing disturbs succeeds.
    */
  method ApplyCleanup(host: Host, db: Database, root: Path, rules: Rules, later: nat -> Database)
    returns (ok: bool, log: seq<Deletion>)
    modifies host`tree, host`clock
    ensures OnlyDeleted(old(host.tree), host.tree, log)
    ensures AllJustified(log, old(host.tree), db, root, rules)
    ensures db.active != {} ==> !ok && log == []
    ensures ok ==> AllCleaned(old(host.tree), host.tree, db, root, rules)
    ensures !ok ==>
              || db.active != {}
              || IsHeldBack(old(host.tree), host.tree, db, later(|log|), root, rules)
              || (log != [] && host.clock > 0 && host.fails(host.clock - 1))
    ensures IsUndisturbed(host, db, rules, later) ==> ok
  {
    log := [];
    var before := host.tree;
    if db.active != {} {
      return false, log;
    }
    var targets, blocked, refused := BuildPlan(before, db, root, rules);
    ghost var undisturbed := IsUndisturbed(host, db, rules, later);
    AllAreSafe(before, db, root, rules, targets);
    for i := 0 to |targets|
      invariant |log| == i && AreGone(host.tree, targets, i) && HasApplied(before, host.tree, db, root, rules, log)
      invariant undisturbed ==> AreSafe(host.tree, db, root, rules, targets, i)
    {
      ghost var now := host.tree;
      if !IsStillSafe(host.tree, later(i), root, rules, targets[i]) {
        return false, log;
      }
      var d := Deletion(host.tree, later(i), targets[i]);
      ok := host.RemoveTree(targets[i].path);
      OneMoreApplied(before, now, host.tree, db, root, rules, log, d);
      log := log + [d];
      if !ok {
        return;
      }
      OneMoreGone(now, host.tree, targets, i);
      if undisturbed {
        RestStaysSafe(before, now, db, root, rules, targets, i);
      }
    }
    AllIsCleaned(before, host.tree, db, root, rules, targets);
    return true, log;
  }
}
