/**
  * Purging expired disclosures (code_auditor/db.py:1214-1548): the artifact directories of the expired rows are
  * renamed aside, the rows are deleted in one transaction, and only then is anything erased.
  */
module Purge {
  import opened Wrappers
  import opened FileSystem
  import opened Quarantine

  // ----- tables -----------------------------------------------------------------

  /** The labels of artifact links, as far as the purge tells them apart. */
  datatype Label = Stage5Report | Stage6(what: string) | OtherLabel(text: string)

  datatype Artifact = Artifact(kind: Label, path: Path)

  datatype Bug = Bug(deletedAt: Option<real>, artifacts: seq<Artifact>)

  datatype Status = Reproduced | OtherStatus(text: string)

  datatype RunId = RunId(number: int)

  datatype Run = Run(output: Option<Path>, reproduced: int, disclosures: int)

  type Key = (string, string)

  type Row = (RunId, Component)

  datatype Tables =
    Tables(bugs: map<Key, Bug>, runs: map<RunId, Run>, disclosures: set<Row>, pocs: map<Row, Status>)

  datatype Kind = Poc | Disclosure

  // ----- the layout of an output tree ---------------------------------------------

  const STAGE5 := Name("stage5-pocs")
  const STAGE6 := Name("stage6-disclosures")
  const TRAJECTORIES := Name("trajectories")
  const DISCLOSURE_DIR := Name("disclosure")
  const DEDUPE_LOGS := Name(".dedupe-logs")

  lemma {:induction false} LayoutNamesDiffer()
    ensures STAGE5 != STAGE6 && STAGE5 != TRAJECTORIES && STAGE6 != TRAJECTORIES
    ensures !STAGE5.Temporary? && !STAGE6.Temporary? && !TRAJECTORIES.Temporary?
    ensures !DISCLOSURE_DIR.Temporary? && !DEDUPE_LOGS.Temporary?
  {
    assert |STAGE5.text| == 11 && |STAGE6.text| == 18 && |TRAJECTORIES.text| == 12;
  }

  function StageName(kind: Kind): Component {
    if kind == Poc then STAGE5 else STAGE6
  }

  /** Where the directory of one vulnerability lies below an output directory. */
  function Layout(kind: Kind, output: Path, vuln: Component): Path {
    output + [StageName(kind), vuln] + if kind == Poc then [] else [DISCLOSURE_DIR]
  }

  predicate IsIdChar(c: char) {
    'A' <= c <= 'Z' || 'a' <= c <= 'z' || '0' <= c <= '9' || c == '_' || c == '-'
  }

  /** [A-Za-z][A-Za-z0-9_-]{0,63} */
  predicate IsVulnId(c: Component) {
    && c.Name?
    && 1 <= |c.text| <= 64
    && ('A' <= c.text[0] <= 'Z' || 'a' <= c.text[0] <= 'z')
    && forall i :: 0 <= i < |c.text| ==> IsIdChar(c.text[i])
  }

  /** A removable directory, taken apart. */
  datatype Place = Place(output: Path, vuln: Component)

  /** How many components of an artifact path lie below its output directory. */
  function Depth(kind: Kind): nat {
    if kind == Poc then 3 else 4
  }

  /** The removable directory that an artifact path lies in, if the path has the shape of the layout. */
  function PlaceOf(kind: Kind, path: Path): (r: Option<Place>)
    ensures r.Some? ==> Parent(path) == Layout(kind, r.value.output, r.value.vuln) && IsVulnId(r.value.vuln)
  {
    var n := |path| - Depth(kind);
    if n < 0 || path[n] != StageName(kind) || !IsVulnId(path[n + 1]) then None
    else if kind == Disclosure && path[n + 2] != DISCLOSURE_DIR then None
    else
      assert Parent(path) == path[..n] + [path[n], path[n + 1]] + if kind == Poc then [] else [path[n + 2]];
      Some(Place(path[..n], path[n + 1]))
  }

  predicate MatchesLabel(kind: Kind, l: Label) {
    if kind == Poc then l.Stage5Report? else l.Stage6?
  }

  /** Deletion is allowed only below the managed results root or in a registered run's output. */
  predicate IsManaged(kind: Kind, place: Place, managedRoot: Option<Path>, registered: set<Path>) {
    var stageDir := place.output + [StageName(kind)];
    (managedRoot.Some? && managedRoot.value <= stageDir) || stageDir in registered
  }

  /** The removable directory of one artifact link. */
  function ArtifactPlace(kind: Kind, a: Artifact, managedRoot: Option<Path>, registered: set<Path>): Option<Place> {
    if !MatchesLabel(kind, a.kind) then None else
      var place := PlaceOf(kind, a.path);
      if place.Some? && IsManaged(kind, place.value, managedRoot, registered) then place else None
  }

  /** The removable directories that a row names. */
  function PlacesIn(kind: Kind, artifacts: seq<Artifact>, managedRoot: Option<Path>,
      registered: set<Path>): set<Place> {
    set a | a in artifacts && ArtifactPlace(kind, a, managedRoot, registered).Some? ::
      ArtifactPlace(kind, a, managedRoot, registered).value
  }

  function Registered(kind: Kind, runs: map<RunId, Run>): set<Path> {
    set id | id in runs && runs[id].output.Some? :: runs[id].output.value + [StageName(kind)]
  }

  function PlacesOfRow(kind: Kind, t: Tables, root: Option<Path>, key: Key): set<Place>
    requires key in t.bugs
  {
    PlacesIn(kind, t.bugs[key].artifacts, root, Registered(kind, t.runs))
  }

  function PlacesOfRows(kind: Kind, t: Tables, root: Option<Path>, keys: set<Key>): set<Place>
    requires keys <= t.bugs.Keys
  {
    set k, p | k in keys && p in PlacesOfRow(kind, t, root, k) :: p
  }

  // ----- what a purge selects --------------------------------------------------------

  function Expired(bugs: map<Key, Bug>, cutoff: real, identities: Option<set<Key>>): set<Key> {
    set k | k in bugs && bugs[k].deletedAt.Some? && bugs[k].deletedAt.value <= cutoff
            && (identities.None? || k in identities.value)
  }

  /** Directories named by an expired row and by no surviving row. */
  function Doomed(kind: Kind, t: Tables, root: Option<Path>, expired: set<Key>): set<Place>
    requires expired <= t.bugs.Keys
  {
    PlacesOfRows(kind, t, root, expired) - PlacesOfRows(kind, t, root, t.bugs.Keys - expired)
  }

  /** The trajectories that mirror a removable directory. */
  function Trajectories(kind: Kind, p: Place): set<Path> {
    if kind == Poc then {p.output + [TRAJECTORIES, STAGE5, p.vuln]} else
      {p.output + [TRAJECTORIES, STAGE6, p.vuln], p.output + [TRAJECTORIES, STAGE6, DEDUPE_LOGS, JsonName(p.vuln)]}
  }

  function JsonName(vuln: Component): Component {
    if vuln.Name? then Name(vuln.text + ".json") else vuln
  }

  function TargetsOf(kind: Kind, places: set<Place>): set<Path> {
    (set p | p in places :: Layout(kind, p.output, p.vuln))
    + (set p, x | p in places && x in Trajectories(kind, p) :: x)
  }

  function Targets(t: Tables, root: Option<Path>, expired: set<Key>): set<Path>
    requires expired <= t.bugs.Keys
  {
    TargetsOf(Poc, Doomed(Poc, t, root, expired)) + TargetsOf(Disclosure, Doomed(Disclosure, t, root, expired))
  }

  // ----- the rows that go with them ----------------------------------------------------

  /** The table rows of the runs that are registered for one of the places. */
  predicate IsRowOf(runs: map<RunId, Run>, places: set<Place>, row: Row) {
    row.0 in runs && runs[row.0].output.Some? && Place(runs[row.0].output.value, row.1) in places
  }

  function CountReproduced(pocs: map<Row, Status>, run: RunId): nat {
    |set r | r in pocs && r.0 == run && pocs[r] == Reproduced|
  }

  function CountDisclosures(disclosures: set<Row>, run: RunId): nat {
    |set r | r in disclosures && r.0 == run|
  }

  function Recounted(run: Run, id: RunId, disclosures: set<Row>, pocs: map<Row, Status>): Run {
    run.(reproduced := CountReproduced(pocs, id), disclosures := CountDisclosures(disclosures, id))
  }

  function GoneRows(rows: set<Row>, runs: map<RunId, Run>, places: set<Place>): set<Row> {
    set r | r in rows && IsRowOf(runs, places, r)
  }

  function RunsOf(rows: set<Row>): set<RunId> {
    set r | r in rows :: r.0
  }

  function RecountedRuns(runs: map<RunId, Run>, ids: set<RunId>, disclosures: set<Row>,
      pocs: map<Row, Status>): map<RunId, Run>
  {
    map id | id in runs :: if id in ids then Recounted(runs[id], id, disclosures, pocs) else runs[id]
  }

  /** The tables after the purge: the expired rows, the rows of the removed directories, and new counts. */
  function PurgedWith(t: Tables, expired: set<Key>, pocPlaces: set<Place>, disclosurePlaces: set<Place>): Tables {
    var disclosures := t.disclosures - GoneRows(t.disclosures, t.runs, disclosurePlaces);
    var pocs := t.pocs - GoneRows(t.pocs.Keys, t.runs, pocPlaces);
    var affected := RunsOf(GoneRows(t.disclosures, t.runs, disclosurePlaces))
                    + RunsOf(GoneRows(t.pocs.Keys, t.runs, pocPlaces));
    Tables(t.bugs - expired, RecountedRuns(t.runs, affected, disclosures, pocs), disclosures, pocs)
  }

  function Purged(t: Tables, root: Option<Path>, expired: set<Key>): Tables
    requires expired <= t.bugs.Keys
  {
    PurgedWith(t, expired, Doomed(Poc, t, root, expired), Doomed(Disclosure, t, root, expired))
  }

  // ----- selecting, as the source does it: loops over rows and artifact links ---------------

  method ManagedArtifactDirs(kind: Kind, artifacts: seq<Artifact>, root: Option<Path>, registered: set<Path>)
    returns (result: set<Place>)
    ensures result == PlacesIn(kind, artifacts, root, registered)
  {
    result := {};
    for i := 0 to |artifacts|
      invariant result == PlacesIn(kind, artifacts[..i], root, registered)
    {
      var place := ArtifactPlace(kind, artifacts[i], root, registered);
      assert artifacts[..i + 1] == artifacts[..i] + [artifacts[i]];
      if place.Some? {
        result := result + {place.value};
      }
    }
    assert artifacts[..|artifacts|] == artifacts;
  }

  method CollectPlaces(kind: Kind, t: Tables, root: Option<Path>, keys: set<Key>) returns (result: set<Place>)
    requires keys <= t.bugs.Keys
    ensures result == PlacesOfRows(kind, t, root, keys)
  {
    result := {};
    var registered := Registered(kind, t.runs);
    var todo := keys;
    while todo != {}
      invariant todo <= keys && result == PlacesOfRows(kind, t, root, keys - todo)
      decreases todo
    {
      var k :| k in todo;
      var places := ManagedArtifactDirs(kind, t.bugs[k].artifacts, root, registered);
      result := result + places;
      assert keys - (todo - {k}) == keys - todo + {k};
      PlacesOfOneMore(kind, t, root, keys - todo, k);
      todo := todo - {k};
    }
  }

  lemma {:induction false} PlacesOfOneMore(kind: Kind, t: Tables, root: Option<Path>, keys: set<Key>, k: Key)
    requires keys <= t.bugs.Keys && k in t.bugs
    ensures PlacesOfRows(kind, t, root, keys + {k}) == PlacesOfRows(kind, t, root, keys) + PlacesOfRow(kind, t, root, k)
  {
  }

  // ----- the statements of the transaction --------------------------------------------------

  method DeleteBugs(host: Host, bugs: map<Key, Bug>, expired: set<Key>) returns (ok: bool, rest: map<Key, Bug>)
    modifies host`clock
    ensures host.clock >= old(host.clock)
    ensures ok ==> rest == bugs - expired
    ensures !ok ==> SomeFails(host.fails, old(host.clock), host.clock)
  {
    rest := bugs;
    var todo := expired;
    while todo != {}
      invariant todo <= expired && rest == bugs - (expired - todo)
      invariant host.clock >= old(host.clock)
      decreases todo
    {
      var k :| k in todo;
      ok := host.Tick();
      if !ok {
        FailedByNow(host.fails, old(host.clock), host.clock - 1);
        return;
      }
      rest := rest - {k};
      todo := todo - {k};
    }
    ok := true;
  }

  /** Delete the rows of the removed directories, and collect the runs that lost one. */
  method DeleteRows(host: Host, rows: set<Row>, runs: map<RunId, Run>, places: set<Place>)
    returns (ok: bool, gone: set<Row>, affected: set<RunId>)
    modifies host`clock
    ensures host.clock >= old(host.clock)
    ensures ok ==> gone == GoneRows(rows, runs, places) && affected == RunsOf(gone)
    ensures !ok ==> SomeFails(host.fails, old(host.clock), host.clock)
  {
    gone, affected := {}, {};
    var todo := places;
    while todo != {}
      invariant todo <= places && gone == GoneRows(rows, runs, places - todo) && affected == RunsOf(gone)
      invariant host.clock >= old(host.clock)
      decreases todo
    {
      var p :| p in todo;
      ok := host.Tick();
      if !ok {
        FailedByNow(host.fails, old(host.clock), host.clock - 1);
        return;
      }
      gone, affected := AddRows(rows, runs, places - todo, p, gone, affected);
      todo := todo - {p};
      assert places - todo == places - (todo + {p}) + {p};
    }
    assert places - todo == places;
    ok := true;
  }

  method AddRows(rows: set<Row>, runs: map<RunId, Run>, done: set<Place>, p: Place, gone: set<Row>,
      affected: set<RunId>)
    returns (gone': set<Row>, affected': set<RunId>)
    requires gone == GoneRows(rows, runs, done) && affected == RunsOf(gone)
    ensures gone' == GoneRows(rows, runs, done + {p}) && affected' == RunsOf(gone')
  {
    var more := set r | r in rows && IsRowOf(runs, {p}, r);
    gone' := gone + more;
    affected' := affected + RunsOf(more);
  }

  method Recount(host: Host, runs: map<RunId, Run>, ids: set<RunId>, disclosures: set<Row>, pocs: map<Row, Status>)
    returns (ok: bool, result: map<RunId, Run>)
    modifies host`clock
    ensures host.clock >= old(host.clock)
    ensures ok ==> result == RecountedRuns(runs, ids, disclosures, pocs)
    ensures !ok ==> SomeFails(host.fails, old(host.clock), host.clock)
  {
    result := runs;
    var todo := ids;
    ghost var done: set<RunId> := {};
    while todo != {}
      invariant todo + done == ids && result == RecountedRuns(runs, done, disclosures, pocs)
      invariant host.clock >= old(host.clock)
      decreases todo
    {
      var id :| id in todo;
      ok := host.Tick();
      if !ok {
        FailedByNow(host.fails, old(host.clock), host.clock - 1);
        return;
      }
      RecountOneMore(runs, done, id, disclosures, pocs);
      if id in result {
        result := result[id := Recounted(result[id], id, disclosures, pocs)];
      }
      todo, done := todo - {id}, done + {id};
    }
    ok := true;
  }

  lemma {:induction false} RecountOneMore(runs: map<RunId, Run>, done: set<RunId>, id: RunId, disclosures: set<Row>,
      pocs: map<Row, Status>)
    ensures RecountedRuns(runs, done + {id}, disclosures, pocs) ==
            var before := RecountedRuns(runs, done, disclosures, pocs);
            if id in runs then before[id := Recounted(before[id], id, disclosures, pocs)] else before
  {
  }

  /** All statements up to the commit, on a copy of the tables. */
  method RunStatements(host: Host, t: Tables, expired: set<Key>, pocPlaces: set<Place>, disclosurePlaces: set<Place>)
    returns (ok: bool, work: Tables)
    modifies host`clock
    ensures host.clock >= old(host.clock)
    ensures ok ==> work == PurgedWith(t, expired, pocPlaces, disclosurePlaces)
    ensures !ok ==> SomeFails(host.fails, old(host.clock), host.clock)
  {
    work := t;
    var bugs, goneDisclosures, gonePocs, ids, more, runs;
    ok, bugs := DeleteBugs(host, t.bugs, expired);
    if !ok { return; }
    ok, goneDisclosures, ids := DeleteRows(host, t.disclosures, t.runs, disclosurePlaces);
    if !ok { return; }
    ok, gonePocs, more := DeleteRows(host, t.pocs.Keys, t.runs, pocPlaces);
    if !ok { return; }
    var disclosures, pocs := t.disclosures - goneDisclosures, t.pocs - gonePocs;
    ok, runs := Recount(host, t.runs, ids + more, disclosures, pocs);
    if !ok { return; }
    // Clearing stale CVE links, then the commit.
    ok := host.Tick();
    FailedByNow(host.fails, old(host.clock), host.clock - 1);
    if !ok { return; }
    ok := host.Tick();
    FailedByNow(host.fails, old(host.clock), host.clock - 1);
    if !ok { return; }
    work := Tables(bugs, runs, disclosures, pocs);
  }

  // ----- the purge --------------------------------------------------------------------------

  const TRASH_RETENTION_SECONDS := (30 * 86400) as real

  /** Rows deleted, or nothing done because staging failed, or an exception from the transaction. */
  datatype Outcome = Deleted(rows: nat) | Retained | Raised

  /** Stored artifact paths hold no temporary name that this purge could make up. */
  ghost predicate ArtifactsAreOld(t: Tables, n: nat) {
    forall k, a :: k in t.bugs && a in t.bugs[k].artifacts ==> IsOld(a.path, n)
  }

  lemma {:induction false} PlacesAreOld(kind: Kind, t: Tables, root: Option<Path>, keys: set<Key>, n: nat, p: Place)
    requires keys <= t.bugs.Keys && ArtifactsAreOld(t, n) && p in PlacesOfRows(kind, t, root, keys)
    ensures IsOld(Layout(kind, p.output, p.vuln), n) && IsVulnId(p.vuln)
  {
    var k :| k in keys && p in PlacesOfRow(kind, t, root, k);
    var a :| a in t.bugs[k].artifacts && ArtifactPlace(kind, a, root, Registered(kind, t.runs)) == Some(p);
    assert Parent(a.path) <= a.path;
    OldPrefix(a.path, Parent(a.path), n);
  }

  lemma {:induction false} OldBelow(p: Path, tail: Path, n: nat)
    requires IsOld(p, n) && forall i :: 0 <= i < |tail| ==> !tail[i].Temporary?
    ensures IsOld(p + tail, n)
  {
  }

  lemma {:induction false} TargetsOfPlaceAreOld(kind: Kind, p: Place, n: nat, x: Path)
    requires IsOld(Layout(kind, p.output, p.vuln), n) && IsVulnId(p.vuln)
    requires x == Layout(kind, p.output, p.vuln) || x in Trajectories(kind, p)
    ensures x != [] && IsOld(x, n)
  {
    LayoutNamesDiffer();
    assert p.output <= Layout(kind, p.output, p.vuln);
    OldPrefix(Layout(kind, p.output, p.vuln), p.output, n);
    OldBelow(p.output, [TRAJECTORIES, StageName(kind), p.vuln], n);
    OldBelow(p.output, [TRAJECTORIES, STAGE6, DEDUPE_LOGS, JsonName(p.vuln)], n);
  }

  /** No target holds a temporary name of this purge, and none is the root directory. */
  lemma {:induction false} TargetsAreOld(kind: Kind, t: Tables, root: Option<Path>, expired: set<Key>, n: nat, x: Path)
    requires expired <= t.bugs.Keys && ArtifactsAreOld(t, n) && x in TargetsOf(kind, Doomed(kind, t, root, expired))
    ensures x != [] && IsOld(x, n)
  {
    var places := Doomed(kind, t, root, expired);
    var p :| p in places && (x == Layout(kind, p.output, p.vuln) || x in Trajectories(kind, p));
    PlacesAreOld(kind, t, root, expired, n, p);
    TargetsOfPlaceAreOld(kind, p, n, x);
  }

  /** After a failure everything is renamed back; only a second failure leaves something aside. */
  method GiveUp(host: Host, q: seq<Moved>, ghost t: Tree, ghost from: nat)
    requires Recorded(t, host.tree, q) && from <= host.clock && SomeFails(host.fails, from, host.clock)
    modifies host`tree, host`clock
    ensures host.clock >= old(host.clock) && SomeFails(host.fails, from, host.clock)
    ensures host.tree == t || TwoFail(host.fails, from, host.clock)
  {
    ghost var time := host.clock;
    Restore(host, q, t);
    LongerSpan(host.fails, from, time, from, host.clock);
    if SomeFails(host.fails, time, host.clock) {
      SecondFailure(host.fails, from, time, host.clock);
    }
  }

  // ----- what a purge has to do, row by row and path by path ----------------------------------

  /** What a purge is asked for. */
  datatype Request = Request(root: Option<Path>, now: real, identities: Option<set<Key>>)

  /** The row has been in the trash for thirty days, and it is selected. */
  predicate IsDue(t: Tables, q: Request, k: Key) {
    && k in t.bugs && t.bugs[k].deletedAt.Some? && t.bugs[k].deletedAt.value <= q.now - 2592000.0
    && (q.identities.None? || k in q.identities.value)
  }

  /** Where the files of one vulnerability are kept. */
  function Folder(kind: Kind, output: Path, vuln: Component): Path {
    match kind
    case Poc => output + [Name("stage5-pocs"), vuln]
    case Disclosure => output + [Name("stage6-disclosures"), vuln, Name("disclosure")]
  }

  /** An artifact link of the right label points into the folder, which is below the root or registered. */
  predicate IsLinkTo(t: Tables, q: Request, kind: Kind, a: Artifact, p: Place) {
    && (match kind case Poc => a.kind == Stage5Report case Disclosure => a.kind.Stage6?)
    && a.path != [] && a.path[..|a.path| - 1] == Folder(kind, p.output, p.vuln) && IsVulnId(p.vuln)
    && IsAllowed(t, q, kind, p.output)
  }

  predicate IsAllowed(t: Tables, q: Request, kind: Kind, output: Path) {
    || (q.root.Some? && q.root.value <= output + [StageName(kind)])
    || exists id :: id in t.runs && t.runs[id].output == Some(output)
  }

  predicate LinksTo(t: Tables, q: Request, kind: Kind, k: Key, p: Place) {
    k in t.bugs && exists a :: a in t.bugs[k].artifacts && IsLinkTo(t, q, kind, a, p)
  }

  /** A due row links to the folder, and no row that stays does. */
  ghost predicate IsRemoved(t: Tables, q: Request, kind: Kind, p: Place) {
    && (exists k :: IsDue(t, q, k) && LinksTo(t, q, kind, k, p))
    && forall k :: LinksTo(t, q, kind, k, p) ==> IsDue(t, q, k)
  }

  /** The run's folder for this vulnerability is removed. */
  ghost predicate LosesFolder(t: Tables, q: Request, kind: Kind, row: Row) {
    && row.0 in t.runs && t.runs[row.0].output.Some?
    && IsRemoved(t, q, kind, Place(t.runs[row.0].output.value, row.1))
  }

  ghost predicate BugIsPurged(t: Tables, after: Tables, q: Request, k: Key) {
    (k in after.bugs <==> k in t.bugs && !IsDue(t, q, k)) && (k in after.bugs ==> after.bugs[k] == t.bugs[k])
  }

  ghost predicate RowIsPurged(t: Tables, after: Tables, q: Request, row: Row) {
    && (row in after.pocs <==> row in t.pocs && !LosesFolder(t, q, Poc, row))
    && (row in after.pocs ==> after.pocs[row] == t.pocs[row])
    && (row in after.disclosures <==> row in t.disclosures && !LosesFolder(t, q, Disclosure, row))
  }

  ghost predicate LosesRow(t: Tables, after: Tables, id: RunId) {
    exists row: Row :: row.0 == id && ((row in t.pocs && row !in after.pocs)
                                       || (row in t.disclosures && row !in after.disclosures))
  }

  /** A run that lost a row is counted again, and no other run changes. */
  ghost predicate RunIsRecounted(t: Tables, after: Tables, id: RunId) {
    && (id in after.runs <==> id in t.runs)
    && (id in t.runs ==>
          after.runs[id] ==
          if LosesRow(t, after, id) then
            Run(t.runs[id].output, |set r | r in after.pocs && r.0 == id && after.pocs[r] == Reproduced|,
                |set r | r in after.disclosures && r.0 == id|)
          else t.runs[id])
  }

  /** What is kept for a vulnerability: its folder, its trajectories and its log. */
  predicate IsKeptFor(kind: Kind, p: Place, x: Path) {
    || Folder(kind, p.output, p.vuln) <= x
    || (kind == Poc && p.output + [Name("trajectories"), Name("stage5-pocs"), p.vuln] <= x)
    || (kind == Disclosure && p.output + [Name("trajectories"), Name("stage6-disclosures"), p.vuln] <= x)
    || (kind == Disclosure
        && p.output + [Name("trajectories"), Name("stage6-disclosures"), Name(".dedupe-logs"), JsonName(p.vuln)] <= x)
  }

  ghost predicate IsRemovedPath(t: Tables, q: Request, x: Path) {
    exists kind, p :: IsRemoved(t, q, kind, p) && IsKeptFor(kind, p, x)
  }

  ghost predicate PathIsPurged(t: Tables, before: Tree, after: Tree, q: Request, x: Path) {
    && (x in after <==> x in before && !IsRemovedPath(t, q, x))
    && (x in after ==> after[x] == before[x])
  }

  /** Tables after a purge; n tells the names that the purge makes up itself from all others. */
  ghost predicate TablesArePurged(t: Tables, after: Tables, q: Request) {
    && (forall k :: BugIsPurged(t, after, q, k)) && (forall row :: RowIsPurged(t, after, q, row))
    && forall id :: RunIsRecounted(t, after, id)
  }

  ghost predicate FilesArePurged(t: Tables, before: Tree, after: Tree, q: Request, n: nat) {
    forall x :: IsOld(x, n) ==> PathIsPurged(t, before, after, q, x)
  }

  // The selection meets this description.

  function DueRows(t: Tables, q: Request): set<Key> {
    Expired(t.bugs, q.now - TRASH_RETENTION_SECONDS, q.identities)
  }

  lemma {:induction false} DueIsExpired(t: Tables, q: Request, k: Key)
    ensures k in DueRows(t, q) <==> IsDue(t, q, k)
  {
  }

  lemma {:induction false} FolderIsLayout(kind: Kind, output: Path, vuln: Component)
    ensures Folder(kind, output, vuln) == Layout(kind, output, vuln)
  {
  }

  lemma {:induction false} LinkIsPlace(t: Tables, q: Request, kind: Kind, a: Artifact, p: Place)
    ensures IsLinkTo(t, q, kind, a, p) <==> ArtifactPlace(kind, a, q.root, Registered(kind, t.runs)) == Some(p)
  {
    FolderIsLayout(kind, p.output, p.vuln);
    AllowedIsManaged(t, q, kind, p);
    if a.path != [] && a.path[..|a.path| - 1] == Layout(kind, p.output, p.vuln) && IsVulnId(p.vuln) {
      PlaceOfFolder(kind, a.path, p);
    }
  }

  lemma {:induction false} PlaceOfFolder(kind: Kind, path: Path, p: Place)
    requires path != [] && path[..|path| - 1] == Layout(kind, p.output, p.vuln) && IsVulnId(p.vuln)
    ensures PlaceOf(kind, path) == Some(p)
  {
    var n, d := |p.output|, Layout(kind, p.output, p.vuln);
    assert |d| == n + Depth(kind) - 1;
    assert forall i :: 0 <= i < |d| ==> path[i] == d[i];
    assert d[n] == StageName(kind) && d[n + 1] == p.vuln;
    assert path[..n] == p.output;
  }

  lemma {:induction false} AllowedIsManaged(t: Tables, q: Request, kind: Kind, p: Place)
    ensures IsAllowed(t, q, kind, p.output) <==> IsManaged(kind, p, q.root, Registered(kind, t.runs))
  {
    var dir := p.output + [StageName(kind)];
    if dir in Registered(kind, t.runs) {
      var id :| id in t.runs && t.runs[id].output.Some? && t.runs[id].output.value + [StageName(kind)] == dir;
      assert t.runs[id].output.value == dir[..|dir| - 1] == p.output;
    }
  }

  lemma {:induction false} LinksAreNamed(t: Tables, q: Request, kind: Kind, k: Key, p: Place)
    requires k in t.bugs
    ensures LinksTo(t, q, kind, k, p) <==> p in PlacesOfRow(kind, t, q.root, k)
  {
    forall a
      ensures IsLinkTo(t, q, kind, a, p) <==> ArtifactPlace(kind, a, q.root, Registered(kind, t.runs)) == Some(p)
    {
      LinkIsPlace(t, q, kind, a, p);
    }
  }

  lemma {:induction false} RemovedIsDoomed(t: Tables, q: Request, kind: Kind, p: Place)
    ensures DueRows(t, q) <= t.bugs.Keys
    ensures IsRemoved(t, q, kind, p) <==> p in Doomed(kind, t, q.root, DueRows(t, q))
  {
    forall k
      ensures k in DueRows(t, q) <==> IsDue(t, q, k)
      ensures k in t.bugs ==> (LinksTo(t, q, kind, k, p) <==> p in PlacesOfRow(kind, t, q.root, k))
    {
      DueIsExpired(t, q, k);
      if k in t.bugs {
        LinksAreNamed(t, q, kind, k, p);
      }
    }
  }

  lemma {:induction false} BugsArePurged(t: Tables, q: Request, k: Key)
    requires DueRows(t, q) <= t.bugs.Keys
    ensures BugIsPurged(t, Purged(t, q.root, DueRows(t, q)), q, k)
  {
    DueIsExpired(t, q, k);
  }

  lemma {:induction false} FolderIsGone(t: Tables, q: Request, kind: Kind, row: Row)
    requires DueRows(t, q) <= t.bugs.Keys
    ensures LosesFolder(t, q, kind, row) <==> IsRowOf(t.runs, Doomed(kind, t, q.root, DueRows(t, q)), row)
  {
    if row.0 in t.runs && t.runs[row.0].output.Some? {
      RemovedIsDoomed(t, q, kind, Place(t.runs[row.0].output.value, row.1));
    }
  }

  lemma {:induction false} RowsArePurged(t: Tables, q: Request, row: Row)
    requires DueRows(t, q) <= t.bugs.Keys
    ensures RowIsPurged(t, Purged(t, q.root, DueRows(t, q)), q, row)
  {
    FolderIsGone(t, q, Poc, row);
    FolderIsGone(t, q, Disclosure, row);
  }

  lemma {:induction false} RunsAreRecounted(t: Tables, root: Option<Path>, due: set<Key>, id: RunId)
    requires due <= t.bugs.Keys
    ensures RunIsRecounted(t, Purged(t, root, due), id)
  {
    var after := Purged(t, root, due);
    var pocs := GoneRows(t.pocs.Keys, t.runs, Doomed(Poc, t, root, due));
    var disclosures := GoneRows(t.disclosures, t.runs, Doomed(Disclosure, t, root, due));
    assert forall row :: row in t.pocs && row !in after.pocs <==> row in pocs;
    assert forall row :: row in t.disclosures && row !in after.disclosures <==> row in disclosures;
    assert LosesRow(t, after, id) <==> id in RunsOf(disclosures) + RunsOf(pocs);
  }

  lemma {:induction false} PurgedTables(t: Tables, q: Request)
    ensures DueRows(t, q) <= t.bugs.Keys
    ensures TablesArePurged(t, Purged(t, q.root, DueRows(t, q)), q)
  {
    var after := Purged(t, q.root, DueRows(t, q));
    forall k
      ensures BugIsPurged(t, after, q, k)
    {
      BugsArePurged(t, q, k);
    }
    forall row
      ensures RowIsPurged(t, after, q, row)
    {
      RowsArePurged(t, q, row);
    }
    forall id
      ensures RunIsRecounted(t, after, id)
    {
      RunsAreRecounted(t, q.root, DueRows(t, q), id);
    }
  }

  lemma {:induction false} CoverIsKept(kind: Kind, places: set<Place>, x: Path)
    ensures CoveredBy(x, TargetsOf(kind, places)) <==> exists p :: p in places && IsKeptFor(kind, p, x)
  {
    forall p | p in places
      ensures IsKeptFor(kind, p, x) <==> CoveredBy(x, {Layout(kind, p.output, p.vuln)} + Trajectories(kind, p))
    {
      FolderIsLayout(kind, p.output, p.vuln);
    }
    if CoveredBy(x, TargetsOf(kind, places)) {
      var r :| r in TargetsOf(kind, places) && r <= x;
      var p :| p in places && (r == Layout(kind, p.output, p.vuln) || r in Trajectories(kind, p));
      assert r in {Layout(kind, p.output, p.vuln)} + Trajectories(kind, p);
      assert IsKeptFor(kind, p, x);
    }
    if p :| p in places && IsKeptFor(kind, p, x) {
      var r :| r in {Layout(kind, p.output, p.vuln)} + Trajectories(kind, p) && r <= x;
      assert r in TargetsOf(kind, places);
    }
  }

  lemma {:induction false} PathsArePurged(t: Tables, before: Tree, after: Tree, q: Request, n: nat, x: Path)
    requires DueRows(t, q) <= t.bugs.Keys && IsOld(x, n)
    requires OldWithout(before, after, n, Targets(t, q.root, DueRows(t, q)))
    ensures PathIsPurged(t, before, after, q, x)
  {
    var due := DueRows(t, q);
    assert OldWithoutAt(before, after, n, Targets(t, q.root, due), x);
    CoverIsKept(Poc, Doomed(Poc, t, q.root, due), x);
    CoverIsKept(Disclosure, Doomed(Disclosure, t, q.root, due), x);
    assert CoveredBy(x, Targets(t, q.root, due)) <==>
           CoveredBy(x, TargetsOf(Poc, Doomed(Poc, t, q.root, due)))
           || CoveredBy(x, TargetsOf(Disclosure, Doomed(Disclosure, t, q.root, due)));
    forall kind, p
      ensures IsRemoved(t, q, kind, p) <==> p in Doomed(kind, t, q.root, due)
    {
      RemovedIsDoomed(t, q, kind, p);
    }
  }

  lemma {:induction false} FilesPurged(t: Tables, before: Tree, after: Tree, q: Request, n: nat)
    requires DueRows(t, q) <= t.bugs.Keys && OldWithout(before, after, n, Targets(t, q.root, DueRows(t, q)))
    ensures FilesArePurged(t, before, after, q, n)
  {
    forall x | IsOld(x, n)
      ensures PathIsPurged(t, before, after, q, x)
    {
      PathsArePurged(t, before, after, q, n, x);
    }
  }

  lemma {:induction false} DueAreExpired(t: Tables, q: Request)
    ensures DueRows(t, q) == set key | key in t.bugs && IsDue(t, q, key)
  {
    forall k
      ensures k in DueRows(t, q) <==> IsDue(t, q, k)
    {
      DueIsExpired(t, q, k);
    }
  }

  lemma {:induction false} NothingIsPurged(t: Tables, q: Request)
    requires DueRows(t, q) == {}
    ensures Purged(t, q.root, {}) == t
  {
    assert Doomed(Poc, t, q.root, {}) == {} && Doomed(Disclosure, t, q.root, {}) == {};
    assert GoneRows(t.disclosures, t.runs, {}) == {} && GoneRows(t.pocs.Keys, t.runs, {}) == {};
    assert RecountedRuns(t.runs, {}, t.disclosures, t.pocs) == t.runs;
    assert t.bugs - {} == t.bugs && t.pocs - {} == t.pocs && t.disclosures - {} == t.disclosures;
  }

  lemma {:induction false} NothingIsTargeted(t: Tables, root: Option<Path>)
    ensures Targets(t, root, {}) == {}
  {
    assert Doomed(Poc, t, root, {}) == {} && Doomed(Disclosure, t, root, {}) == {};
  }

  /** The rows that were due are counted and gone, with all that depends on them. */
  ghost predicate IsPurged(t: Tables, t': Tables, before: Tree, after: Tree, q: Request, n: nat, k: nat) {
    && k == |set key | key in t.bugs && IsDue(t, q, key)|
    && TablesArePurged(t, t', q) && FilesArePurged(t, before, after, q, n)
  }

  lemma {:induction false} DueAreRows(t: Tables, q: Request)
    ensures DueRows(t, q) <= t.bugs.Keys
  {
  }

  /** What the statements and the erased files come to. */
  lemma {:induction false} AllIsPurged(t: Tables, t': Tables, before: Tree, after: Tree, q: Request, n: nat,
      targets: set<Path>)
    requires t' == Purged(t, q.root, DueRows(t, q)) && targets == Targets(t, q.root, DueRows(t, q))
    requires OldWithout(before, after, n, targets)
    ensures IsPurged(t, t', before, after, q, n, |DueRows(t, q)|)
  {
    DueAreExpired(t, q);
    PurgedTables(t, q);
    FilesPurged(t, before, after, q, n);
  }

  lemma {:induction false} NoneIsPurged(t: Tables, before: Tree, q: Request, n: nat)
    requires DueRows(t, q) == {} && IsTree(before) && AllOld(before, n)
    ensures IsPurged(t, t, before, before, q, n, 0)
  {
    NothingIsPurged(t, q);
    NothingIsTargeted(t, q.root);
    StagingStart(before, n);
    AllIsPurged(t, t, before, before, q, n, {});
  }

  class AuditStore {
    var tables: Tables
    const managedRoot: Option<Path>

    constructor (tables: Tables, managedRoot: Option<Path>)
      ensures this.tables == tables && this.managedRoot == managedRoot
    {
      this.tables := tables;
      this.managedRoot := managedRoot;
    }

    /**
      * Purge the expired rows. Tables and files change together or not at all: when a rename or a
      * statement fails (and the renames back succeed) both are as on entry; otherwise exactly the
      * selected rows, their dependent rows, and their unprotected paths are gone.
      */
    method PurgeExpired(host: Host, now: real, identities: Option<set<Key>>, n: nat) returns (r: Outcome)
      requires IsTree(host.tree) && AllOld(host.tree, n) && ArtifactsAreOld(tables, n)
      modifies this`tables, host`tree, host`clock
      ensures
        var q := Request(managedRoot, now, identities);
        match r
        case Deleted(k) => IsPurged(old(tables), tables, old(host.tree), host.tree, q, n, k)
        case _ =>
          tables == old(tables) && (host.tree == old(host.tree) || TwoFail(host.fails, old(host.clock), host.clock))
      ensures SomeFails(host.fails, old(host.clock), host.clock) || (r.Deleted? && AllOld(host.tree, n))
    {
      var cutoff := now - TRASH_RETENTION_SECONDS;
      var expired := Expired(tables.bugs, cutoff, identities);
      ghost var due := Request(managedRoot, now, identities);
      if expired == {} {
        NoneIsPurged(tables, host.tree, due, n);
        return Deleted(0);
      }
      r := PurgeRows(host, expired, n, due);
    }

    /** The rows are given: set their directories aside, change the tables, erase what was set aside. */
    method PurgeRows(host: Host, expired: set<Key>, n: nat, ghost due: Request) returns (r: Outcome)
      requires IsTree(host.tree) && AllOld(host.tree, n) && ArtifactsAreOld(tables, n)
      requires due.root == managedRoot && expired == DueRows(tables, due)
      modifies this`tables, host`tree, host`clock
      ensures r.Deleted? ==> IsPurged(old(tables), tables, old(host.tree), host.tree, due, n, r.rows)
      ensures !r.Deleted? ==>
                && tables == old(tables)
                && (host.tree == old(host.tree) || TwoFail(host.fails, old(host.clock), host.clock))
      ensures SomeFails(host.fails, old(host.clock), host.clock) || (r.Deleted? && AllOld(host.tree, n))
    {
      ghost var tree := host.tree;
      DueAreRows(tables, due);
      var pocPlaces := SelectDoomed(Poc, expired);
      var disclosurePlaces := SelectDoomed(Disclosure, expired);
      var targets := TargetsOf(Poc, pocPlaces) + TargetsOf(Disclosure, disclosurePlaces);
      assert targets == Targets(tables, managedRoot, expired);
      forall x | x in targets
        ensures x != [] && IsOld(x, n)
      {
        TargetsAreOld(if x in TargetsOf(Poc, pocPlaces) then Poc else Disclosure, tables, managedRoot, expired, n, x);
      }
      var ok, q, done := Stage(host, targets, n);
      if !ok {
        GiveUp(host, q, tree, old(host.clock));
        return Retained;
      }
      ghost var time := host.clock;
      var work;
      ok, work := RunStatements(host, tables, expired, pocPlaces, disclosurePlaces);
      LongerSpan(host.fails, time, host.clock, old(host.clock), host.clock);
      if !ok {
        GiveUp(host, q, tree, old(host.clock));
        return Raised;
      }
      time := host.clock;
      Erase(host, q, n, tree, targets);
      LongerSpan(host.fails, time, host.clock, old(host.clock), host.clock);
      AllIsPurged(tables, work, tree, host.tree, due, n, targets);
      tables := work;
      return Deleted(|expired|);
    }

    /** The removable directories of the expired rows, minus those that a surviving row names. */
    method SelectDoomed(kind: Kind, expired: set<Key>) returns (places: set<Place>)
      requires expired <= tables.bugs.Keys
      ensures places == Doomed(kind, tables, managedRoot, expired)
    {
      var gone := CollectPlaces(kind, tables, managedRoot, expired);
      var protected := CollectPlaces(kind, tables, managedRoot, tables.bugs.Keys - expired);
      return gone - protected;
    }
  }

  // ----- where removed paths lie ----------------------------------------------------------------

  /** Below the managed root, or below the output directory of a run. */
  predicate LiesManaged(t: Tables, q: Request, x: Path) {
    || (q.root.Some? && q.root.value <= x)
    || exists id :: id in t.runs && t.runs[id].output.Some? && t.runs[id].output.value <= x
  }

  /** The managed root is the directory of a stage, and the path lies among the trajectories beside it. */
  predicate LiesBesideRoot(q: Request, x: Path) {
    && q.root.Some? && q.root.value != []
    && q.root.value[|q.root.value| - 1] in {Name("stage5-pocs"), Name("stage6-disclosures")}
    && Parent(q.root.value) + [Name("trajectories")] <= x
  }

  lemma {:induction false} RemovedLiesInOutput(t: Tables, q: Request, kind: Kind, p: Place, x: Path)
    requires IsRemoved(t, q, kind, p) && IsKeptFor(kind, p, x)
    ensures p.output <= x && IsAllowed(t, q, kind, p.output)
  {
    var k :| IsDue(t, q, k) && LinksTo(t, q, kind, k, p);
    var a :| a in t.bugs[k].artifacts && IsLinkTo(t, q, kind, a, p);
  }

  lemma {:induction false} BelowOrBeside(q: Request, kind: Kind, p: Place, x: Path)
    requires q.root.Some? && q.root.value <= p.output + [StageName(kind)] && IsKeptFor(kind, p, x) && p.output <= x
    ensures q.root.value <= x || LiesBesideRoot(q, x)
  {
    var root := q.root.value;
    if |root| == |p.output| + 1 {
      assert root == p.output + [StageName(kind)] && Parent(root) == p.output;
    } else {
      assert root == (p.output + [StageName(kind)])[..|root|] == p.output[..|root|];
    }
  }

  /** Everything that is removed lies below the managed root or a run's output, or beside such a root. */
  lemma {:induction false} RemovedPathsAreManaged(t: Tables, q: Request, x: Path)
    requires IsRemovedPath(t, q, x)
    ensures LiesManaged(t, q, x) || LiesBesideRoot(q, x)
  {
    var kind, p :| IsRemoved(t, q, kind, p) && IsKeptFor(kind, p, x);
    RemovedLiesInOutput(t, q, kind, p, x);
    if q.root.Some? && q.root.value <= p.output + [StageName(kind)] {
      BelowOrBeside(q, kind, p, x);
    }
  }

  // ----- what survives ------------------------------------------------------------------------

  /** What is kept for a place in an output directory lies in the folder of no other place there. */
  lemma {:induction false} KeptMeetsOwnFolder(kind: Kind, p: Place, kind': Kind, p': Place, x: Path)
    requires p.output == p'.output && IsKeptFor(kind, p, x) && Folder(kind', p'.output, p'.vuln) <= x
    ensures kind == kind' && p == p'
  {
    LayoutNamesDiffer();
    var d, n := Folder(kind', p'.output, p'.vuln), |p.output|;
    assert d[n] == StageName(kind') && d[n + 1] == p'.vuln && x[n] == d[n] && x[n + 1] == d[n + 1];
    var e := Folder(kind, p.output, p.vuln);
    assert e[n] == StageName(kind) && e[n + 1] == p.vuln;
    assert (p.output + [Name("trajectories")])[n] == TRAJECTORIES;
  }

  /** It is kept for a removed place of some other output directory. */
  ghost predicate IsSweptAway(t: Tables, q: Request, output: Path, x: Path) {
    exists kind, p :: SweepsAway(t, q, output, kind, p, x)
  }

  ghost predicate SweepsAway(t: Tables, q: Request, output: Path, kind: Kind, p: Place, x: Path) {
    IsRemoved(t, q, kind, p) && p.output != output && IsKeptFor(kind, p, x)
  }

  /**
    * What lies in a folder that a surviving row links to is still there, exactly unless it is kept for a
    * removed place of another output directory.
    */
  lemma {:induction false} SurvivorsStayExactly(t: Tables, before: Tree, after: Tree, q: Request, n: nat,
      key: Key, kind: Kind, p: Place, x: Path)
    requires FilesArePurged(t, before, after, q, n)
    requires !IsDue(t, q, key) && LinksTo(t, q, kind, key, p)
    requires Folder(kind, p.output, p.vuln) <= x && IsOld(x, n) && x in before
    ensures x in after <==> !IsSweptAway(t, q, p.output, x)
    ensures x in after ==> after[x] == before[x]
  {
    assert PathIsPurged(t, before, after, q, x);
    if kind', p' :| IsRemoved(t, q, kind', p') && IsKeptFor(kind', p', x) {
      if p'.output == p.output {
        KeptMeetsOwnFolder(kind', p', kind, p, x);
        assert false;
      }
      assert SweepsAway(t, q, p.output, kind', p', x);
    }
    if kind', p' :| SweepsAway(t, q, p.output, kind', p', x) {
      assert IsRemoved(t, q, kind', p') && IsKeptFor(kind', p', x);
    }
  }

  /** An output directory that a row links into. */
  ghost predicate IsOutput(t: Tables, q: Request, o: Path) {
    exists kind, k, vuln :: LinksTo(t, q, kind, k, Place(o, vuln))
  }

  ghost predicate OutputsDoNotNest(t: Tables, q: Request) {
    forall a, b :: IsOutput(t, q, a) && IsOutput(t, q, b) && a <= b ==> a == b
  }

  lemma {:induction false} LinkedIsOutput(t: Tables, q: Request, kind: Kind, k: Key, p: Place)
    requires LinksTo(t, q, kind, k, p)
    ensures IsOutput(t, q, p.output)
  {
    assert LinksTo(t, q, kind, k, Place(p.output, p.vuln));
  }

  lemma {:induction false} SweepingOutputsNest(t: Tables, q: Request, output: Path, x: Path)
    requires IsSweptAway(t, q, output, x) && IsOutput(t, q, output) && output <= x
    ensures !OutputsDoNotNest(t, q)
  {
    var kind, p :| SweepsAway(t, q, output, kind, p, x);
    var k :| IsDue(t, q, k) && LinksTo(t, q, kind, k, p);
    LinkedIsOutput(t, q, kind, k, p);
    RemovedLiesInOutput(t, q, kind, p, x);
    CommonPath(p.output, output, x);
  }

  /** So nothing of a surviving row goes when no output tree lies inside another. */
  lemma {:induction false} SurvivorsAreProtected(t: Tables, before: Tree, after: Tree, q: Request, n: nat,
      key: Key, kind: Kind, p: Place, x: Path)
    requires FilesArePurged(t, before, after, q, n) && OutputsDoNotNest(t, q)
    requires !IsDue(t, q, key) && LinksTo(t, q, kind, key, p)
    requires Folder(kind, p.output, p.vuln) <= x && IsOld(x, n) && x in before
    ensures x in after && after[x] == before[x]
  {
    SurvivorsStayExactly(t, before, after, q, n, key, kind, p, x);
    LinkedIsOutput(t, q, kind, key, p);
    if IsSweptAway(t, q, p.output, x) {
      SweepingOutputsNest(t, q, p.output, x);
    }
  }

  // ----- nested outputs, and a root that is a stage -----------------------------------------------

  function Linked(deletedAt: Option<real>, output: Path, vuln: Component): Bug {
    Bug(deletedAt, [Artifact(Stage5Report, output + [Name("stage5-pocs"), vuln, Name("report.md")])])
  }

  lemma {:induction false} LinkedBug(t: Tables, q: Request, k: Key, output: Path, vuln: Component)
    requires k in t.bugs && t.bugs[k] == Linked(t.bugs[k].deletedAt, output, vuln) && IsVulnId(vuln)
    requires IsAllowed(t, q, Poc, output)
    ensures forall kind, p :: LinksTo(t, q, kind, k, p) <==> kind == Poc && p == Place(output, vuln)
  {
    var a := t.bugs[k].artifacts[0];
    assert a.path[..|a.path| - 1] == Folder(Poc, output, vuln);
    forall kind, p
      ensures LinksTo(t, q, kind, k, p) <==> kind == Poc && p == Place(output, vuln)
    {
      if kind == Poc && Folder(Poc, p.output, p.vuln) == Folder(Poc, output, vuln) {
        SameFolder(p, Place(output, vuln));
      }
      assert a in t.bugs[k].artifacts;
    }
  }

  lemma {:induction false} SameFolder(p: Place, p': Place)
    requires Folder(Poc, p.output, p.vuln) == Folder(Poc, p'.output, p'.vuln)
    ensures p == p'
  {
    var d, d' := Folder(Poc, p.output, p.vuln), Folder(Poc, p'.output, p'.vuln);
    assert d[..|d| - 2] == p.output && d'[..|d'| - 2] == p'.output;
    assert d[|d| - 1] == p.vuln && d'[|d'| - 1] == p'.vuln;
  }

  /** One row in the trash since the beginning, and one that stays. */
  function TwoBugs(output: Path, output': Path, vuln: Component): Tables {
    Tables(map[("trashed", "") := Linked(Some(0.0), output, vuln), ("kept", "") := Linked(None, output', vuln)],
           map[], {}, map[])
  }

  lemma {:induction false} OneIsRemoved(t: Tables, q: Request, output: Path, output': Path, vuln: Component)
    requires t == TwoBugs(output, output', vuln) && output != output' && IsVulnId(vuln)
    requires q.now >= 2592000.0 && q.identities.None?
    requires IsAllowed(t, q, Poc, output) && IsAllowed(t, q, Poc, output')
    ensures IsRemoved(t, q, Poc, Place(output, vuln)) && !IsDue(t, q, ("kept", ""))
    ensures LinksTo(t, q, Poc, ("kept", ""), Place(output', vuln))
  {
    LinkedBug(t, q, ("trashed", ""), output, vuln);
    LinkedBug(t, q, ("kept", ""), output', vuln);
    assert IsDue(t, q, ("trashed", "")) && LinksTo(t, q, Poc, ("trashed", ""), Place(output, vuln));
  }

  /** A surviving row whose output lies inside a removed folder loses its own folder with it. */
  lemma {:induction false} NestedSurvivorIsLost(a: Component, vuln: Component, before: Tree, after: Tree, n: nat)
    requires IsVulnId(vuln)
    requires FilesArePurged(TwoBugs([a], [a, STAGE5, vuln, a], vuln), before, after,
                            Request(Some([]), 2592000.0, None), n)
    requires var x := Folder(Poc, [a, STAGE5, vuln, a], vuln); x in before && IsOld(x, n)
    ensures Folder(Poc, [a, STAGE5, vuln, a], vuln) !in after
  {
    var outer, inner, q := [a], [a, STAGE5, vuln, a], Request(Some([]), 2592000.0, None);
    var t, x := TwoBugs(outer, inner, vuln), Folder(Poc, inner, vuln);
    OneIsRemoved(t, q, outer, inner, vuln);
    assert Folder(Poc, outer, vuln) <= x;
    assert SweepsAway(t, q, inner, Poc, Place(outer, vuln), x);
    SurvivorsStayExactly(t, before, after, q, n, ("kept", ""), Poc, Place(inner, vuln), x);
  }

  /** With a stage directory as the managed root, trajectories beside that root are removed. */
  lemma {:induction false} PathBesideRootIsRemoved(a: Component, b: Component, vuln: Component)
    requires IsVulnId(vuln) && a != b && b.Name? && a.Name?
    ensures var q := Request(Some([a, STAGE5]), 2592000.0, None);
            var t := TwoBugs([a], [a, STAGE5, b], vuln);
            var x := [a, TRAJECTORIES, STAGE5, vuln];
            IsRemovedPath(t, q, x) && !LiesManaged(t, q, x)
  {
    var q, x := Request(Some([a, STAGE5]), 2592000.0, None), [a, TRAJECTORIES, STAGE5, vuln];
    var t := TwoBugs([a], [a, STAGE5, b], vuln);
    OneIsRemoved(t, q, [a], [a, STAGE5, b], vuln);
    assert [a] + [Name("trajectories"), Name("stage5-pocs"), vuln] == x;
    assert IsKeptFor(Poc, Place([a], vuln), x);
    LayoutNamesDiffer();
    assert [a, STAGE5][1] != x[1];
  }

  /** The stored number of reproduced findings of a run is the number of its reproduced rows. */
  predicate CountIsRight(t: Tables, id: RunId)
    requires id in t.runs
  {
    t.runs[id].reproduced == CountReproduced(t.pocs, id)
  }

  /** A run that lost a row has the right count afterwards, whatever it was before. */
  lemma {:induction false} AffectedRunsAreRecounted(t: Tables, after: Tables, q: Request, id: RunId)
    requires TablesArePurged(t, after, q) && id in t.runs && LosesRow(t, after, id)
    ensures id in after.runs && CountIsRight(after, id)
  {
    assert RunIsRecounted(t, after, id);
  }

  /** And a run that lost none keeps a count that was right. */
  lemma {:induction false} PurgeKeepsCounts(t: Tables, after: Tables, q: Request, id: RunId)
    requires TablesArePurged(t, after, q) && id in t.runs && CountIsRight(t, id)
    ensures id in after.runs && CountIsRight(after, id)
  {
    assert RunIsRecounted(t, after, id);
    if !LosesRow(t, after, id) {
      SameRows(t, after, q, id);
    }
  }

  lemma {:induction false} SameRows(t: Tables, after: Tables, q: Request, id: RunId)
    requires TablesArePurged(t, after, q) && !LosesRow(t, after, id)
    ensures CountReproduced(after.pocs, id) == CountReproduced(t.pocs, id)
  {
    forall row: Row | row.0 == id
      ensures row in t.pocs <==> row in after.pocs
      ensures row in after.pocs ==> after.pocs[row] == t.pocs[row]
    {
      assert RowIsPurged(t, after, q, row);
    }
    assert (set r | r in t.pocs && r.0 == id && t.pocs[r] == Reproduced)
        == (set r | r in after.pocs && r.0 == id && after.pocs[r] == Reproduced);
  }
}
