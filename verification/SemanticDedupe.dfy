/**
  * Semantic deduplication (code_auditor/semantic_dedupe.py:99-275), with an arbitrary model behind it that
  * may fail or answer anything.
  */
module SemanticDedupe {
  import opened Wrappers

  /** A known disclosure, already normalised to single lines. */
  datatype Known = Known(project: string, key: string, title: Option<string>)

  datatype Candidate = Candidate(id: string, key: string, text: string)

  datatype Verdict = New | Duplicate

  /** What the model answers: nothing usable, or a verdict with the key it matched. */
  datatype Answer = Failed | Unsupported | Said(verdict: Verdict, matched: string)

  datatype Decision = Decision(candidateId: string, verdict: Verdict, matched: string, representative: string)

  /** Asked about the i-th candidate, given the inventory keys so far. */
  type Oracle = (nat, Candidate, map<string, string>) -> Answer

  // ----- the inventory ------------------------------------------------------------------------

  predicate IsOfProject(k: Known, project: string) {
    k.project == project
  }

  function SameProject(known: seq<Known>, project: string): seq<Known> {
    if known == [] then [] else
      var most, last := SameProject(known[..|known| - 1], project), known[|known| - 1];
      if IsOfProject(last, project) then most + [last] else most
  }

  /** Entries of the same project, if there are any; otherwise all. */
  function Relevant(known: seq<Known>, project: string): seq<Known> {
    if SameProject(known, project) != [] then SameProject(known, project) else known
  }

  /** Keys and titles of the entries that have a key. Later entries win. */
  function Inventory(known: seq<Known>): map<string, string> {
    if known == [] then map[] else
      var most, last := Inventory(known[..|known| - 1]), known[|known| - 1];
      if last.key == "" then most else most[last.key := if last.title.Some? then last.title.value else last.key]
  }

  // ----- one candidate ------------------------------------------------------------------------

  datatype State = State(inventory: map<string, string>, retained: seq<Candidate>, decisions: seq<Decision>)

  /** The verdict that counts: an unusable answer, or one that contradicts itself, keeps the candidate. */
  function Judge(answer: Answer, inventory: map<string, string>): (r: Option<string>)
    ensures r.Some? ==> r.value in inventory
  {
    if answer.Said? && answer.verdict.Duplicate? && answer.matched in inventory then Some(answer.matched) else None
  }

  function MatchFor(st: State, i: nat, c: Candidate, oracle: Oracle): (r: Option<string>)
    ensures r.Some? ==> r.value in st.inventory
  {
    if c.key in st.inventory then Some(c.key)
    else if st.inventory == map[] then None
    else Judge(oracle(i, c, st.inventory), st.inventory)
  }

  function Next(st: State, i: nat, c: Candidate, oracle: Oracle): State {
    var matched := MatchFor(st, i, c, oracle);
    if matched.Some? then
      st.(decisions := st.decisions + [Decision(c.id, Duplicate, matched.value, st.inventory[matched.value])])
    else
      State(st.inventory[c.key := c.id], st.retained + [c], st.decisions + [Decision(c.id, New, "", c.id)])
  }

  function After(candidates: seq<Candidate>, inventory: map<string, string>, oracle: Oracle): State {
    if candidates == [] then State(inventory, [], []) else
      var n := |candidates| - 1;
      Next(After(candidates[..n], inventory, oracle), n, candidates[n], oracle)
  }

  // ----- what holds of every run --------------------------------------------------------------

  function NewOnes(candidates: seq<Candidate>, decisions: seq<Decision>): seq<Candidate>
    requires |decisions| == |candidates|
  {
    if candidates == [] then [] else
      var n := |candidates| - 1;
      var most := NewOnes(candidates[..n], decisions[..n]);
      if decisions[n].verdict.New? then most + [candidates[n]] else most
  }

  predicate HasKey(cs: seq<Candidate>, key: string) {
    exists j :: 0 <= j < |cs| && cs[j].key == key
  }

  predicate AreNewKeys(cs: seq<Candidate>, supplied: map<string, string>) {
    && (forall i :: 0 <= i < |cs| ==> cs[i].key !in supplied)
    && forall i, j :: 0 <= i < j < |cs| ==> cs[i].key != cs[j].key
  }

  ghost predicate IsInventory(inventory: map<string, string>, supplied: map<string, string>, retained: seq<Candidate>) {
    forall key :: IsInventoryAt(inventory, supplied, retained, key)
  }

  predicate IsInventoryAt(inventory: map<string, string>, supplied: map<string, string>, retained: seq<Candidate>,
      key: string) {
    key in inventory <==> key in supplied || HasKey(retained, key)
  }

  lemma {:induction false} OneMoreKey(cs: seq<Candidate>, c: Candidate, key: string)
    ensures HasKey(cs + [c], key) <==> HasKey(cs, key) || c.key == key
  {
    var all := cs + [c];
    if j :| 0 <= j < |cs| && cs[j].key == key {
      assert all[j].key == key;
    }
    assert all[|cs|] == c;
  }

  lemma {:induction false} InventoryGrows(st: State, supplied: map<string, string>, c: Candidate)
    requires IsInventory(st.inventory, supplied, st.retained) && AreNewKeys(st.retained, supplied)
    requires c.key !in st.inventory
    ensures IsInventory(st.inventory[c.key := c.id], supplied, st.retained + [c])
    ensures AreNewKeys(st.retained + [c], supplied)
  {
    var inventory', retained' := st.inventory[c.key := c.id], st.retained + [c];
    assert IsInventoryAt(st.inventory, supplied, st.retained, c.key);
    forall key
      ensures IsInventoryAt(inventory', supplied, retained', key)
    {
      assert IsInventoryAt(st.inventory, supplied, st.retained, key);
      OneMoreKey(st.retained, c, key);
    }
  }

  /** Retained candidates have keys of their own, which the supplied inventory does not have. */
  lemma {:induction false} RetainedAreNew(candidates: seq<Candidate>, supplied: map<string, string>, oracle: Oracle)
    ensures var st := After(candidates, supplied, oracle);
            IsInventory(st.inventory, supplied, st.retained) && AreNewKeys(st.retained, supplied)
    decreases |candidates|
  {
    if candidates == [] {
      forall key
        ensures IsInventoryAt(supplied, supplied, [], key)
      {
      }
    } else {
      var n := |candidates| - 1;
      var before := After(candidates[..n], supplied, oracle);
      RetainedAreNew(candidates[..n], supplied, oracle);
      if MatchFor(before, n, candidates[n], oracle).None? {
        InventoryGrows(before, supplied, candidates[n]);
      }
    }
  }

  /** One decision for each candidate, in order; the retained candidates are the new ones, in order. */
  lemma {:induction false} DecisionsInOrder(candidates: seq<Candidate>, supplied: map<string, string>, oracle: Oracle)
    ensures var st := After(candidates, supplied, oracle);
            && |st.decisions| == |candidates|
            && (forall i :: 0 <= i < |candidates| ==> st.decisions[i].candidateId == candidates[i].id)
            && st.retained == NewOnes(candidates, st.decisions)
    decreases |candidates|
  {
    if candidates != [] {
      var n := |candidates| - 1;
      DecisionsInOrder(candidates[..n], supplied, oracle);
      var before, st := After(candidates[..n], supplied, oracle), After(candidates, supplied, oracle);
      assert st.decisions[..n] == before.decisions;
    }
  }

  lemma {:induction false} OneMoreDecision(st: State, i: nat, c: Candidate, oracle: Oracle)
    ensures st.decisions <= Next(st, i, c, oracle).decisions
    ensures |Next(st, i, c, oracle).decisions| == |st.decisions| + 1
  {
  }

  lemma {:induction false} EarlierDecisions(candidates: seq<Candidate>, supplied: map<string, string>, oracle: Oracle,
      i: nat)
    requires i <= |candidates|
    ensures After(candidates[..i], supplied, oracle).decisions <= After(candidates, supplied, oracle).decisions
    decreases |candidates|
  {
    if i < |candidates| {
      var n := |candidates| - 1;
      var before := After(candidates[..n], supplied, oracle);
      EarlierDecisions(candidates[..n], supplied, oracle, i);
      assert candidates[..n][..i] == candidates[..i];
      OneMoreDecision(before, n, candidates[n], oracle);
      assert After(candidates, supplied, oracle) == Next(before, n, candidates[n], oracle);
    } else {
      assert candidates[..i] == candidates;
    }
  }

  /** Why a candidate may be filtered, given what came before it. */
  predicate MayBeFiltered(st: State, i: nat, c: Candidate, oracle: Oracle) {
    || c.key in st.inventory
    || (var answer := oracle(i, c, st.inventory);
        answer.Said? && answer.verdict.Duplicate? && answer.matched in st.inventory)
  }

  /**
    * A candidate is filtered exactly when its key is known, or the model calls it a duplicate of a known
    * key. The matched key is then that of a supplied entry or of an earlier retained candidate, never of a
    * filtered one. So a failing or confused model never drops a candidate.
    */
  lemma {:induction false} WhyFiltered(candidates: seq<Candidate>, supplied: map<string, string>, oracle: Oracle,
      i: nat)
    requires i < |candidates|
    ensures var st, before := After(candidates, supplied, oracle), After(candidates[..i], supplied, oracle);
            && i < |st.decisions|
            && (st.decisions[i].verdict.Duplicate? <==> MayBeFiltered(before, i, candidates[i], oracle))
            && (st.decisions[i].verdict.Duplicate? ==>
                  st.decisions[i].matched in supplied || HasKey(before.retained, st.decisions[i].matched))
  {
    EarlierDecisions(candidates, supplied, oracle, i + 1);
    DecisionsInOrder(candidates[..i], supplied, oracle);
    assert candidates[..i + 1][..i] == candidates[..i];
    var before := After(candidates[..i], supplied, oracle);
    RetainedAreNew(candidates[..i], supplied, oracle);
    var matched := MatchFor(before, i, candidates[i], oracle);
    if matched.Some? {
      assert IsInventoryAt(before.inventory, supplied, before.retained, matched.value);
    }
    assert After(candidates[..i + 1], supplied, oracle) == Next(before, i, candidates[i], oracle);
  }

  // ----- the filter ---------------------------------------------------------------------------

  predicate HasNone(known: seq<Known>, project: string) {
    forall j :: 0 <= j < |known| ==> known[j].project != project
  }

  predicate IsEntry(known: seq<Known>, project: string, all: bool, k: nat, key: string) {
    k < |known| && (all || known[k].project == project) && known[k].key == key && key != ""
  }

  predicate HasEntry(known: seq<Known>, project: string, all: bool, key: string) {
    exists k :: 0 <= k < |known| && IsEntry(known, project, all, k, key)
  }

  predicate IsLastEntry(known: seq<Known>, project: string, all: bool, k: nat, key: string) {
    IsEntry(known, project, all, k, key) && forall j :: k < j < |known| ==> !IsEntry(known, project, all, j, key)
  }

  predicate HasTitle(known: seq<Known>, project: string, all: bool, key: string, title: string) {
    exists k :: 0 <= k < |known| && IsLastEntry(known, project, all, k, key) && TitleOf(known[k]) == title
  }

  function TitleOf(k: Known): string {
    if k.title.Some? then k.title.value else k.key
  }

  /** Some entry that counts has the key. Entries count when they are of the project, or when none is. */
  predicate IsKnown(known: seq<Known>, project: string, key: string) {
    HasEntry(known, project, HasNone(known, project), key)
  }

  /** The title under which a key is known: that of the last entry that counts and has the key. */
  predicate IsKnownAs(known: seq<Known>, project: string, key: string, title: string) {
    HasTitle(known, project, HasNone(known, project), key, title)
  }

  predicate IsKeptAs(candidates: seq<Candidate>, decisions: seq<Decision>, j: nat, key: string)
    requires j < |candidates|
  {
    j < |decisions| && decisions[j].verdict.New? && candidates[j].key == key
  }

  /** An earlier candidate with the key and the id was kept. */
  predicate IsKept(candidates: seq<Candidate>, decisions: seq<Decision>, i: nat, key: string, id: string) {
    exists j :: 0 <= j < i && j < |candidates| && IsKeptAs(candidates, decisions, j, key) && candidates[j].id == id
  }

  /**
    * The decision on one candidate, whatever the model says: a candidate whose key is known is filtered
    * under that key; one that is filtered matches a key that is listed or of an earlier kept candidate, and
    * is represented by what has that key.
    */
  predicate IsRightDecision(candidates: seq<Candidate>, known: seq<Known>, project: string, decisions: seq<Decision>,
      i: nat)
    requires i < |candidates| && i < |decisions|
  {
    var c, d := candidates[i], decisions[i];
    && d.candidateId == c.id
    && (IsKnown(known, project, c.key) ==> d.verdict.Duplicate? && d.matched == c.key)
    && (forall j :: 0 <= j < i && IsKeptAs(candidates, decisions, j, c.key) ==>
                      d.verdict.Duplicate? && d.matched == c.key)
    && (d.verdict.Duplicate? ==>
          || IsKnownAs(known, project, d.matched, d.representative)
          || IsKept(candidates, decisions, i, d.matched, d.representative))
    && (d.verdict.New? ==> d.matched == "" && d.representative == c.id)
  }

  lemma {:induction false} NoneOfProject(known: seq<Known>, project: string)
    ensures SameProject(known, project) == [] <==> HasNone(known, project)
    decreases |known|
  {
    if known != [] {
      NoneOfProject(known[..|known| - 1], project);
      var n := |known| - 1;
      assert HasNone(known, project) ==> HasNone(known[..n], project) && !IsOfProject(known[n], project);
      assert forall j :: 0 <= j < n ==> known[..n][j] == known[j];
    }
  }

  /** The inventory of the entries that count holds their keys, each with the title of its last entry. */
  predicate HoldsEntries(known: seq<Known>, project: string, all: bool, inventory: map<string, string>, key: string) {
    && (key in inventory <==> HasEntry(known, project, all, key))
    && (key in inventory ==> HasTitle(known, project, all, key, inventory[key]))
  }

  lemma {:induction false} OneMoreEntry(known: seq<Known>, project: string, all: bool, inventory: map<string, string>,
      key: string)
    requires known != [] && HoldsEntries(known[..|known| - 1], project, all, inventory, key)
    ensures var last := known[|known| - 1];
            var counts := (all || IsOfProject(last, project)) && last.key != "";
            HoldsEntries(known, project, all, if counts then inventory[last.key := TitleOf(last)] else inventory, key)
  {
    var n := |known| - 1;
    var most := known[..n];
    assert forall k: nat :: k < n ==> (IsEntry(most, project, all, k, key) <==> IsEntry(known, project, all, k, key));
    if IsEntry(known, project, all, n, key) {
      assert IsLastEntry(known, project, all, n, key);
    } else if key in inventory {
      var k :| 0 <= k < n && IsLastEntry(most, project, all, k, key) && TitleOf(most[k]) == inventory[key];
      assert IsLastEntry(known, project, all, k, key);
    }
  }

  function Counted(known: seq<Known>, project: string, all: bool): seq<Known> {
    if all then known else SameProject(known, project)
  }

  lemma {:induction false} InventoryOfEntries(known: seq<Known>, project: string, all: bool, key: string)
    ensures HoldsEntries(known, project, all, Inventory(Counted(known, project, all)), key)
    decreases |known|
  {
    if known != [] {
      var n := |known| - 1;
      InventoryOfEntries(known[..n], project, all, key);
      OneMoreEntry(known, project, all, Inventory(Counted(known[..n], project, all)), key);
      if all || IsOfProject(known[n], project) {
        assert Counted(known, project, all) == Counted(known[..n], project, all) + [known[n]];
        assert Counted(known, project, all)[..|Counted(known[..n], project, all)|] == Counted(known[..n], project, all);
      }
    }
  }

  /** What counts as known from the start: the listed keys, each under the title of its last listed entry. */
  lemma {:induction false} InventoryIsListed(known: seq<Known>, project: string, key: string)
    ensures var supplied := Inventory(Relevant(known, project));
            && (key in supplied <==> IsKnown(known, project, key))
            && (key in supplied ==> IsKnownAs(known, project, key, supplied[key]))
  {
    NoneOfProject(known, project);
    InventoryOfEntries(known, project, HasNone(known, project), key);
  }

  /** The decision on a candidate is the one made when it came up. */
  lemma {:induction false} DecisionAt(candidates: seq<Candidate>, supplied: map<string, string>, oracle: Oracle, i: nat)
    requires i < |candidates|
    ensures var st, before := After(candidates, supplied, oracle), After(candidates[..i], supplied, oracle);
            && i < |st.decisions|
            && Next(before, i, candidates[i], oracle).decisions == before.decisions + [st.decisions[i]]
  {
    EarlierDecisions(candidates, supplied, oracle, i + 1);
    DecisionsInOrder(candidates[..i], supplied, oracle);
    assert candidates[..i + 1][..i] == candidates[..i];
    assert After(candidates[..i + 1], supplied, oracle) ==
           Next(After(candidates[..i], supplied, oracle), i, candidates[i], oracle);
  }

  predicate IsInventoryOf(inventory: map<string, string>, supplied: map<string, string>, candidates: seq<Candidate>,
      decisions: seq<Decision>, i: nat, key: string) {
    && (key in supplied ==> key in inventory && inventory[key] == supplied[key])
    && (forall j :: 0 <= j < i && j < |candidates| && IsKeptAs(candidates, decisions, j, key) ==> key in inventory)
    && (key in inventory && key !in supplied ==> IsKept(candidates, decisions, i, key, inventory[key]))
  }

  lemma {:induction false} InventoryOneMore(st: State, supplied: map<string, string>, candidates: seq<Candidate>,
      decisions: seq<Decision>, i: nat, key: string, oracle: Oracle)
    requires i < |candidates| && i < |decisions|
    requires IsInventoryOf(st.inventory, supplied, candidates, decisions, i, key)
    requires Next(st, i, candidates[i], oracle).decisions == st.decisions + [decisions[i]]
    ensures IsInventoryOf(Next(st, i, candidates[i], oracle).inventory, supplied, candidates, decisions, i + 1, key)
  {
    var inventory' := Next(st, i, candidates[i], oracle).inventory;
    var last := Next(st, i, candidates[i], oracle).decisions[|st.decisions|];
    assert last == decisions[i];
    if key in inventory' && key !in supplied {
      if key in st.inventory && inventory'[key] == st.inventory[key] {
        var j :| 0 <= j < i && j < |candidates| && IsKeptAs(candidates, decisions, j, key)
                 && candidates[j].id == st.inventory[key];
      } else {
        assert IsKeptAs(candidates, decisions, i, key);
      }
    }
  }

  /** The inventory after some candidates holds the supplied keys and those of the kept candidates. */
  lemma {:induction false} InventoryIsKept(candidates: seq<Candidate>, supplied: map<string, string>, oracle: Oracle,
      i: nat, key: string)
    requires i <= |candidates|
    ensures IsInventoryOf(After(candidates[..i], supplied, oracle).inventory, supplied, candidates,
                          After(candidates, supplied, oracle).decisions, i, key)
    decreases i
  {
    if i > 0 {
      var n := i - 1;
      InventoryIsKept(candidates, supplied, oracle, n, key);
      DecisionAt(candidates, supplied, oracle, n);
      assert candidates[..i][..n] == candidates[..n];
      InventoryOneMore(After(candidates[..n], supplied, oracle), supplied, candidates,
                       After(candidates, supplied, oracle).decisions, n, key, oracle);
    }
  }

  lemma {:induction false} DecisionIsRight(candidates: seq<Candidate>, known: seq<Known>, project: string,
      oracle: Oracle, i: nat)
    requires i < |candidates|
    ensures var decisions := After(candidates, Inventory(Relevant(known, project)), oracle).decisions;
            i < |decisions| && IsRightDecision(candidates, known, project, decisions, i)
  {
    var supplied := Inventory(Relevant(known, project));
    var decisions := After(candidates, supplied, oracle).decisions;
    var c, before := candidates[i], After(candidates[..i], supplied, oracle);
    DecisionAt(candidates, supplied, oracle, i);
    InventoryIsListed(known, project, c.key);
    InventoryIsKept(candidates, supplied, oracle, i, c.key);
    var d := decisions[i];
    assert d == Next(before, i, c, oracle).decisions[|before.decisions|];
    InventoryIsListed(known, project, d.matched);
    InventoryIsKept(candidates, supplied, oracle, i, d.matched);
  }

  /**
    * Keep one candidate for each root cause, as far as the model can tell. The state after the loop is that
    * of After, and every decision is right whatever the model answers.
    */
  method Filter(candidates: seq<Candidate>, known: seq<Known>, project: string, oracle: Oracle)
    returns (retained: seq<Candidate>, decisions: seq<Decision>)
    ensures |decisions| == |candidates| && retained == NewOnes(candidates, decisions)
    ensures forall i :: 0 <= i < |candidates| ==> IsRightDecision(candidates, known, project, decisions, i)
    ensures var st := After(candidates, Inventory(Relevant(known, project)), oracle);
            retained == st.retained && decisions == st.decisions
  {
    var supplied := Inventory(Relevant(known, project));
    retained, decisions := FilterLoop(candidates, supplied, oracle);
    DecisionsInOrder(candidates, supplied, oracle);
    forall i | 0 <= i < |candidates|
      ensures IsRightDecision(candidates, known, project, decisions, i)
    {
      DecisionIsRight(candidates, known, project, oracle, i);
    }
  }

  method FilterLoop(candidates: seq<Candidate>, supplied: map<string, string>, oracle: Oracle)
    returns (retained: seq<Candidate>, decisions: seq<Decision>)
    ensures retained == After(candidates, supplied, oracle).retained
    ensures decisions == After(candidates, supplied, oracle).decisions
  {
    var inventory := supplied;
    retained, decisions := [], [];
    for i := 0 to |candidates|
      invariant State(inventory, retained, decisions) == After(candidates[..i], supplied, oracle)
    {
      var c := candidates[i];
      assert candidates[..i + 1][..i] == candidates[..i];
      if c.key in inventory {
        decisions := decisions + [Decision(c.id, Duplicate, c.key, inventory[c.key])];
        continue;
      }
      var matched := None;
      if inventory != map[] {
        matched := Judge(oracle(i, c, inventory), inventory);
      }
      if matched.Some? {
        decisions := decisions + [Decision(c.id, Duplicate, matched.value, inventory[matched.value])];
        continue;
      }
      retained := retained + [c];
      decisions := decisions + [Decision(c.id, New, "", c.id)];
      inventory := inventory[c.key := c.id];
    }
    assert candidates[..|candidates|] == candidates;
  }
}
