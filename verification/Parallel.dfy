/**
  * Bounded parallel work (code_auditor/utils.py:75-129) as interleaved steps. Every item runs as a task of
  * its own: it takes a permit, awaits its worker, records the outcome in its slot, reports completion and
  * gives the permit back. Workers and completion callbacks end whenever and however they like.
  */
module Parallel {
  datatype Outcome<V, E> = Pending | Fulfilled(value: V) | Rejected(error: E)

  datatype Phase = Waiting | Working | Reporting | Finished | Crashed

  datatype State<V, E> = State(
    phases: seq<Phase>, results: seq<Outcome<V, E>>, permits: int, started: seq<nat>, reported: seq<nat>)

  datatype Action<V, E> =
    | Begin(i: nat)                        // takes a permit and calls the worker
    | Settle(i: nat, result: Outcome<V, E>) // the worker returns or raises; on_complete is called if given
    | Leave(i: nat)                        // on_complete returns; the permit is released
    | Crash(i: nat)                        // on_complete raises; the permit is released all the same

  function Limit(concurrency: int): int {
    if concurrency < 1 then 1 else concurrency
  }

  function Fill<T>(n: nat, x: T): (r: seq<T>)
    ensures |r| == n && forall i :: 0 <= i < n ==> r[i] == x
  {
    seq(n, _ => x)
  }

  function Start<V, E>(n: nat, concurrency: int): State<V, E> {
    State(Fill(n, Waiting), Fill(n, Pending), Limit(concurrency), [], [])
  }

  predicate IsEnabled<V, E>(st: State<V, E>, a: Action<V, E>) {
    && a.i < |st.phases|
    && match a
       case Begin(i) => st.phases[i] == Waiting && st.permits > 0
       case Settle(i, result) => st.phases[i] == Working && !result.Pending?
       case Leave(i) => st.phases[i] == Reporting
       case Crash(i) => st.phases[i] == Reporting
  }

  function Do<V, E>(st: State<V, E>, a: Action<V, E>): State<V, E>
    requires |st.results| == |st.phases| && IsEnabled(st, a)
  {
    match a
    case Begin(i) => st.(phases := st.phases[i := Working], permits := st.permits - 1, started := st.started + [i])
    case Settle(i, result) =>
      st.(phases := st.phases[i := Reporting], results := st.results[i := result], reported := st.reported + [i])
    case Leave(i) => st.(phases := st.phases[i := Finished], permits := st.permits + 1)
    case Crash(i) => st.(phases := st.phases[i := Crashed], permits := st.permits + 1)
  }

  /** The state after a sequence of steps, if they can be taken in that order. */
  ghost predicate Leads<V(!new), E(!new)>(
      n: nat, concurrency: int, actions: seq<Action<V, E>>, st: State<V, E>)
    decreases |actions|
  {
    if actions == [] then st == Start(n, concurrency) else
      exists before: State<V, E> ::
        && Leads(n, concurrency, actions[..|actions| - 1], before)
        && |before.results| == |before.phases| && IsEnabled(before, actions[|actions| - 1])
        && st == Do(before, actions[|actions| - 1])
  }

  // ----- counting tasks ---------------------------------------------------------------------

  function Weight(p: Phase): nat {
    match p
    case Waiting => 3
    case Working => 2
    case Reporting => 1
    case _ => 0
  }

  function Holding(p: Phase): nat {
    if p == Working || p == Reporting then 1 else 0
  }

  function InFlight(ps: seq<Phase>): nat {
    if ps == [] then 0 else InFlight(ps[..|ps| - 1]) + Holding(ps[|ps| - 1])
  }

  /** How many steps are still to come. */
  function StepsLeft(ps: seq<Phase>): nat {
    if ps == [] then 0 else StepsLeft(ps[..|ps| - 1]) + Weight(ps[|ps| - 1])
  }

  lemma {:induction false} Counts(ps: seq<Phase>, i: nat, p: Phase)
    requires i < |ps|
    ensures InFlight(ps[i := p]) == InFlight(ps) - Holding(ps[i]) + Holding(p)
    ensures StepsLeft(ps[i := p]) == StepsLeft(ps) - Weight(ps[i]) + Weight(p)
    decreases |ps|
  {
    var n := |ps| - 1;
    if i < n {
      Counts(ps[..n], i, p);
      assert ps[i := p][..n] == ps[..n][i := p];
    } else {
      assert ps[i := p][..n] == ps[..n];
    }
  }

  lemma {:induction false} AllWaiting(n: nat)
    ensures InFlight(Fill(n, Waiting)) == 0 && StepsLeft(Fill(n, Waiting)) == 3 * n
  {
    if n > 0 {
      AllWaiting(n - 1);
      assert Fill(n, Waiting)[..n - 1] == Fill(n - 1, Waiting);
    }
  }

  lemma {:induction false} NoneInFlight(ps: seq<Phase>)
    requires forall i :: 0 <= i < |ps| ==> Holding(ps[i]) == 0
    ensures InFlight(ps) == 0
    decreases |ps|
  {
    if ps != [] {
      NoneInFlight(ps[..|ps| - 1]);
    }
  }

  // ----- the invariant ------------------------------------------------------------------------

  /** What item i's own worker made of it, if it has ended. */
  function OutcomeOf<V, E>(actions: seq<Action<V, E>>, i: nat): Outcome<V, E> {
    if actions == [] then Pending else
      var a := actions[|actions| - 1];
      if a.Settle? && a.i == i then a.result else OutcomeOf(actions[..|actions| - 1], i)
  }

  predicate IsDistinct(s: seq<nat>) {
    forall i, j :: 0 <= i < j < |s| ==> s[i] != s[j]
  }

  predicate HasStarted(p: Phase) {
    p != Waiting
  }

  predicate HasSettled(p: Phase) {
    p == Reporting || p == Finished || p == Crashed
  }

  predicate IsInStep<V(==), E(==)>(st: State<V, E>, actions: seq<Action<V, E>>, i: nat)
    requires |st.results| == |st.phases|
  {
    i < |st.phases| ==>
      && (i in st.started <==> HasStarted(st.phases[i]))
      && (i in st.reported <==> HasSettled(st.phases[i]))
      && (st.results[i].Pending? <==> !HasSettled(st.phases[i]))
      && st.results[i] == OutcomeOf(actions, i)
  }

  ghost predicate Good<V(!new), E(!new)>(n: nat, concurrency: int, st: State<V, E>, actions: seq<Action<V, E>>) {
    && |st.phases| == n && |st.results| == n
    && st.permits >= 0 && InFlight(st.phases) + st.permits == Limit(concurrency)
    && StepsLeft(st.phases) + |actions| <= 3 * n
    && IsDistinct(st.started) && IsDistinct(st.reported)
    && (forall k :: k in st.started || k in st.reported ==> k < n)
    && forall i :: IsInStep(st, actions, i)
  }

  lemma {:induction false} StartIsGood<V(!new), E(!new)>(n: nat, concurrency: int)
    ensures Good(n, concurrency, Start<V, E>(n, concurrency), [])
  {
    AllWaiting(n);
  }

  lemma {:induction false} Appended(s: seq<nat>, i: nat)
    requires IsDistinct(s) && i !in s
    ensures IsDistinct(s + [i]) && forall k :: k in s + [i] <==> k in s || k == i
  {
  }

  /** A step of one task leaves the others as they are. */
  lemma {:induction false} OthersStay<V(!new), E(!new)>(
      st: State<V, E>, actions: seq<Action<V, E>>, a: Action<V, E>, j: nat)
    requires |st.results| == |st.phases| && IsEnabled(st, a) && j != a.i && IsInStep(st, actions, j)
    ensures IsInStep(Do(st, a), actions + [a], j)
  {
    assert (actions + [a])[..|actions|] == actions;
  }

  lemma {:induction false} OwnStep<V(!new), E(!new)>(st: State<V, E>, actions: seq<Action<V, E>>, a: Action<V, E>)
    requires |st.results| == |st.phases| && IsEnabled(st, a) && IsInStep(st, actions, a.i)
    ensures IsInStep(Do(st, a), actions + [a], a.i)
  {
    assert (actions + [a])[..|actions|] == actions;
  }

  lemma {:induction false} StepCounts<V(!new), E(!new)>(st: State<V, E>, a: Action<V, E>)
    requires |st.results| == |st.phases| && IsEnabled(st, a) && st.permits >= 0
    ensures var st' := Do(st, a);
            && InFlight(st'.phases) + st'.permits == InFlight(st.phases) + st.permits && st'.permits >= 0
            && StepsLeft(st'.phases) + 1 == StepsLeft(st.phases)
  {
    Counts(st.phases, a.i, Do(st, a).phases[a.i]);
  }

  lemma {:induction false} StepKeepsLogs<V(!new), E(!new)>(st: State<V, E>, actions: seq<Action<V, E>>, a: Action<V, E>)
    requires |st.results| == |st.phases| && IsEnabled(st, a) && IsInStep(st, actions, a.i)
    requires IsDistinct(st.started) && IsDistinct(st.reported)
    requires forall k :: k in st.started || k in st.reported ==> k < |st.phases|
    ensures var st' := Do(st, a);
            && IsDistinct(st'.started) && IsDistinct(st'.reported)
            && forall k :: k in st'.started || k in st'.reported ==> k < |st.phases|
  {
    if a.Begin? {
      Appended(st.started, a.i);
    } else if a.Settle? {
      Appended(st.reported, a.i);
    }
  }

  lemma {:induction false} StepIsGood<V(!new), E(!new)>(
      n: nat, concurrency: int, st: State<V, E>, actions: seq<Action<V, E>>, a: Action<V, E>)
    requires Good(n, concurrency, st, actions) && IsEnabled(st, a)
    ensures Good(n, concurrency, Do(st, a), actions + [a])
  {
    var st' := Do(st, a);
    var actions' := actions + [a];
    assert IsInStep(st, actions, a.i);
    StepCounts(st, a);
    StepKeepsLogs(st, actions, a);
    forall i: nat
      ensures IsInStep(st', actions', i)
    {
      assert IsInStep(st, actions, i);
      if i == a.i {
        OwnStep(st, actions, a);
      } else {
        OthersStay(st, actions, a, i);
      }
    }
  }

  lemma {:induction false} RunsAreGood<V(!new), E(!new)>(
      n: nat, concurrency: int, actions: seq<Action<V, E>>, st: State<V, E>)
    requires Leads(n, concurrency, actions, st)
    ensures Good(n, concurrency, st, actions)
    decreases |actions|
  {
    if actions == [] {
      StartIsGood<V, E>(n, concurrency);
    } else {
      var most, a := actions[..|actions| - 1], actions[|actions| - 1];
      var before :| && Leads(n, concurrency, most, before)
                    && |before.results| == |before.phases| && IsEnabled(before, a) && st == Do(before, a);
      RunsAreGood(n, concurrency, most, before);
      StepIsGood(n, concurrency, before, most, a);
      assert most + [a] == actions;
    }
  }

  // ----- the promises -------------------------------------------------------------------------

  /** At most max(1, concurrency) workers are in flight; each runs once and fills its own slot only. */
  lemma {:induction false} Bounded<V(!new), E(!new)>(
      n: nat, concurrency: int, actions: seq<Action<V, E>>, st: State<V, E>)
    requires Leads(n, concurrency, actions, st)
    ensures InFlight(st.phases) <= Limit(concurrency)
    ensures IsDistinct(st.started) && IsDistinct(st.reported)
    ensures |st.results| == n && forall i :: 0 <= i < n ==> st.results[i] == OutcomeOf(actions, i)
  {
    RunsAreGood(n, concurrency, actions, st);
    forall i | 0 <= i < n
      ensures st.results[i] == OutcomeOf(actions, i)
    {
      assert IsInStep(st, actions, i);
    }
  }

  ghost predicate IsStuck<V(!new), E(!new)>(st: State<V, E>) {
    forall a: Action<V, E> :: !IsEnabled(st, a)
  }

  lemma {:induction false} StuckTask<V(!new), E(!new)>(n: nat, concurrency: int, actions: seq<Action<V, E>>,
                                                      st: State<V, E>, error: E, i: nat)
    requires Good(n, concurrency, st, actions) && IsStuck(st) && i < n
    ensures Holding(st.phases[i]) == 0 && (st.permits > 0 ==> st.phases[i] != Waiting)
  {
    assert !IsEnabled(st, Action<V, E>.Begin(i));
    assert !IsEnabled(st, Action<V, E>.Settle(i, Rejected(error)));
    assert !IsEnabled(st, Action<V, E>.Leave(i));
  }

  /**
    * No deadlock and no endless run: a run takes at most three steps for each item, and where no step is
    * possible every item was started once, and reported once, and has an outcome.
    */
  lemma {:induction false} Completes<V(!new), E(!new)>(
      n: nat, concurrency: int, actions: seq<Action<V, E>>, st: State<V, E>, error: E)
    requires Leads(n, concurrency, actions, st)
    ensures |actions| <= 3 * n
    ensures IsStuck(st) ==> forall i :: 0 <= i < n ==> IsSettled(st, i)
  {
    RunsAreGood(n, concurrency, actions, st);
    if IsStuck(st) {
      forall i | 0 <= i < n
        ensures Holding(st.phases[i]) == 0
      {
        StuckTask(n, concurrency, actions, st, error, i);
      }
      NoneInFlight(st.phases);
      forall i | 0 <= i < n
        ensures IsSettled(st, i)
      {
        StuckTask(n, concurrency, actions, st, error, i);
        assert IsInStep(st, actions, i);
      }
    }
  }

  predicate IsSettled<V, E>(st: State<V, E>, i: nat)
  {
    && i < |st.phases| && i < |st.results|
    && (st.phases[i] == Finished || st.phases[i] == Crashed)
    && !st.results[i].Pending? && i in st.started && i in st.reported
  }

  // ----- collecting ---------------------------------------------------------------------------

  function Values<V, E>(results: seq<Outcome<V, E>>, isTruthy: V -> bool): seq<V> {
    if results == [] then [] else
      var most, last := Values(results[..|results| - 1], isTruthy), results[|results| - 1];
      if last.Fulfilled? && isTruthy(last.value) then most + [last.value] else most
  }

  /** One error for each rejected item, under the item's id. */
  function Errors<T, V, E>(results: seq<Outcome<V, E>>, items: seq<T>, itemId: T -> string): seq<(string, E)>
    requires |results| <= |items|
  {
    if results == [] then [] else
      var most, n := Errors(results[..|results| - 1], items, itemId), |results| - 1;
      if results[n].Rejected? then most + [(itemId(items[n]), results[n].error)] else most
  }

  function Paired<T, V, E>(results: seq<Outcome<V, E>>, items: seq<T>): (r: seq<Outcome<V, E>>)
    ensures |r| <= |items|
  {
    if |results| <= |items| then results else results[..|items|]
  }

  /** A truthy value stands after exactly the truthy values of the items before it. */
  lemma {:induction false} ValueAt<V, E>(results: seq<Outcome<V, E>>, isTruthy: V -> bool, i: nat)
    requires i < |results| && results[i].Fulfilled? && isTruthy(results[i].value)
    ensures Values(results[..i], isTruthy) + [results[i].value] <= Values(results, isTruthy)
    decreases |results|
  {
    var most := results[..|results| - 1];
    if i < |most| {
      ValueAt(most, isTruthy, i);
      assert most[..i] == results[..i];
    }
  }

  lemma {:induction false} ErrorAt<T, V, E>(results: seq<Outcome<V, E>>, items: seq<T>, itemId: T -> string, i: nat)
    requires i < |results| <= |items| && results[i].Rejected?
    ensures Errors(results[..i], items, itemId) + [(itemId(items[i]), results[i].error)]
            <= Errors(results, items, itemId)
    decreases |results|
  {
    var most := results[..|results| - 1];
    if i < |most| {
      ErrorAt(most, items, itemId, i);
      assert most[..i] == results[..i];
    }
  }

  function Dropped<V, E>(results: seq<Outcome<V, E>>, isTruthy: V -> bool): nat {
    if results == [] then 0 else
      var last := results[|results| - 1];
      Dropped(results[..|results| - 1], isTruthy)
      + if last.Pending? || (last.Fulfilled? && !isTruthy(last.value)) then 1 else 0
  }

  /** Nothing else is collected: every item gives a value, an error, or nothing worth keeping. */
  lemma {:induction false} Accounted<T, V, E>(
      results: seq<Outcome<V, E>>, items: seq<T>, itemId: T -> string, isTruthy: V -> bool)
    requires |results| <= |items|
    ensures |Values(results, isTruthy)| + |Errors(results, items, itemId)| + Dropped(results, isTruthy) == |results|
    decreases |results|
  {
    if results != [] {
      Accounted(results[..|results| - 1], items, itemId, isTruthy);
    }
  }

  /** collect_parallel_results: truthy values in item order; results beyond the items are ignored. */
  method Collect<T, V, E>(results: seq<Outcome<V, E>>, items: seq<T>, itemId: T -> string, isTruthy: V -> bool)
    returns (collected: seq<V>, errors: seq<(string, E)>)
    ensures collected == Values(Paired(results, items), isTruthy)
    ensures errors == Errors(Paired(results, items), items, itemId)
  {
    collected, errors := [], [];
    var paired := Paired(results, items);
    for index := 0 to |results|
      invariant collected == Values(FirstOf(paired, index), isTruthy)
      invariant errors == Errors(FirstOf(paired, index), items, itemId)
    {
      if index < |items| {
        assert FirstOf(paired, index + 1)[..index] == FirstOf(paired, index);
        assert FirstOf(paired, index + 1)[index] == results[index];
        match results[index] {
          case Rejected(error) => errors := errors + [(itemId(items[index]), error)];
          case Fulfilled(value) =>
            if isTruthy(value) {
              collected := collected + [value];
            }
          case Pending =>
        }
      }
    }
  }

  function FirstOf<T>(s: seq<T>, n: nat): (r: seq<T>)
    ensures |r| <= |s| && (n >= |s| ==> r == s)
  {
    if n <= |s| then s[..n] else s
  }
}
