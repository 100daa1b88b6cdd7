/**
  * The account of Codex prompt tokens over a whole run (code_auditor/trajectory.py:1000-1042): which
  * growths every step was given, which of them it shows in the end, and which are lost.
  */
module CodexLedger {
  import opened Wrappers
  import opened Atif
  import opened RecorderState
  import opened RecorderRuns
  import opened RecorderFrames
  import opened CodexUsage

  /**
    * The totals reported last, the growth that waits for a message step, the step that takes what comes
    * next, and for every step the growths that were given to it, oldest first.
    */
  datatype Ledger = Ledger(total: Usage, pending: Option<real>, current: Option<nat>, given: seq<seq<real>>)

  const BLANK := Ledger(map[], None, None, [])

  function Settled(l: Ledger): Ledger {
    if l.pending.None? || l.current.None? || l.current.value >= |l.given| then l else
      l.(pending := None, given := l.given[l.current.value := l.given[l.current.value] + [l.pending.value]])
  }

  function Noted(l: Ledger, u: Usage): Ledger {
    Settled(l.(total := u, pending := Some(OrZero(l.pending) + At(UsageDelta(u, l.total), PromptC))))
  }

  function Turned(l: Ledger, a: TurnArgs): Ledger {
    var l1 := if a.usage.Some? then Noted(l, UsageNumbers(a.usage.value)) else l;
    if a.message == "" && a.reasoning == "" && l1.pending.None? then l1
    else Settled(l1.(current := Some(|l1.given|), given := l1.given + [[]]))
  }

  /** Steps that other calls append are given nothing. */
  function Padded(given: seq<seq<real>>, n: nat): (r: seq<seq<real>>)
    ensures |given| <= n ==> |r| == n
    ensures forall i :: 0 <= i < |r| ==> r[i] == if i < |given| then given[i] else []
  {
    if n <= |given| then given else Padded(given, n - 1) + [[]]
  }

  function Entered(l: Ledger, e: Event, steps: nat): Ledger {
    match e
    case CodexTotals(totals) => Noted(l, UsageNumbers(totals))
    case CodexTurned(a) => Turned(l, a)
    case _ => l.(given := Padded(l.given, steps))
  }

  function History(s: Settings, events: seq<Event>): Ledger {
    if events == [] then BLANK else
      Entered(History(s, events[..|events| - 1]), events[|events| - 1], |Run(s, events).steps|)
  }

  // ----- the steps show what the ledger says ----------------------------------------------------

  /** A step shows the last growth it was given, or no figures when it was given none. */
  predicate Shows(d: Dict, growths: seq<real>) {
    if growths == [] then Get(d, Metrics).Null? else ShowsPrompt(d, Truncated(growths[|growths| - 1]))
  }

  predicate ShowsAt(steps: seq<Dict>, given: seq<seq<real>>, i: int) {
    0 <= i < |steps| && i < |given| ==> Shows(steps[i], given[i])
  }

  predicate IsWaiting(pending: Usage, growth: Option<real>) {
    if growth.None? then pending == map[] else PromptC in pending && pending[PromptC] == growth.value
  }

  /** The ledger knows the recorder's counters, and where they go. */
  predicate KnowsCounters(st: State, l: Ledger) {
    && |l.given| == |st.steps| && st.codexTotal == l.total && IsWaiting(st.codexPending, l.pending)
    && match l.current
       case None => st.codexStep.None?
       case Some(i) => i < |st.steps| && st.codexStep == Some(i + 1) && !IsDeterministicStep(st.steps[i])
  }

  ghost predicate Tallies(st: State, l: Ledger) {
    KnowsCounters(st, l) && forall i :: ShowsAt(st.steps, l.given, i)
  }

  /** And what waits, waits for the first message step. */
  ghost predicate IsTallied(st: State, l: Ledger) {
    Tallies(st, l) && (l.current.Some? ==> l.pending.None?)
  }

  lemma {:induction false} GivenMore(d: Dict, growths: seq<real>, pending: Usage)
    requires Shows(d, growths) && PromptC in pending
    ensures var m := StepMetrics(Some(AsReport(pending)), None, map[]);
            && m != map[] && Shows(PutMetrics(d, m), growths + [pending[PromptC]])
            && IsDeterministicStep(PutMetrics(d, m)) == IsDeterministicStep(d)
  {
    var m := StepMetrics(Some(AsReport(pending)), None, map[]);
    TokensOfReport(pending);
    if growths != [] {
      PutPrompt(d, m, Truncated(pending[PromptC]));
    }
    assert Get(PutMetrics(d, m), LlmCallCount) == Get(d, LlmCallCount);
  }

  lemma {:induction false} SettledTallies(st: State, l: Ledger)
    requires Tallies(st, l)
    ensures IsTallied(FlushUsage(st), Settled(l))
  {
    if l.pending.Some? && l.current.Some? {
      var i := l.current.value;
      var m := StepMetrics(Some(AsReport(st.codexPending)), None, map[]);
      assert ShowsAt(st.steps, l.given, i);
      GivenMore(st.steps[i], l.given[i], st.codexPending);
      FlushReplaces(st.(codexPending := map[]), i, m);
      UpdatedTallies(st, l, i, PutMetrics(st.steps[i], m));
    }
  }

  lemma {:induction false} UpdatedTallies(st: State, l: Ledger, i: nat, d: Dict)
    requires Tallies(st, l) && l.current == Some(i) && l.pending.Some?
    requires Shows(d, l.given[i] + [l.pending.value]) && !IsDeterministicStep(d)
    ensures Tallies(st.(codexPending := map[], steps := st.steps[i := d]), Settled(l))
  {
    var steps', given' := st.steps[i := d], Settled(l).given;
    forall j
      ensures ShowsAt(steps', given', j)
    {
      assert ShowsAt(st.steps, l.given, j);
    }
  }

  lemma {:induction false} SameFigures(st: State, l: Ledger, st': State, l': Ledger)
    requires Tallies(st, l) && KnowsCounters(st', l') && st'.steps == st.steps && l'.given == l.given
    ensures Tallies(st', l')
  {
  }

  lemma {:induction false} Collected(pending: Usage, growth: Option<real>, delta: Usage)
    requires IsWaiting(pending, growth) && PromptC in delta
    ensures IsWaiting(AddUsage(pending, delta), Some(OrZero(growth) + At(delta, PromptC)))
  {
  }

  lemma {:induction false} SameDelta(st: State, l: Ledger, u: Usage)
    requires Tallies(st, l) && PromptC in u
    ensures UsageDelta(u, l.total) == UsageDelta(u, st.codexTotal) && PromptC in UsageDelta(u, l.total)
  {
  }

  lemma {:induction false} NotedTallies(st: State, l: Ledger, u: Usage)
    requires Tallies(st, l) && PromptC in u
    ensures IsTallied(Observe(st, u), Noted(l, u))
  {
    var delta := UsageDelta(u, l.total);
    var st1 := st.(codexTotal := u, codexPending := AddUsage(st.codexPending, delta));
    var l1 := l.(total := u, pending := Some(OrZero(l.pending) + At(delta, PromptC)));
    SameDelta(st, l, u);
    NotedIsSettled(l, u, l1);
    assert Observe(st, u) == FlushUsage(st1);
    DeltaNoted(st, l, delta, st1, l1);
    SettledTallies(st1, l1);
  }

  lemma {:induction false} NotedIsSettled(l: Ledger, u: Usage, l': Ledger)
    requires l' == l.(total := u, pending := Some(OrZero(l.pending) + At(UsageDelta(u, l.total), PromptC)))
    ensures Noted(l, u) == Settled(l')
  {
  }

  lemma {:induction false} DeltaNoted(st: State, l: Ledger, delta: Usage, st': State, l': Ledger)
    requires Tallies(st, l) && PromptC in delta && st'.steps == st.steps && st'.codexStep == st.codexStep
    requires l'.given == l.given && l'.current == l.current && st'.codexTotal == l'.total
    requires st'.codexPending == AddUsage(st.codexPending, delta)
    requires l'.pending == Some(OrZero(l.pending) + At(delta, PromptC))
    ensures Tallies(st', l')
  {
    Collected(st.codexPending, l.pending, delta);
    SameFigures(st, l, st', l');
  }

  lemma {:induction false} TurnTallies(st: State, s: Settings, a: TurnArgs, l: Ledger)
    requires Tallies(st, l)
    ensures var l' := Settled(l.(current := Some(|l.given|), given := l.given + [[]]));
            IsTallied(AddTurn(st, s, a), l')
  {
    var n := |st.steps|;
    var st1 := AgentStep(st, s, TurnStep(a)).(codexStep := Some(n + 1));
    var l1 := l.(current := Some(|l.given|), given := l.given + [[]]);
    TurnFields(s, a, n + 1);
    forall i
      ensures ShowsAt(st1.steps, l1.given, i)
    {
      assert ShowsAt(st.steps, l.given, i);
    }
    SettledTallies(st1, l1);
  }

  lemma {:induction false} TurnedTallies(st: State, s: Settings, a: TurnArgs, l: Ledger)
    requires IsTallied(st, l)
    ensures IsTallied(CodexTurn(st, s, a), Turned(l, a))
  {
    if a.usage.Some? {
      var u := UsageNumbers(a.usage.value);
      NotedTallies(st, l, u);
      TurnTallies(Observe(st, u), s, a, Noted(l, u));
    } else {
      TurnTallies(st, s, a, l);
    }
  }

  lemma {:induction false} OthersTally(st: State, s: Settings, e: Event, l: Ledger)
    requires Tallies(st, l) && !PutsFigures(e)
    ensures var st' := Apply(st, s, e); Tallies(st', l.(given := Padded(l.given, |st'.steps|)))
  {
    OthersKeepFields(st, s, e, Metrics);
    OthersKeepFields(st, s, e, LlmCallCount);
    CountersStay(st, s, e);
    KeptTallies(st, Apply(st, s, e), l);
  }

  lemma {:induction false} KeptTallies(st: State, st': State, l: Ledger)
    requires Tallies(st, l) && SameCounters(st, st')
    requires Keep(st.steps, st'.steps, Metrics) && Keep(st.steps, st'.steps, LlmCallCount)
    ensures Tallies(st', l.(given := Padded(l.given, |st'.steps|)))
  {
    var given' := Padded(l.given, |st'.steps|);
    forall i
      ensures ShowsAt(st'.steps, given', i)
    {
      assert ShowsAt(st.steps, l.given, i) && KeepsAt(st.steps, st'.steps, Metrics, i);
    }
    if l.current.Some? {
      assert KeepsAt(st.steps, st'.steps, LlmCallCount, l.current.value);
    }
  }

  /** Figures come from Codex counters only. */
  predicate IsCodexRun(events: seq<Event>) {
    forall i :: 0 <= i < |events| ==> !events[i].Used?
  }

  lemma {:induction false} EnteredTallies(st: State, s: Settings, e: Event, l: Ledger)
    requires IsTallied(st, l) && !e.Used?
    ensures IsTallied(Apply(st, s, e), Entered(l, e, |Apply(st, s, e).steps|))
  {
    match e {
      case CodexTotals(totals) => NotedTallies(st, l, UsageNumbers(totals));
      case CodexTurned(a) => TurnedTallies(st, s, a, l);
      case _ => OthersTally(st, s, e, l);
    }
  }

  lemma {:induction false} RunTallies(s: Settings, events: seq<Event>)
    requires IsCodexRun(events)
    ensures IsTallied(Run(s, events), History(s, events))
    decreases |events|
  {
    if events != [] {
      var most, e := events[..|events| - 1], events[|events| - 1];
      RunTallies(s, most);
      EnteredTallies(Run(s, most), s, e, History(s, most));
    }
  }

  /** Every step ends with the last growth that was given to it, and no other figures. */
  lemma {:induction false} StepsShowTheirLastGrowth(s: Settings, events: seq<Event>, i: nat)
    requires IsCodexRun(events) && i < |Run(s, events).steps|
    ensures |History(s, events).given| == |Run(s, events).steps|
    ensures Shows(Run(s, events).steps[i], History(s, events).given[i])
  {
    RunTallies(s, events);
    assert ShowsAt(Run(s, events).steps, History(s, events).given, i);
  }

  // ----- nothing appears or vanishes but in the account -------------------------------------------

  function Sum(growths: seq<real>): real {
    if growths == [] then 0.0 else Sum(growths[..|growths| - 1]) + growths[|growths| - 1]
  }

  function SumAll(given: seq<seq<real>>): real {
    if given == [] then 0.0 else SumAll(given[..|given| - 1]) + Sum(given[|given| - 1])
  }

  /** What was given to all steps, and what still waits. */
  function Owed(l: Ledger): real {
    SumAll(l.given) + OrZero(l.pending)
  }

  lemma {:induction false} SumLonger(growths: seq<real>, growth: real)
    ensures Sum(growths + [growth]) == Sum(growths) + growth
  {
    assert (growths + [growth])[..|growths|] == growths;
  }

  lemma {:induction false} SumUpdated(given: seq<seq<real>>, i: nat, growths: seq<real>)
    requires i < |given|
    ensures SumAll(given[i := growths]) == SumAll(given) - Sum(given[i]) + Sum(growths)
    decreases |given|
  {
    var n, given' := |given| - 1, given[i := growths];
    if i < n {
      SumUpdated(given[..n], i, growths);
      assert given'[..n] == given[..n][i := growths];
    } else {
      assert given'[..n] == given[..n];
    }
  }

  lemma {:induction false} SumPadded(given: seq<seq<real>>, n: nat)
    ensures SumAll(Padded(given, n)) == SumAll(given)
    decreases n
  {
    if n > |given| {
      SumPadded(given, n - 1);
      assert Padded(given, n)[..|Padded(given, n)| - 1] == Padded(given, n - 1);
    }
  }

  lemma {:induction false} SettledOwes(l: Ledger)
    ensures Owed(Settled(l)) == Owed(l) && Settled(l).total == l.total
  {
    if l.pending.Some? && l.current.Some? && l.current.value < |l.given| {
      var i := l.current.value;
      SumLonger(l.given[i], l.pending.value);
      SumUpdated(l.given, i, l.given[i] + [l.pending.value]);
    }
  }

  lemma {:induction false} TurnedOwes(l: Ledger)
    ensures var l' := Settled(l.(current := Some(|l.given|), given := l.given + [[]]));
            Owed(l') == Owed(l) && l'.total == l.total
  {
    SettledOwes(l.(current := Some(|l.given|), given := l.given + [[]]));
    assert (l.given + [[]])[..|l.given|] == l.given;
  }

  lemma {:induction false} GrowthLonger(us: seq<Usage>, u: Usage)
    ensures Growth(us + [u], PromptC) == Growth(us, PromptC) + At(UsageDelta(u, Before(us)), PromptC)
    ensures Before(us + [u]) == u
  {
    assert (us + [u])[..|us|] == us;
  }

  /** The ledger accounts for the growth of all totals. */
  predicate IsBalanced(l: Ledger, us: seq<Usage>) {
    l.total == Before(us) && Owed(l) == Growth(us, PromptC)
  }

  lemma {:induction false} NotedIsBalanced(l: Ledger, us: seq<Usage>, u: Usage)
    requires IsBalanced(l, us)
    ensures IsBalanced(Noted(l, u), us + [u])
  {
    SettledOwes(l.(total := u, pending := Some(OrZero(l.pending) + At(UsageDelta(u, l.total), PromptC))));
    GrowthLonger(us, u);
  }

  lemma {:induction false} TurnedIsBalanced(l: Ledger, us: seq<Usage>, a: TurnArgs)
    requires IsBalanced(l, us)
    ensures IsBalanced(Turned(l, a), us + TotalsIn(CodexTurned(a)))
  {
    if a.usage.Some? {
      NotedIsBalanced(l, us, UsageNumbers(a.usage.value));
      TurnedOwes(Noted(l, UsageNumbers(a.usage.value)));
    } else {
      assert us + [] == us;
      TurnedOwes(l);
    }
  }

  lemma {:induction false} PaddedIsBalanced(l: Ledger, us: seq<Usage>, n: nat)
    requires IsBalanced(l, us)
    ensures IsBalanced(l.(given := Padded(l.given, n)), us + [])
  {
    SumPadded(l.given, n);
    assert us + [] == us;
  }

  lemma {:induction false} EnteredIsBalanced(l: Ledger, us: seq<Usage>, e: Event, n: nat)
    requires IsBalanced(l, us)
    ensures IsBalanced(Entered(l, e, n), us + TotalsIn(e))
  {
    match e {
      case CodexTotals(totals) => NotedIsBalanced(l, us, UsageNumbers(totals));
      case CodexTurned(a) => TurnedIsBalanced(l, us, a);
      case _ => PaddedIsBalanced(l, us, n);
    }
  }

  /** All growth was given to a step or still waits for one, over any run. */
  lemma {:induction false} HistoryIsBalanced(s: Settings, events: seq<Event>)
    ensures IsBalanced(History(s, events), TotalsOf(events))
    decreases |events|
  {
    if events != [] {
      var most, e := events[..|events| - 1], events[|events| - 1];
      HistoryIsBalanced(s, most);
      EnteredIsBalanced(History(s, most), TotalsOf(most), e, |Run(s, events).steps|);
    }
  }

  // ----- what the document sums up to ---------------------------------------------------------------

  function Last(growths: seq<real>): real {
    if growths == [] then 0.0 else growths[|growths| - 1]
  }

  function SumShown(given: seq<seq<real>>): real {
    if given == [] then 0.0 else SumShown(given[..|given| - 1]) + Last(given[|given| - 1])
  }

  /** What was given to steps before their last growth. */
  function Overwritten(given: seq<seq<real>>): real {
    SumAll(given) - SumShown(given)
  }

  function Tokens(n: nat): real {
    n as real
  }

  /** A number of tokens. */
  ghost predicate IsCount(r: real) {
    exists n: nat :: r == Tokens(n)
  }

  ghost predicate AreCounts(us: seq<Usage>) {
    forall i :: 0 <= i < |us| ==> IsCount(At(us[i], PromptC))
  }

  ghost predicate IsCountAt(given: seq<seq<real>>, i: int) {
    0 <= i < |given| ==> IsCount(Last(given[i]))
  }

  ghost predicate HoldsCounts(l: Ledger) {
    && IsCount(At(l.total, PromptC)) && IsCount(OrZero(l.pending))
    && (l.current.Some? ==> l.current.value < |l.given|)
    && forall i :: IsCountAt(l.given, i)
  }

  lemma {:induction false} ZeroIsCount()
    ensures IsCount(0.0)
  {
    assert 0.0 == Tokens(0);
  }

  lemma {:induction false} SettledHoldsCounts(l: Ledger)
    requires HoldsCounts(l)
    ensures HoldsCounts(Settled(l))
  {
    ZeroIsCount();
    var given' := Settled(l).given;
    forall i
      ensures IsCountAt(given', i)
    {
      assert IsCountAt(l.given, i);
    }
  }

  lemma {:induction false} CountsTogether(a: real, b: real)
    requires IsCount(a) && IsCount(b)
    ensures IsCount(a + b) && (a >= b ==> IsCount(a - b))
  {
    var n: nat :| a == Tokens(n);
    var m: nat :| b == Tokens(m);
    assert a + b == Tokens(n + m);
    if a >= b {
      assert a - b == Tokens(n - m);
    }
  }

  lemma {:induction false} DeltaIsCount(u: Usage, total: Usage)
    requires IsCount(At(u, PromptC)) && IsCount(At(total, PromptC))
    ensures IsCount(At(UsageDelta(u, total), PromptC))
  {
    CountsTogether(At(u, PromptC), At(total, PromptC));
  }

  lemma {:induction false} NotedHoldsCounts(l: Ledger, u: Usage)
    requires HoldsCounts(l) && IsCount(At(u, PromptC))
    ensures HoldsCounts(Noted(l, u))
  {
    DeltaIsCount(u, l.total);
    CountsTogether(OrZero(l.pending), At(UsageDelta(u, l.total), PromptC));
    var l1 := l.(total := u, pending := Some(OrZero(l.pending) + At(UsageDelta(u, l.total), PromptC)));
    assert HoldsCounts(l1);
    SettledHoldsCounts(l1);
    NotedIsSettled(l, u, l1);
  }

  lemma {:induction false} PaddedHoldsCounts(l: Ledger, n: nat)
    requires HoldsCounts(l)
    ensures HoldsCounts(l.(given := Padded(l.given, n)))
  {
    ZeroIsCount();
    var given' := Padded(l.given, n);
    forall i
      ensures IsCountAt(given', i)
    {
      assert IsCountAt(l.given, i);
    }
  }

  lemma {:induction false} StartedHoldsCounts(l: Ledger)
    requires HoldsCounts(l)
    ensures HoldsCounts(Settled(l.(current := Some(|l.given|), given := l.given + [[]])))
  {
    ZeroIsCount();
    var l1 := l.(current := Some(|l.given|), given := l.given + [[]]);
    forall i
      ensures IsCountAt(l1.given, i)
    {
      assert IsCountAt(l.given, i);
    }
    SettledHoldsCounts(l1);
  }

  lemma {:induction false} TurnedHoldsCounts(l: Ledger, a: TurnArgs)
    requires HoldsCounts(l) && AreCounts(TotalsIn(CodexTurned(a)))
    ensures HoldsCounts(Turned(l, a))
  {
    if a.usage.Some? {
      var u := UsageNumbers(a.usage.value);
      assert TotalsIn(CodexTurned(a))[0] == u;
      NotedHoldsCounts(l, u);
      StartedHoldsCounts(Noted(l, u));
    } else {
      StartedHoldsCounts(l);
    }
  }

  lemma {:induction false} EnteredHoldsCounts(l: Ledger, e: Event, n: nat)
    requires HoldsCounts(l) && AreCounts(TotalsIn(e))
    ensures HoldsCounts(Entered(l, e, n))
  {
    match e {
      case CodexTotals(totals) =>
        assert TotalsIn(e)[0] == UsageNumbers(totals);
        NotedHoldsCounts(l, UsageNumbers(totals));
      case CodexTurned(a) => TurnedHoldsCounts(l, a);
      case _ => PaddedHoldsCounts(l, n);
    }
  }

  // ----- totals that overwrite a figure ---------------------------------------------------------------

  /** New totals arrive while the last message step shows a figure. */
  predicate Overwrites(l: Ledger, e: Event) {
    TotalsIn(e) != [] && l.current.Some? && l.current.value < |l.given| && Last(l.given[l.current.value]) != 0.0
  }

  predicate NeverOverwrites(s: Settings, events: seq<Event>) {
    if events == [] then true else
      var most := events[..|events| - 1];
      NeverOverwrites(s, most) && !Overwrites(History(s, most), events[|events| - 1])
  }

  function LastOf(l: Ledger): real {
    if l.current.Some? && l.current.value < |l.given| then Last(l.given[l.current.value]) else 0.0
  }

  lemma {:induction false} ShownUpdated(given: seq<seq<real>>, i: nat, growths: seq<real>)
    requires i < |given|
    ensures SumShown(given[i := growths]) == SumShown(given) - Last(given[i]) + Last(growths)
    decreases |given|
  {
    var n, given' := |given| - 1, given[i := growths];
    if i < n {
      ShownUpdated(given[..n], i, growths);
      assert given'[..n] == given[..n][i := growths];
    } else {
      assert given'[..n] == given[..n];
    }
  }

  lemma {:induction false} SettledOverwrites(l: Ledger)
    ensures Overwritten(Settled(l).given) == Overwritten(l.given) + if l.pending.Some? then LastOf(l) else 0.0
  {
    if l.pending.Some? && l.current.Some? && l.current.value < |l.given| {
      var i := l.current.value;
      SumLonger(l.given[i], l.pending.value);
      SumUpdated(l.given, i, l.given[i] + [l.pending.value]);
      ShownUpdated(l.given, i, l.given[i] + [l.pending.value]);
    }
  }

  lemma {:induction false} NotedOverwrites(l: Ledger, u: Usage)
    ensures Overwritten(Noted(l, u).given) == Overwritten(l.given) + LastOf(l)
  {
    var l1 := l.(total := u, pending := Some(OrZero(l.pending) + At(UsageDelta(u, l.total), PromptC)));
    SettledOverwrites(l1);
    NotedIsSettled(l, u, l1);
  }

  lemma {:induction false} StartedOverwrites(l: Ledger)
    ensures Overwritten(Settled(l.(current := Some(|l.given|), given := l.given + [[]])).given) == Overwritten(l.given)
  {
    SettledOverwrites(l.(current := Some(|l.given|), given := l.given + [[]]));
    assert (l.given + [[]])[..|l.given|] == l.given;
  }

  lemma {:induction false} PaddedOverwrites(given: seq<seq<real>>, n: nat)
    ensures Overwritten(Padded(given, n)) == Overwritten(given)
    decreases n
  {
    if n > |given| {
      PaddedOverwrites(given, n - 1);
      assert Padded(given, n)[..|Padded(given, n)| - 1] == Padded(given, n - 1);
    }
  }

  /** Each call overwrites the figure that the last message step shows, or nothing. */
  lemma {:induction false} TurnedOverwrites(l: Ledger, a: TurnArgs)
    ensures Overwritten(Turned(l, a).given) == Overwritten(l.given) + if a.usage.Some? then LastOf(l) else 0.0
  {
    if a.usage.Some? {
      NotedOverwrites(l, UsageNumbers(a.usage.value));
      StartedOverwrites(Noted(l, UsageNumbers(a.usage.value)));
    } else {
      StartedOverwrites(l);
    }
  }

  lemma {:induction false} EnteredOverwrites(l: Ledger, e: Event, n: nat)
    ensures Overwritten(Entered(l, e, n).given) ==
            Overwritten(l.given) + if TotalsIn(e) != [] then LastOf(l) else 0.0
  {
    match e {
      case CodexTotals(totals) => NotedOverwrites(l, UsageNumbers(totals));
      case CodexTurned(a) => TurnedOverwrites(l, a);
      case _ => PaddedOverwrites(l.given, n);
    }
  }

  lemma {:induction false} CountsSplit(events: seq<Event>)
    requires events != [] && AreCounts(TotalsOf(events))
    ensures AreCounts(TotalsOf(events[..|events| - 1])) && AreCounts(TotalsIn(events[|events| - 1]))
  {
    var most, last := TotalsOf(events[..|events| - 1]), TotalsIn(events[|events| - 1]);
    assert forall i :: 0 <= i < |most| ==> most[i] == TotalsOf(events)[i];
    assert forall i :: 0 <= i < |last| ==> last[i] == TotalsOf(events)[|most| + i];
  }

  /** Something is overwritten exactly when totals arrive while the last message step shows a figure. */
  lemma {:induction false} OverwrittenExactly(s: Settings, events: seq<Event>)
    requires AreCounts(TotalsOf(events))
    ensures HoldsCounts(History(s, events))
    ensures Overwritten(History(s, events).given) >= 0.0
    ensures Overwritten(History(s, events).given) == 0.0 <==> NeverOverwrites(s, events)
    decreases |events|
  {
    if events == [] {
      ZeroIsCount();
    } else {
      var most, e, n := events[..|events| - 1], events[|events| - 1], |Run(s, events).steps|;
      CountsSplit(events);
      OverwrittenExactly(s, most);
      EnteredHoldsCounts(History(s, most), e, n);
      EnteredOverwrites(History(s, most), e, n);
      LastIsCount(History(s, most));
    }
  }

  lemma {:induction false} LastIsCount(l: Ledger)
    requires HoldsCounts(l)
    ensures LastOf(l) >= 0.0
  {
    if l.current.Some? {
      assert IsCountAt(l.given, l.current.value);
    }
  }

  // ----- the sum over the document -------------------------------------------------------------------

  ghost predicate AllShow(steps: seq<Dict>, given: seq<seq<real>>) {
    |given| == |steps| && forall i :: 0 <= i < |steps| ==> Shows(steps[i], given[i]) && IsCount(Last(given[i]))
  }

  lemma {:induction false} ShownAmount(d: Dict, growths: seq<real>)
    requires Shows(d, growths) && IsCount(Last(growths))
    ensures Amount(MetricOf(d, PromptTokens)) == Last(growths)
    ensures MetricOf(d, PromptTokens).Int? || MetricOf(d, PromptTokens).Null?
  {
    var n: nat :| Last(growths) == Tokens(n);
    assert Truncated(Tokens(n)) == n;
  }

  lemma {:induction false} TotalIsShown(steps: seq<Dict>, given: seq<seq<real>>)
    requires AllShow(steps, given)
    ensures Amount(Total(steps, PromptTokens)) == SumShown(given)
    ensures Total(steps, PromptTokens).Int? || Total(steps, PromptTokens).Null?
    decreases |steps|
  {
    if steps != [] {
      var n := |steps| - 1;
      TotalIsShown(steps[..n], given[..n]);
      ShownAmount(steps[n], given[n]);
    }
  }

  /** The document's sum of prompt tokens, what was overwritten and what waits are the growth of all totals. */
  lemma {:induction false} ShownOrLost(s: Settings, events: seq<Event>)
    requires IsCodexRun(events) && AreCounts(TotalsOf(events))
    ensures var l := History(s, events);
            Amount(Total(Run(s, events).steps, PromptTokens)) + Overwritten(l.given) + OrZero(l.pending) ==
            Growth(TotalsOf(events), PromptC)
  {
    var st, l := Run(s, events), History(s, events);
    RunTallies(s, events);
    OverwrittenExactly(s, events);
    HistoryIsBalanced(s, events);
    forall i | 0 <= i < |st.steps|
      ensures Shows(st.steps[i], l.given[i]) && IsCount(Last(l.given[i]))
    {
      assert ShowsAt(st.steps, l.given, i) && IsCountAt(l.given, i);
    }
    TotalIsShown(st.steps, l.given);
  }

  /**
    * The document's prompt tokens are the growth of all totals if and only if no totals arrived while the
    * last message step showed a figure, and nothing waits for a first message step.
    */
  lemma {:induction false} SumIsGrowthExactly(s: Settings, events: seq<Event>)
    requires IsCodexRun(events) && AreCounts(TotalsOf(events))
    ensures Amount(Total(Run(s, events).steps, PromptTokens)) == Growth(TotalsOf(events), PromptC) <==>
            NeverOverwrites(s, events) && OrZero(History(s, events).pending) == 0.0
  {
    ShownOrLost(s, events);
    OverwrittenExactly(s, events);
  }

  // ----- two turns ----------------------------------------------------------------------------------

  function Reported(tokens: nat): Event {
    CodexTotals(map[InputTokens := Int(tokens)])
  }

  lemma {:induction false} NoNumber(usage: Dict, names: seq<Key>)
    requires forall i :: 0 <= i < |names| ==> Get(usage, names[i]).Null?
    ensures Number(usage, names).None?
    decreases |names|
  {
    if names != [] {
      NoNumber(usage, names[1..]);
    }
  }

  lemma {:induction false} ReportedTotals(tokens: nat)
    ensures TotalsIn(Reported(tokens)) == [map[InputC := tokens as real, PromptC := tokens as real]]
  {
    var usage: Dict := map[InputTokens := Int(tokens)];
    assert Number(usage, [InputTokens, InputTokensCamel]) == Some(tokens as real);
    NoNumber(usage, [OutputTokens, OutputTokensCamel]);
    NoNumber(usage, [TotalTokens, TotalTokensCamel]);
    NoNumber(usage, [CacheReadInputTokens, CachedInputTokens, CachedInputTokensCamel]);
    NoNumber(usage, [CacheWriteInputTokens, CacheCreationInputTokens, CacheCreationInputTokensCamel]);
    NoNumber(usage, [ReasoningOutputTokens, ReasoningOutputTokensCamel]);
    assert UsageNumbers(usage) == map[InputC := tokens as real, PromptC := tokens as real];
  }

  predicate AreCodexCalls(events: seq<Event>) {
    forall i :: 0 <= i < |events| ==> events[i].CodexTotals? || events[i].CodexTurned?
  }

  /** The account of Codex calls alone does not depend on the steps. */
  function CodexHistory(events: seq<Event>): Ledger {
    if events == [] then BLANK else Entered(CodexHistory(events[..|events| - 1]), events[|events| - 1], 0)
  }

  lemma {:induction false} CodexHistoryMore(events: seq<Event>, e: Event)
    ensures CodexHistory(events + [e]) == Entered(CodexHistory(events), e, 0)
  {
    assert (events + [e])[..|events|] == events;
  }

  lemma {:induction false} CodexCallsOnly(s: Settings, events: seq<Event>)
    requires AreCodexCalls(events)
    ensures History(s, events) == CodexHistory(events)
    decreases |events|
  {
    if events != [] {
      CodexCallsOnly(s, events[..|events| - 1]);
    }
  }

  /** One report before each of two turns, as a thread counts on. */
  function TwoTurns(first: Event, turn: Event, second: Event): seq<Event> {
    [first] + [turn] + [second] + [turn]
  }

  lemma {:induction false} TwoTurnsEntered(first: Event, turn: Event, second: Event)
    ensures CodexHistory(TwoTurns(first, turn, second)) ==
            Entered(Entered(Entered(Entered(BLANK, first, 0), turn, 0), second, 0), turn, 0)
  {
    CodexHistoryMore([], first);
    assert [] + [first] == [first];
    CodexHistoryMore([first], turn);
    CodexHistoryMore([first] + [turn], second);
    CodexHistoryMore([first] + [turn] + [second], turn);
  }

  lemma {:induction false} TwoTurnsAreCodex(first: Event, turn: Event, second: Event)
    requires first.CodexTotals? && turn.CodexTurned? && second.CodexTotals?
    ensures AreCodexCalls(TwoTurns(first, turn, second))
  {
  }

  function TokensOnly(tokens: nat): Usage {
    map[InputC := Tokens(tokens), PromptC := Tokens(tokens)]
  }

  lemma {:induction false} ReportNoted(l: Ledger, e: Event, before: nat, tokens: nat)
    requires e == Reported(tokens) && before <= tokens && l.total == (if before == 0 then map[] else TokensOnly(before))
    ensures Entered(l, e, 0) ==
            Settled(l.(total := TokensOnly(tokens), pending := Some(OrZero(l.pending) + Tokens(tokens - before))))
  {
    ReportedTotals(tokens);
    assert TotalsIn(e)[0] == TokensOnly(tokens);
    assert At(UsageDelta(TokensOnly(tokens), l.total), PromptC) == Tokens(tokens - before);
  }

  lemma {:induction false} FirstTurnEntered(l: Ledger, turn: Event, growth: real)
    requires turn.CodexTurned? && turn.turn.message != "" && turn.turn.usage.None?
    requires l.pending == Some(growth) && l.current.None? && l.given == []
    ensures Entered(l, turn, 0) == Ledger(l.total, None, Some(0), [[growth]])
  {
    var given: seq<seq<real>> := [[]];
    assert l.given + [[]] == given;
    assert given[0] + [growth] == [growth];
  }

  lemma {:induction false} SecondReportSettled(total: Usage, a: real, b: real)
    ensures Settled(Ledger(total, Some(b), Some(0), [[a]])) == Ledger(total, None, Some(0), [[a, b]])
  {
    var given := [[a]];
    assert given[0] + [b] == [a, b];
  }

  lemma {:induction false} SecondTurnEntered(l: Ledger, turn: Event)
    requires turn.CodexTurned? && turn.turn.message != "" && turn.turn.usage.None? && l.pending.None?
    ensures Entered(l, turn, 0).given == l.given + [[]] && Entered(l, turn, 0).pending.None?
  {
  }

  lemma {:induction false} FirstTurnGiven(tokens: nat, e: Event, turn: Event)
    requires e == Reported(tokens) && turn.CodexTurned? && turn.turn.message != "" && turn.turn.usage.None?
    ensures Entered(Entered(BLANK, e, 0), turn, 0) == Ledger(TokensOnly(tokens), None, Some(0), [[Tokens(tokens)]])
  {
    ReportNoted(BLANK, e, 0, tokens);
    FirstTurnEntered(Entered(BLANK, e, 0), turn, Tokens(tokens));
  }

  lemma {:induction false} SecondTurnGiven(l: Ledger, first: nat, second: nat, e: Event, turn: Event)
    requires l == Ledger(TokensOnly(first), None, Some(0), [[Tokens(first)]]) && 0 < first <= second
    requires e == Reported(second) && turn.CodexTurned? && turn.turn.message != "" && turn.turn.usage.None?
    ensures Entered(Entered(l, e, 0), turn, 0).given == [[Tokens(first), Tokens(second - first)]] + [[]]
  {
    ReportNoted(l, e, first, second);
    SecondReportSettled(TokensOnly(second), Tokens(first), Tokens(second - first));
    SecondTurnEntered(Entered(l, e, 0), turn);
  }

  lemma {:induction false} TwoTurnsHistory(
      events: seq<Event>, first: nat, second: nat, e1: Event, turn: Event, e2: Event)
    requires 0 < first <= second && turn.CodexTurned? && turn.turn.message != "" && turn.turn.usage.None?
    requires e1 == Reported(first) && e2 == Reported(second) && events == TwoTurns(e1, turn, e2)
    ensures CodexHistory(events).given == [[Tokens(first), Tokens(second - first)]] + [[]]
  {
    TwoTurnsEntered(e1, turn, e2);
    FirstTurnGiven(first, e1, turn);
    SecondTurnGiven(Ledger(TokensOnly(first), None, Some(0), [[Tokens(first)]]), first, second, e2, turn);
  }

  /**
    * The report that belongs to the second turn arrives before the second message step. Its growth takes
    * the place of the first turn's figure, and the second step gets none.
    */
  lemma {:induction false} SecondTurnOverwrites(
      s: Settings, events: seq<Event>, first: nat, second: nat, turn: Event)
    requires 0 < first <= second && turn.CodexTurned? && turn.turn.message != "" && turn.turn.usage.None?
    requires events == TwoTurns(Reported(first), turn, Reported(second))
    ensures var steps := Run(s, events).steps;
            |steps| == 2 && ShowsPrompt(steps[0], second - first) && Get(steps[1], Metrics).Null?
  {
    TwoTurnsHistory(events, first, second, Reported(first), turn, Reported(second));
    TwoTurnsAreCodex(Reported(first), turn, Reported(second));
    CodexCallsOnly(s, events);
    TwoTurnsShow(s, events, first, second);
  }

  lemma {:induction false} TwoTurnsShow(s: Settings, events: seq<Event>, first: nat, second: nat)
    requires IsCodexRun(events) && first <= second
    requires History(s, events).given == [[Tokens(first), Tokens(second - first)]] + [[]]
    ensures var steps := Run(s, events).steps;
            |steps| == 2 && ShowsPrompt(steps[0], second - first) && Get(steps[1], Metrics).Null?
  {
    RunTallies(s, events);
    StepsShowTheirLastGrowth(s, events, 0);
    StepsShowTheirLastGrowth(s, events, 1);
    assert Truncated(Tokens(second - first)) == second - first;
  }
}
