/**
  * The queue between the event bus and one browser (code_auditor/web/progress.py:35-108): bounded, and
  * under pressure it gives up ordinary events before lifecycle events.
  */
module BoundedQueue {
  import opened Wrappers

  datatype Level = Warning | Error | Critical | OtherLevel
  datatype Kind = Job | Stage | Log(level: Level) | OtherKind
  datatype Event = Event(kind: Kind, eid: nat, body: string)

  predicate IsPriority(e: Event) {
    e.kind.Job? || e.kind.Stage? || (e.kind.Log? && !e.kind.level.OtherLevel?)
  }

  predicate IsOrdinary(e: Event) {
    !IsPriority(e)
  }

  predicate IsJob(e: Event) {
    e.kind.Job?
  }

  predicate NotJob(e: Event) {
    !IsJob(e)
  }

  /** The first position whose event is wanted, or the length. */
  function First(items: seq<Event>, wanted: Event -> bool): (k: nat)
    ensures k <= |items| && (k < |items| ==> wanted(items[k]))
    ensures forall i :: 0 <= i < k ==> !wanted(items[i])
  {
    if items == [] || wanted(items[0]) then 0 else 1 + First(items[1..], wanted)
  }

  function Without(items: seq<Event>, k: nat): seq<Event>
    requires k < |items|
  {
    items[..k] + items[k + 1..]
  }

  /** Which queued event makes room in a full queue: the oldest ordinary one, else the oldest that is no job event. */
  function Evicted(items: seq<Event>): (k: nat)
    requires items != []
    ensures k < |items|
  {
    if First(items, IsOrdinary) < |items| then First(items, IsOrdinary)
    else if First(items, NotJob) < |items| then First(items, NotJob) else 0
  }

  predicate IsRefused(items: seq<Event>, e: Event, maxsize: nat) {
    |items| >= maxsize && IsOrdinary(e) && First(items, IsOrdinary) == |items|
  }

  /** put_nowait */
  function Put(items: seq<Event>, e: Event, maxsize: nat): seq<Event>
    requires maxsize >= 1
  {
    if |items| < maxsize then items + [e]
    else if IsRefused(items, e, maxsize) then items
    else Without(items, Evicted(items)) + [e]
  }

  /** The event that is lost when one is put. */
  function Lost(items: seq<Event>, e: Event, maxsize: nat): seq<Event>
    requires maxsize >= 1
  {
    if |items| < maxsize then [] else if IsRefused(items, e, maxsize) then [e] else [items[Evicted(items)]]
  }

  /**
    * One event is lost when the queue is full, and only then. It is ordinary if any queued event or the
    * new one is, and it is a job event exactly when all queued events are and the new one has priority.
    */
  lemma {:induction false} EvictionRules(items: seq<Event>, e: Event, maxsize: nat)
    requires maxsize >= 1 && |items| <= maxsize
    ensures |Put(items, e, maxsize)| <= maxsize
    ensures |Lost(items, e, maxsize)| == if |items| == maxsize then 1 else 0
    ensures |items| == maxsize ==>
              var lost := Lost(items, e, maxsize)[0];
              && (IsOrdinary(lost) <==> IsOrdinary(e) || exists i :: 0 <= i < |items| && IsOrdinary(items[i]))
              && (IsJob(lost) <==> IsPriority(e) && forall i :: 0 <= i < |items| ==> IsJob(items[i]))
  {
    if |items| == maxsize {
      var k := First(items, IsOrdinary);
      var j := First(items, NotJob);
      assert forall i :: 0 <= i < |items| && i < k ==> !IsOrdinary(items[i]);
      assert forall i :: 0 <= i < |items| && i < j ==> IsJob(items[i]);
      if k < |items| {
        assert !IsJob(items[k]);
      }
    }
  }

  // ----- the queue ----------------------------------------------------------------------------

  class BoundedEventQueue {
    const maxsize: nat
    var items: seq<Event>
    var ready: bool

    /** A waiting reader is woken whenever there is something to read, and only then. */
    predicate Valid()
      reads this
    {
      maxsize >= 1 && |items| <= maxsize && (ready <==> items != [])
    }

    constructor (maxsize: nat)
      requires maxsize >= 1
      ensures Valid() && this.maxsize == maxsize && items == []
    {
      this.maxsize := maxsize;
      items, ready := [], false;
    }

    method Search(wanted: Event -> bool) returns (k: nat)
      ensures k == First(items, wanted)
    {
      k := 0;
      while k < |items| && !wanted(items[k])
        invariant k <= |items| && forall i :: 0 <= i < k ==> !wanted(items[i])
      {
        k := k + 1;
      }
      FirstIsUnique(items, wanted, k);
    }

    method PutNowait(e: Event)
      requires Valid()
      modifies this
      ensures Valid() && items == Put(old(items), e, maxsize)
    {
      EvictionRules(items, e, maxsize);
      if |items| >= maxsize {
        var drop := Search(IsOrdinary);
        if drop == |items| {
          if IsOrdinary(e) {
            return;
          }
          drop := Search(NotJob);
          if drop == |items| {
            drop := 0;
          }
        }
        items := Without(items, drop);
      }
      items := items + [e];
      ready := true;
    }

    /** The oldest event, or nothing: then the reader waits until there is one. */
    method Get() returns (e: Option<Event>)
      requires Valid()
      modifies this
      ensures Valid()
      ensures old(items) == [] ==> e == None && items == []
      ensures old(items) != [] ==> e == Some(old(items)[0]) && items == old(items)[1..]
    {
      if items == [] {
        ready := false;
        return None;
      }
      e := Some(items[0]);
      items := items[1..];
      if items == [] {
        ready := false;
      }
    }
  }

  lemma {:induction false} FirstIsUnique(items: seq<Event>, wanted: Event -> bool, k: nat)
    requires k <= |items| && (forall i :: 0 <= i < k ==> !wanted(items[i])) && (k < |items| ==> wanted(items[k]))
    ensures k == First(items, wanted)
  {
  }

  // ----- runs ---------------------------------------------------------------------------------

  datatype Op = Publish(e: Event) | Read

  /** What has happened to everything published so far. */
  datatype History = History(
    published: seq<Event>, queued: seq<Event>, delivered: seq<Event>, lost: seq<Event>)

  function Next(h: History, op: Op, maxsize: nat): History
    requires maxsize >= 1
  {
    match op
    case Publish(e) =>
      History(h.published + [e], Put(h.queued, e, maxsize), h.delivered, h.lost + Lost(h.queued, e, maxsize))
    case Read =>
      if h.queued == [] then h else
        h.(queued := h.queued[1..], delivered := h.delivered + [h.queued[0]])
  }

  function Run(ops: seq<Op>, maxsize: nat): History
    requires maxsize >= 1
  {
    if ops == [] then History([], [], [], []) else Next(Run(ops[..|ops| - 1], maxsize), ops[|ops| - 1], maxsize)
  }

  /** a can be had from b by leaving events out. */
  predicate IsWithin(a: seq<Event>, b: seq<Event>) {
    if a == [] then true
    else if b == [] then false
    else (a[|a| - 1] == b[|b| - 1] && IsWithin(a[..|a| - 1], b[..|b| - 1])) || IsWithin(a, b[..|b| - 1])
  }

  lemma {:induction false} WithinLonger(a: seq<Event>, b: seq<Event>, e: Event)
    requires IsWithin(a, b)
    ensures IsWithin(a, b + [e]) && IsWithin(a + [e], b + [e])
  {
    assert (b + [e])[..|b|] == b && (a + [e])[..|a|] == a;
  }

  lemma {:induction false} WithinShorter(a: seq<Event>, b: seq<Event>)
    requires a != [] && IsWithin(a, b)
    ensures IsWithin(a[..|a| - 1], b)
    decreases |b|
  {
    var most := b[..|b| - 1];
    if a[|a| - 1] == b[|b| - 1] && IsWithin(a[..|a| - 1], most) {
      assert most + [b[|b| - 1]] == b;
      WithinLonger(a[..|a| - 1], most, b[|b| - 1]);
    } else {
      WithinShorter(a, most);
      assert most + [b[|b| - 1]] == b;
      WithinLonger(a[..|a| - 1], most, b[|b| - 1]);
    }
  }

  lemma {:induction false} WithinWithout(a: seq<Event>, k: nat, b: seq<Event>)
    requires k < |a| && IsWithin(a, b)
    ensures IsWithin(Without(a, k), b)
    decreases |b|
  {
    var n, most := |a| - 1, b[..|b| - 1];
    if k == n {
      assert Without(a, k) == a[..n];
      WithinShorter(a, b);
    } else {
      assert Without(a, k)[..n - 1] == Without(a[..n], k) && Without(a, k)[n - 1] == a[n];
      if a[n] == b[|b| - 1] && IsWithin(a[..n], most) {
        WithinWithout(a[..n], k, most);
      } else {
        WithinWithout(a, k, most);
      }
    }
  }

  lemma {:induction false} WithoutLater(d: seq<Event>, q: seq<Event>, k: nat)
    requires k < |q|
    ensures d + Without(q, k) == Without(d + q, |d| + k)
  {
  }

  function Count(s: seq<Event>, wanted: Event -> bool): nat {
    if s == [] then 0 else Count(s[..|s| - 1], wanted) + if wanted(s[|s| - 1]) then 1 else 0
  }

  lemma {:induction false} CountBoth(a: seq<Event>, b: seq<Event>, wanted: Event -> bool)
    ensures Count(a + b, wanted) == Count(a, wanted) + Count(b, wanted)
    decreases |b|
  {
    if b == [] {
      assert a + b == a;
    } else {
      CountBoth(a, b[..|b| - 1], wanted);
      assert (a + b)[..|a + b| - 1] == a + b[..|b| - 1];
    }
  }

  lemma {:induction false} CountOne(e: Event, wanted: Event -> bool)
    ensures Count([e], wanted) == if wanted(e) then 1 else 0
  {
    assert [e][..0] == [];
  }

  lemma {:induction false} CountWithout(items: seq<Event>, k: nat, wanted: Event -> bool)
    requires k < |items|
    ensures Count(Without(items, k), wanted) + Count([items[k]], wanted) == Count(items, wanted)
  {
    assert items == items[..k] + [items[k]] + items[k + 1..];
    CountBoth(items[..k] + [items[k]], items[k + 1..], wanted);
    CountBoth(items[..k], [items[k]], wanted);
    CountBoth(items[..k], items[k + 1..], wanted);
  }

  lemma {:induction false} CountAll(items: seq<Event>, wanted: Event -> bool)
    requires forall i :: 0 <= i < |items| ==> wanted(items[i])
    ensures Count(items, wanted) == |items|
    decreases |items|
  {
    if items != [] {
      CountAll(items[..|items| - 1], wanted);
    }
  }

  lemma {:induction false} PutCounts(items: seq<Event>, e: Event, maxsize: nat, wanted: Event -> bool)
    requires maxsize >= 1
    ensures Count(Put(items, e, maxsize), wanted) + Count(Lost(items, e, maxsize), wanted) ==
            Count(items, wanted) + Count([e], wanted)
  {
    if |items| < maxsize {
      CountBoth(items, [e], wanted);
    } else if !IsRefused(items, e, maxsize) {
      CountWithout(items, Evicted(items), wanted);
      CountBoth(Without(items, Evicted(items)), [e], wanted);
    }
  }

  lemma {:induction false} AppendKeepsOrder(d: seq<Event>, items: seq<Event>, e: Event, p: seq<Event>)
    requires IsWithin(d + items, p)
    ensures IsWithin(d + (items + [e]), p + [e]) && IsWithin(d + items, p + [e])
  {
    WithinLonger(d + items, p, e);
    assert d + (items + [e]) == d + items + [e];
  }

  lemma {:induction false} DropKeepsOrder(d: seq<Event>, items: seq<Event>, k: nat, p: seq<Event>)
    requires k < |items| && IsWithin(d + items, p)
    ensures IsWithin(d + Without(items, k), p)
  {
    WithoutLater(d, items, k);
    WithinWithout(d + items, |d| + k, p);
  }

  lemma {:induction false} PutKeepsOrder(d: seq<Event>, items: seq<Event>, e: Event, maxsize: nat, p: seq<Event>)
    requires maxsize >= 1 && IsWithin(d + items, p)
    ensures IsWithin(d + Put(items, e, maxsize), p + [e])
  {
    AppendKeepsOrder(d, items, e, p);
    if |items| >= maxsize && !IsRefused(items, e, maxsize) {
      DropKeepsOrder(d, items, Evicted(items), p);
      AppendKeepsOrder(d, Without(items, Evicted(items)), e, p);
    }
  }

  /**
    * Over any run: the queue is never longer than its bound, what was delivered and what is queued is in
    * the order of publication, and every event published is delivered, queued or lost, exactly once.
    */
  lemma {:induction false} RunsKeepOrder(ops: seq<Op>, maxsize: nat, wanted: Event -> bool)
    requires maxsize >= 1
    ensures var h := Run(ops, maxsize);
            && |h.queued| <= maxsize
            && IsWithin(h.delivered + h.queued, h.published)
            && Count(h.published, wanted) ==
               Count(h.delivered, wanted) + Count(h.queued, wanted) + Count(h.lost, wanted)
    decreases |ops|
  {
    if ops != [] {
      var before := Run(ops[..|ops| - 1], maxsize);
      RunsKeepOrder(ops[..|ops| - 1], maxsize, wanted);
      match ops[|ops| - 1] {
        case Publish(e) =>
          EvictionRules(before.queued, e, maxsize);
          PutKeepsOrder(before.delivered, before.queued, e, maxsize, before.published);
          PutCounts(before.queued, e, maxsize, wanted);
          CountBoth(before.published, [e], wanted);
          CountBoth(before.lost, Lost(before.queued, e, maxsize), wanted);
        case Read =>
          if before.queued != [] {
            ReadCounts(before.delivered, before.queued, wanted);
          }
      }
    }
  }

  lemma {:induction false} ReadCounts(d: seq<Event>, q: seq<Event>, wanted: Event -> bool)
    requires q != []
    ensures d + [q[0]] + q[1..] == d + q
    ensures Count(d + [q[0]], wanted) + Count(q[1..], wanted) == Count(d, wanted) + Count(q, wanted)
  {
    CountBoth(d + [q[0]], q[1..], wanted);
    CountBoth(d, q, wanted);
    assert d + [q[0]] + q[1..] == d + q;
  }

  /** Fewer job events than the queue holds are never lost, however many other events there are. */
  lemma {:induction false} JobEventsSurvive(ops: seq<Op>, maxsize: nat)
    requires maxsize >= 1 && Count(Run(ops, maxsize).published, IsJob) < maxsize
    ensures Count(Run(ops, maxsize).lost, IsJob) == 0
    decreases |ops|
  {
    if ops != [] {
      var before := Run(ops[..|ops| - 1], maxsize);
      RunsKeepOrder(ops[..|ops| - 1], maxsize, IsJob);
      match ops[|ops| - 1] {
        case Publish(e) =>
          var lost := Lost(before.queued, e, maxsize);
          CountBoth(before.published, [e], IsJob);
          CountBoth(before.lost, lost, IsJob);
          JobEventsSurvive(ops[..|ops| - 1], maxsize);
          EvictionRules(before.queued, e, maxsize);
          if lost != [] && IsJob(lost[0]) {
            CountAll(before.queued, IsJob);
            assert false;
          }
          assert lost == [] || lost == [lost[0]];
          if lost != [] {
            CountOne(lost[0], IsJob);
          }
        case Read =>
          JobEventsSurvive(ops[..|ops| - 1], maxsize);
      }
    }
  }

  /** The bound is tight: in a queue full of job events a stage event displaces the oldest of them. */
  lemma {:induction false} JobEventDisplaced(items: seq<Event>, e: Event, maxsize: nat)
    requires |items| == maxsize >= 1 && (forall i :: 0 <= i < |items| ==> IsJob(items[i])) && e.kind.Stage?
    ensures Put(items, e, maxsize) == items[1..] + [e] && Lost(items, e, maxsize) == [items[0]]
  {
    assert First(items, IsOrdinary) == |items| && First(items, NotJob) == |items|;
    assert Without(items, 0) == items[1..];
  }
}
