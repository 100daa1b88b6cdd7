/**
  * The fan-out bus (code_auditor/web/progress.py:110-170). Deliveries are scheduled on the event loop once
  * the bus has one, and made at once while it has none.
  */
module EventBus {
  import opened BoundedQueue

  // ----- the bus ------------------------------------------------------------------------------

  class EventBus {
    const maxBuffer: nat
    const maxSubscriberEvents: nat
    var buffer: seq<Event>
    var subscribers: set<BoundedEventQueue>
    var hasLoop: bool
    var nextEventId: nat
    /** What the loop has been asked to deliver, in order. */
    var scheduled: seq<Event>

    predicate Valid()
      reads this, subscribers
    {
      && maxSubscriberEvents >= 1 && |buffer| <= maxBuffer
      && forall q :: q in subscribers ==> q.Valid() && q.maxsize == maxSubscriberEvents
    }

    constructor (maxBuffer: nat, maxSubscriberEvents: nat)
      requires maxSubscriberEvents >= 1
      ensures Valid() && subscribers == {} && buffer == [] && scheduled == [] && nextEventId == 0 && !hasLoop
    {
      this.maxBuffer, this.maxSubscriberEvents := maxBuffer, maxSubscriberEvents;
      buffer, subscribers, hasLoop, nextEventId, scheduled := [], {}, false, 0, [];
    }

    method Subscribe(inLoop: bool) returns (q: BoundedEventQueue)
      requires Valid()
      modifies this`hasLoop, this`subscribers
      ensures Valid() && fresh(q) && q.items == [] && hasLoop == inLoop
      ensures subscribers == old(subscribers) + {q}
    {
      hasLoop := inLoop;
      q := new BoundedEventQueue(maxSubscriberEvents);
      subscribers := subscribers + {q};
    }

    method Unsubscribe(q: BoundedEventQueue)
      requires Valid()
      modifies this`subscribers
      ensures Valid() && subscribers == old(subscribers) - {q}
    {
      subscribers := subscribers - {q};
    }

    method Clear()
      requires Valid()
      modifies this`buffer
      ensures Valid() && buffer == []
    {
      buffer := [];
    }

    method Publish(kind: Kind, body: string)
      requires Valid()
      modifies this`buffer, this`nextEventId, this`scheduled, subscribers
      ensures Valid() && nextEventId == old(nextEventId) + 1
      ensures var e := Event(kind, nextEventId, body);
              && buffer == LastOf(old(buffer) + [e], maxBuffer)
              && scheduled == (if subscribers != {} && hasLoop then old(scheduled) + [e] else old(scheduled))
              && forall q :: q in subscribers ==>
                               q.items == if hasLoop then old(q.items) else Put(old(q.items), e, q.maxsize)
    {
      nextEventId := nextEventId + 1;
      var stored := Event(kind, nextEventId, body);
      buffer := LastOf(buffer + [stored], maxBuffer);
      if subscribers == {} {
        return;
      }
      if hasLoop {
        scheduled := scheduled + [stored];
      } else {
        Deliver(stored);
      }
    }

    method Deliver(e: Event)
      requires Valid()
      modifies subscribers
      ensures Valid()
      ensures forall q :: q in subscribers ==> q.items == Put(old(q.items), e, q.maxsize)
    {
      var todo := subscribers;
      while todo != {}
        invariant todo <= subscribers && Valid()
        invariant forall q :: q in subscribers ==>
                                q.items == if q in todo then old(q.items) else Put(old(q.items), e, q.maxsize)
        decreases |todo|
      {
        var q :| q in todo;
        q.PutNowait(e);
        todo := todo - {q};
      }
    }

    /** The loop makes the delivery it was asked for first. */
    method RunScheduled()
      requires Valid() && scheduled != []
      modifies this`scheduled, subscribers
      ensures Valid() && scheduled == old(scheduled)[1..]
      ensures forall q :: q in subscribers ==> q.items == Put(old(q.items), old(scheduled)[0], q.maxsize)
    {
      var e := scheduled[0];
      scheduled := scheduled[1..];
      Deliver(e);
    }
  }

  /** A bounded deque: appending drops from the left. */
  function LastOf(s: seq<Event>, n: nat): (r: seq<Event>)
    ensures |r| <= n
  {
    if |s| <= n then s else s[|s| - n..]
  }

  // ----- whole runs ---------------------------------------------------------------------------

  type Client = nat

  /** What one client's queue holds and what the client has read so far. */
  datatype Feed = Feed(read: seq<Event>, queue: seq<Event>)

  datatype Bus = Bus(
    lastId: nat, buffer: seq<Event>, feeds: map<Client, Feed>, hasLoop: bool, scheduled: seq<Event>)

  const QUIET := Bus(0, [], map[], false, [])

  datatype Op =
    | Subscribe(c: Client, inLoop: bool)
    | Unsubscribe(c: Client)
    | Publish(kind: Kind, body: string)
    | RunScheduled
    | Read(c: Client)
    | Clear

  datatype Sizes = Sizes(buffer: nat, queue: nat)

  function Delivered(feeds: map<Client, Feed>, e: Event, maxsize: nat): map<Client, Feed>
    requires maxsize >= 1
  {
    map c | c in feeds :: feeds[c].(queue := Put(feeds[c].queue, e, maxsize))
  }

  function Next(b: Bus, op: Op, sizes: Sizes): Bus
    requires sizes.queue >= 1
  {
    match op
    case Subscribe(c, inLoop) =>
      b.(hasLoop := inLoop, feeds := if c in b.feeds then b.feeds else b.feeds[c := Feed([], [])])
    case Unsubscribe(c) => b.(feeds := b.feeds - {c})
    case Publish(kind, body) => Published(b, Event(kind, b.lastId + 1, body), sizes)
    case RunScheduled =>
      if b.scheduled == [] then b else
        b.(scheduled := b.scheduled[1..], feeds := Delivered(b.feeds, b.scheduled[0], sizes.queue))
    case Read(c) =>
      if c !in b.feeds || b.feeds[c].queue == [] then b else
        b.(feeds := b.feeds[c := Feed(b.feeds[c].read + [b.feeds[c].queue[0]], b.feeds[c].queue[1..])])
    case Clear => b.(buffer := [])
  }

  function Published(b: Bus, e: Event, sizes: Sizes): Bus
    requires sizes.queue >= 1
  {
    var stored := b.(lastId := b.lastId + 1, buffer := LastOf(b.buffer + [e], sizes.buffer));
    if b.feeds == map[] then stored
    else if b.hasLoop then stored.(scheduled := b.scheduled + [e])
    else stored.(feeds := Delivered(b.feeds, e, sizes.queue))
  }

  function Run(ops: seq<Op>, sizes: Sizes): Bus
    requires sizes.queue >= 1
  {
    if ops == [] then QUIET else Next(Run(ops[..|ops| - 1], sizes), ops[|ops| - 1], sizes)
  }

  // ----- order --------------------------------------------------------------------------------

  /** Ids grow from event to event, and all are within the bounds. */
  predicate Rises(s: seq<Event>, above: int, upTo: int) {
    && (forall i, j :: 0 <= i < j < |s| ==> s[i].eid < s[j].eid)
    && (forall i :: 0 <= i < |s| ==> above < s[i].eid <= upTo)
  }

  /** Everything of the feed is older than everything that is still scheduled. */
  ghost predicate IsOrdered(b: Bus, c: Client) {
    c in b.feeds ==> Rises(b.feeds[c].read + b.feeds[c].queue + b.scheduled, 0, b.lastId)
  }

  predicate IsSteady(b: Bus) {
    Rises(b.scheduled, 0, b.lastId) && Rises(b.buffer, 0, b.lastId)
  }

  ghost predicate Good(b: Bus) {
    IsSteady(b) && forall c :: IsOrdered(b, c)
  }

  lemma {:induction false} RisesShorter(s: seq<Event>, k: nat, upTo: int)
    requires k < |s| && Rises(s, 0, upTo)
    ensures Rises(Without(s, k), 0, upTo)
  {
    var t := Without(s, k);
    assert forall i :: 0 <= i < |t| ==> t[i] == if i < k then s[i] else s[i + 1];
  }

  lemma {:induction false} Dropped(read: seq<Event>, queue: seq<Event>, e: Event, rest: seq<Event>, k: nat, upTo: int)
    requires k < |queue| && Rises(read + queue + ([e] + rest), 0, upTo)
    ensures Rises(read + (Without(queue, k) + [e]) + rest, 0, upTo)
  {
    var all := read + queue + ([e] + rest);
    assert read + (Without(queue, k) + [e]) + rest == Without(all, |read| + k);
    RisesShorter(all, |read| + k, upTo);
  }

  lemma {:induction false} Refused(read: seq<Event>, queue: seq<Event>, e: Event, rest: seq<Event>, upTo: int)
    requires Rises(read + queue + ([e] + rest), 0, upTo)
    ensures Rises(read + queue + rest, 0, upTo) && Rises(read + (queue + [e]) + rest, 0, upTo)
  {
    var all := read + queue + ([e] + rest);
    assert read + queue + rest == Without(all, |read| + |queue|);
    RisesShorter(all, |read| + |queue|, upTo);
    assert read + (queue + [e]) + rest == all;
  }

  /** Delivering the first scheduled event keeps the order, whatever the queue gives up for it. */
  lemma {:induction false} DeliveryKeepsOrder(read: seq<Event>, queue: seq<Event>, scheduled: seq<Event>,
                                              maxsize: nat, upTo: int)
    requires maxsize >= 1 && scheduled != [] && Rises(read + queue + scheduled, 0, upTo)
    ensures Rises(read + Put(queue, scheduled[0], maxsize) + scheduled[1..], 0, upTo)
  {
    var e, rest := scheduled[0], scheduled[1..];
    assert scheduled == [e] + rest;
    Refused(read, queue, e, rest, upTo);
    if |queue| >= maxsize && !IsRefused(queue, e, maxsize) {
      Dropped(read, queue, e, rest, Evicted(queue), upTo);
    }
  }

  lemma {:induction false} RisesWith(s: seq<Event>, e: Event, upTo: int)
    requires Rises(s, 0, upTo) && e.eid == upTo + 1 && upTo >= 0
    ensures Rises(s + [e], 0, upTo + 1) && Rises(s, 0, upTo + 1)
  {
  }

  lemma {:induction false} RisesLast(s: seq<Event>, n: nat, upTo: int)
    requires Rises(s, 0, upTo)
    ensures Rises(LastOf(s, n), 0, upTo)
  {
  }

  /**
    * Nothing that is published now can get before what is scheduled: there is no one to deliver to, the
    * loop delivers in turn, nothing is scheduled, or every queue is full and refuses the event.
    */
  ghost predicate MayPublish(b: Bus, e: Event, sizes: Sizes) {
    b.feeds == map[] || b.hasLoop || b.scheduled == [] || forall c :: Refuses(b, c, e, sizes)
  }

  predicate Refuses(b: Bus, c: Client, e: Event, sizes: Sizes) {
    c in b.feeds ==> IsRefused(b.feeds[c].queue, e, sizes.queue)
  }

  /** Delivering at once keeps the order when nothing is scheduled. */
  lemma {:induction false} DirectKeeps(read: seq<Event>, queue: seq<Event>, e: Event, maxsize: nat, upTo: nat)
    requires maxsize >= 1 && Rises(read + queue, 0, upTo) && e.eid == upTo + 1
    ensures Rises(read + Put(queue, e, maxsize), 0, upTo + 1)
  {
    RisesWith(read + queue, e, upTo);
    DeliveryKeepsOrder(read, queue, [e], maxsize, upTo + 1);
    assert [e][1..] == [] && read + Put(queue, e, maxsize) + [] == read + Put(queue, e, maxsize);
  }

  lemma {:induction false} PublishKeepsFeed(b: Bus, e: Event, sizes: Sizes, c: Client)
    requires Good(b) && sizes.queue >= 1 && e.eid == b.lastId + 1 && MayPublish(b, e, sizes)
    ensures IsOrdered(Published(b, e, sizes), c)
  {
    assert IsOrdered(b, c) && (b.feeds == map[] || b.hasLoop || b.scheduled == [] || Refuses(b, c, e, sizes));
    if c in b.feeds {
      var f := b.feeds[c];
      var seen := f.read + f.queue;
      RisesWith(seen + b.scheduled, e, b.lastId);
      if b.hasLoop {
        assert seen + (b.scheduled + [e]) == seen + b.scheduled + [e];
      } else if b.scheduled == [] {
        assert seen + [] == seen;
        DirectKeeps(f.read, f.queue, e, sizes.queue, b.lastId);
        assert f.read + Put(f.queue, e, sizes.queue) + [] == f.read + Put(f.queue, e, sizes.queue);
      }
    }
  }

  lemma {:induction false} PublishKeeps(b: Bus, e: Event, sizes: Sizes)
    requires Good(b) && sizes.queue >= 1 && e.eid == b.lastId + 1 && MayPublish(b, e, sizes)
    ensures Good(Published(b, e, sizes))
  {
    var b' := Published(b, e, sizes);
    RisesWith(b.buffer, e, b.lastId);
    RisesLast(b.buffer + [e], sizes.buffer, b.lastId + 1);
    RisesWith(b.scheduled, e, b.lastId);
    forall c
      ensures IsOrdered(b', c)
    {
      PublishKeepsFeed(b, e, sizes, c);
    }
  }

  lemma {:induction false} ScheduledKeeps(b: Bus, sizes: Sizes)
    requires Good(b) && sizes.queue >= 1 && b.scheduled != []
    ensures Good(Next(b, RunScheduled, sizes))
  {
    var b' := Next(b, RunScheduled, sizes);
    forall c
      ensures IsOrdered(b', c)
    {
      assert IsOrdered(b, c);
      if c in b.feeds {
        DeliveryKeepsOrder(b.feeds[c].read, b.feeds[c].queue, b.scheduled, sizes.queue, b.lastId);
      }
    }
  }

  lemma {:induction false} ReadKeeps(b: Bus, c: Client, sizes: Sizes)
    requires Good(b) && sizes.queue >= 1 && c in b.feeds && b.feeds[c].queue != []
    ensures Good(Next(b, Op.Read(c), sizes))
  {
    var b' := Next(b, Op.Read(c), sizes);
    var f := b.feeds[c];
    assert f.read + [f.queue[0]] + f.queue[1..] == f.read + f.queue;
    forall x
      ensures IsOrdered(b', x)
    {
      assert IsOrdered(b, x);
    }
    assert c in b.feeds;
  }

  lemma {:induction false} MembersKeep(b: Bus, op: Op, sizes: Sizes)
    requires Good(b) && sizes.queue >= 1 && (op.Unsubscribe? || op.Clear? || op.Subscribe?)
    ensures Good(Next(b, op, sizes))
  {
    var b' := Next(b, op, sizes);
    forall c
      ensures IsOrdered(b', c)
    {
      assert IsOrdered(b, c);
      if op.Subscribe? && c == op.c && c !in b.feeds {
        assert [] + [] + b.scheduled == b.scheduled;
      }
    }
  }

  /** The event that a call publishes. */
  function EventOf(b: Bus, op: Op): Event
    requires op.Publish?
  {
    Event(op.kind, b.lastId + 1, op.body)
  }

  lemma {:induction false} QuietOpKeeps(b: Bus, op: Op, sizes: Sizes)
    requires Good(b) && sizes.queue >= 1 && (op.RunScheduled? || op.Read?)
    ensures Good(Next(b, op, sizes))
  {
    if op.RunScheduled? {
      if b.scheduled != [] {
        ScheduledKeeps(b, sizes);
      }
    } else if op.c in b.feeds && b.feeds[op.c].queue != [] {
      ReadKeeps(b, op.c, sizes);
    }
  }

  lemma {:induction false} NextKeeps(b: Bus, op: Op, sizes: Sizes)
    requires Good(b) && sizes.queue >= 1 && (op.Publish? ==> MayPublish(b, EventOf(b, op), sizes))
    ensures Good(Next(b, op, sizes))
  {
    if op.Publish? {
      PublishKeeps(b, EventOf(b, op), sizes);
    } else if op.RunScheduled? || op.Read? {
      QuietOpKeeps(b, op, sizes);
    } else {
      MembersKeep(b, op, sizes);
    }
  }

  /** No call publishes past what is scheduled. */
  ghost predicate NoOvertaking(ops: seq<Op>, sizes: Sizes)
    requires sizes.queue >= 1
  {
    forall k :: PublishesInTurn(ops, sizes, k)
  }

  ghost predicate PublishesInTurn(ops: seq<Op>, sizes: Sizes, k: int)
    requires sizes.queue >= 1
  {
    0 <= k < |ops| && ops[k].Publish? ==>
      MayPublish(Run(ops[..k], sizes), EventOf(Run(ops[..k], sizes), ops[k]), sizes)
  }

  lemma {:induction false} OvertakingSplit(ops: seq<Op>, sizes: Sizes, n: nat)
    requires sizes.queue >= 1 && NoOvertaking(ops, sizes) && n <= |ops|
    ensures NoOvertaking(ops[..n], sizes)
  {
    var most := ops[..n];
    forall k
      ensures PublishesInTurn(most, sizes, k)
    {
      assert PublishesInTurn(ops, sizes, k);
      assert 0 <= k < n ==> most[..k] == ops[..k];
    }
  }

  lemma {:induction false} RunsAreGood(ops: seq<Op>, sizes: Sizes)
    requires sizes.queue >= 1 && NoOvertaking(ops, sizes)
    ensures Good(Run(ops, sizes))
    decreases |ops|
  {
    if ops != [] {
      var n := |ops| - 1;
      OvertakingSplit(ops, sizes, n);
      RunsAreGood(ops[..n], sizes);
      assert PublishesInTurn(ops, sizes, n);
      NextKeeps(Run(ops[..n], sizes), ops[n], sizes);
    }
  }

  /** What a client has read, and what waits for it. */
  predicate SeesGrowingIds(b: Bus, c: Client) {
    c in b.feeds ==> Rises(b.feeds[c].read + b.feeds[c].queue, 0, b.lastId)
  }

  lemma {:induction false} GoodFeedsRise(b: Bus, c: Client)
    requires Good(b)
    ensures SeesGrowingIds(b, c)
  {
    assert IsOrdered(b, c);
    if c in b.feeds {
      var seen := b.feeds[c].read + b.feeds[c].queue;
      var all := seen + b.scheduled;
      assert forall i :: 0 <= i < |seen| ==> seen[i] == all[i];
    }
  }

  /** Every client sees strictly growing ids, in what it has read and in what is waiting for it. */
  lemma {:induction false} ClientsSeeGrowingIds(ops: seq<Op>, sizes: Sizes, c: Client)
    requires sizes.queue >= 1 && NoOvertaking(ops, sizes)
    ensures SeesGrowingIds(Run(ops, sizes), c)
  {
    RunsAreGood(ops, sizes);
    GoodFeedsRise(Run(ops, sizes), c);
  }

  lemma {:induction false} RunMore(ops: seq<Op>, op: Op, sizes: Sizes)
    requires sizes.queue >= 1
    ensures Run(ops + [op], sizes) == Next(Run(ops, sizes), op, sizes)
  {
    assert (ops + [op])[..|ops|] == ops;
  }

  // ----- who subscribes in the loop -----------------------------------------------------------

  /** Clients subscribe from within the event loop. */
  predicate SubscribeInLoop(ops: seq<Op>) {
    forall i :: 0 <= i < |ops| ==> (ops[i].Subscribe? ==> ops[i].inLoop)
  }

  lemma {:induction false} LoopIsKept(ops: seq<Op>, sizes: Sizes)
    requires sizes.queue >= 1 && SubscribeInLoop(ops)
    ensures Run(ops, sizes).feeds == map[] || Run(ops, sizes).hasLoop
    decreases |ops|
  {
    if ops != [] {
      LoopIsKept(ops[..|ops| - 1], sizes);
    }
  }

  /** Then nothing is overtaken. */
  lemma {:induction false} LoopPreventsOvertaking(ops: seq<Op>, sizes: Sizes)
    requires sizes.queue >= 1 && SubscribeInLoop(ops)
    ensures NoOvertaking(ops, sizes)
  {
    forall k
      ensures PublishesInTurn(ops, sizes, k)
    {
      if 0 <= k < |ops| {
        LoopIsKept(ops[..k], sizes);
      }
    }
  }

  // ----- what is overtaken --------------------------------------------------------------------

  /** What holds of every reachable bus: queues are bounded, and ids are given out in order. */
  ghost predicate IsBounded(b: Bus, sizes: Sizes) {
    && (forall c :: FitsQueue(b, c, sizes))
    && forall i :: 0 <= i < |b.scheduled| ==> b.scheduled[i].eid <= b.lastId
  }

  predicate FitsQueue(b: Bus, c: Client, sizes: Sizes) {
    c in b.feeds ==> |b.feeds[c].queue| <= sizes.queue
  }

  lemma {:induction false} PutFits(queue: seq<Event>, e: Event, maxsize: nat)
    requires maxsize >= 1 && |queue| <= maxsize
    ensures |Put(queue, e, maxsize)| <= maxsize
  {
    EvictionRules(queue, e, maxsize);
  }

  lemma {:induction false} DeliveredFits(b: Bus, b': Bus, e: Event, sizes: Sizes, c: Client)
    requires sizes.queue >= 1 && FitsQueue(b, c, sizes)
    requires b'.feeds == b.feeds || b'.feeds == Delivered(b.feeds, e, sizes.queue)
    ensures FitsQueue(b', c, sizes)
  {
    if c in b.feeds {
      PutFits(b.feeds[c].queue, e, sizes.queue);
    }
  }

  lemma {:induction false} NextIsBounded(b: Bus, op: Op, sizes: Sizes)
    requires sizes.queue >= 1 && IsBounded(b, sizes)
    ensures IsBounded(Next(b, op, sizes), sizes)
  {
    var b' := Next(b, op, sizes);
    forall c
      ensures FitsQueue(b', c, sizes)
    {
      assert FitsQueue(b, c, sizes);
      if op.Publish? {
        DeliveredFits(b, b', EventOf(b, op), sizes, c);
      } else if op.RunScheduled? && b.scheduled != [] {
        DeliveredFits(b, b', b.scheduled[0], sizes, c);
      }
    }
  }

  lemma {:induction false} RunsAreBounded(ops: seq<Op>, sizes: Sizes)
    requires sizes.queue >= 1
    ensures IsBounded(Run(ops, sizes), sizes)
    decreases |ops|
  {
    if ops != [] {
      RunsAreBounded(ops[..|ops| - 1], sizes);
      NextIsBounded(Run(ops[..|ops| - 1], sizes), ops[|ops| - 1], sizes);
    }
  }

  /** A client has the newer event before the older one is delivered to it, and there is room for that. */
  lemma {:induction false} OlderAfterNewer(seen: seq<Event>, late: Event, older: Event, rest: seq<Event>, upTo: int)
    requires late in seen && older.eid < late.eid
    ensures !Rises(seen + ([older] + rest), 0, upTo)
  {
    var i :| 0 <= i < |seen| && seen[i] == late;
    var all := seen + ([older] + rest);
    assert all[i] == late && all[|seen|] == older;
  }

  lemma {:induction false} PutLast(queue: seq<Event>, e: Event, maxsize: nat)
    requires maxsize >= 1 && !IsRefused(queue, e, maxsize)
    ensures Put(queue, e, maxsize) != [] && Put(queue, e, maxsize)[|Put(queue, e, maxsize)| - 1] == e
  {
  }

  /** The read that makes room, and the delivery that comes too late. */
  lemma {:induction false} LateDelivery(b: Bus, c: Client, late: Event, sizes: Sizes)
    requires sizes.queue >= 1 && IsBounded(b, sizes) && c in b.feeds && b.scheduled != []
    requires late in b.feeds[c].queue && b.scheduled[0].eid < late.eid
    ensures !SeesGrowingIds(Next(Next(b, Op.Read(c), sizes), RunScheduled, sizes), c)
  {
    var f, older := b.feeds[c], b.scheduled[0];
    var b1 := Next(b, Op.Read(c), sizes);
    var b2 := Next(b1, RunScheduled, sizes);
    assert FitsQueue(b, c, sizes);
    assert b1.feeds[c] == Feed(f.read + [f.queue[0]], f.queue[1..]);
    assert b2.feeds[c] == Feed(f.read + [f.queue[0]], f.queue[1..] + [older]);
    var seen := f.read + [f.queue[0]] + f.queue[1..];
    assert seen == f.read + f.queue;
    OlderAfterNewer(seen, late, older, [], b2.lastId);
    assert b2.feeds[c].read + b2.feeds[c].queue == seen + ([older] + []);
  }

  /** Publishing past something scheduled: some client can see the newer event first. */
  lemma {:induction false} OvertakenIsSeen(b: Bus, op: Op, sizes: Sizes) returns (c: Client)
    requires sizes.queue >= 1 && IsBounded(b, sizes) && op.Publish? && !MayPublish(b, EventOf(b, op), sizes)
    ensures var b1 := Next(b, op, sizes);
            !SeesGrowingIds(Next(Next(b1, Op.Read(c), sizes), RunScheduled, sizes), c)
  {
    var e := EventOf(b, op);
    c :| !Refuses(b, c, e, sizes);
    PutLast(b.feeds[c].queue, e, sizes.queue);
    NextIsBounded(b, op, sizes);
    LateDelivery(Next(b, op, sizes), c, e, sizes);
  }

  /** Reads, and deliveries that the loop was asked for. */
  predicate AreDeliveries(ops: seq<Op>) {
    forall i :: 0 <= i < |ops| ==> ops[i].Read? || ops[i].RunScheduled?
  }

  /** Whatever has been published so far, all clients see growing ids when it is delivered. */
  ghost predicate IsOrderly(ops: seq<Op>, sizes: Sizes)
    requires sizes.queue >= 1
  {
    forall k, more, c :: StaysOrderly(ops, sizes, k, more, c)
  }

  predicate StaysOrderly(ops: seq<Op>, sizes: Sizes, k: int, more: seq<Op>, c: Client)
    requires sizes.queue >= 1
  {
    0 <= k <= |ops| && AreDeliveries(more) ==> SeesGrowingIds(Run(ops[..k] + more, sizes), c)
  }

  lemma {:induction false} DeliveriesAreGood(ops: seq<Op>, more: seq<Op>, sizes: Sizes)
    requires sizes.queue >= 1 && NoOvertaking(ops, sizes) && AreDeliveries(more)
    ensures Good(Run(ops + more, sizes))
    decreases |more|
  {
    if more == [] {
      assert ops + more == ops;
      RunsAreGood(ops, sizes);
    } else {
      var n := |more| - 1;
      DeliveriesAreGood(ops, more[..n], sizes);
      assert ops + more == ops + more[..n] + [more[n]];
      RunMore(ops + more[..n], more[n], sizes);
      QuietOpKeeps(Run(ops + more[..n], sizes), more[n], sizes);
    }
  }

  lemma {:induction false} OvertakingIsDisorderly(ops: seq<Op>, sizes: Sizes, k: nat)
    requires sizes.queue >= 1 && !PublishesInTurn(ops, sizes, k)
    ensures !IsOrderly(ops, sizes)
  {
    var b := Run(ops[..k], sizes);
    RunsAreBounded(ops[..k], sizes);
    var c := OvertakenIsSeen(b, ops[k], sizes);
    var more := [Op.Read(c)] + [RunScheduled];
    assert ops[..k + 1] == ops[..k] + [ops[k]];
    RunMore(ops[..k], ops[k], sizes);
    RunMore(ops[..k + 1], Op.Read(c), sizes);
    RunMore(ops[..k + 1] + [Op.Read(c)], RunScheduled, sizes);
    assert ops[..k + 1] + more == ops[..k + 1] + [Op.Read(c)] + [RunScheduled];
    assert !StaysOrderly(ops, sizes, k + 1, more, c);
  }

  /**
    * Clients see growing ids, whatever is read and delivered after any of the calls, if and only if no
    * call publishes past what is scheduled.
    */
  lemma {:induction false} OrderExactly(ops: seq<Op>, sizes: Sizes)
    requires sizes.queue >= 1
    ensures IsOrderly(ops, sizes) <==> NoOvertaking(ops, sizes)
  {
    if NoOvertaking(ops, sizes) {
      forall k, more, c
        ensures StaysOrderly(ops, sizes, k, more, c)
      {
        if 0 <= k <= |ops| && AreDeliveries(more) {
          OvertakingSplit(ops, sizes, k);
          DeliveriesAreGood(ops[..k], more, sizes);
          GoodFeedsRise(Run(ops[..k] + more, sizes), c);
        }
      }
    } else {
      var k :| !PublishesInTurn(ops, sizes, k);
      OvertakingIsDisorderly(ops, sizes, k);
    }
  }

  // ----- nothing is lost ----------------------------------------------------------------------

  function Announcements(ops: seq<Op>): nat {
    if ops == [] then 0 else
      Announcements(ops[..|ops| - 1]) + if ops[|ops| - 1].Publish? then 1 else 0
  }

  /** All events that are published, numbered from the given number on. */
  function Announced(ops: seq<Op>, after: nat): (r: seq<Event>)
    ensures |r| == Announcements(ops)
  {
    if ops == [] then [] else
      var most, op := Announced(ops[..|ops| - 1], after), ops[|ops| - 1];
      if op.Publish? then most + [Event(op.kind, after + |most| + 1, op.body)] else most
  }

  lemma {:induction false} IdsCount(ops: seq<Op>, sizes: Sizes)
    requires sizes.queue >= 1
    ensures Run(ops, sizes).lastId == Announcements(ops)
    decreases |ops|
  {
    if ops != [] {
      IdsCount(ops[..|ops| - 1], sizes);
    }
  }

  /** What has been published since the backlog was cleared last. */
  function SinceClear(ops: seq<Op>): seq<Event> {
    if ops == [] then [] else
      var most, op := ops[..|ops| - 1], ops[|ops| - 1];
      if op.Clear? then []
      else if op.Publish? then SinceClear(most) + [Event(op.kind, Announcements(most) + 1, op.body)]
      else SinceClear(most)
  }

  predicate IsEndOf(s: seq<Event>, all: seq<Event>, n: nat) {
    |s| == (if |all| < n then |all| else n) && s == all[|all| - |s|..]
  }

  /** The backlog holds the newest events since it was cleared, up to its bound. */
  lemma {:induction false} BacklogIsNewest(ops: seq<Op>, sizes: Sizes)
    requires sizes.queue >= 1
    ensures IsEndOf(Run(ops, sizes).buffer, SinceClear(ops), sizes.buffer)
    decreases |ops|
  {
    if ops != [] {
      var most, op := ops[..|ops| - 1], ops[|ops| - 1];
      BacklogIsNewest(most, sizes);
      IdsCount(most, sizes);
      if op.Publish? {
        OneMoreInBacklog(Run(most, sizes).buffer, SinceClear(most), EventOf(Run(most, sizes), op), sizes.buffer);
      }
    }
  }

  lemma {:induction false} OneMoreInBacklog(s: seq<Event>, all: seq<Event>, e: Event, n: nat)
    requires IsEndOf(s, all, n)
    ensures IsEndOf(LastOf(s + [e], n), all + [e], n)
  {
    var s', all' := LastOf(s + [e], n), all + [e];
    assert all == all[..|all| - |s|] + s;
    assert all' == all[..|all| - |s|] + (s + [e]);
  }

  /** Who is subscribed: those whose last membership call was a subscription. */
  predicate IsMember(ops: seq<Op>, c: Client) {
    ops != [] &&
    var op := ops[|ops| - 1];
    if op.Subscribe? && op.c == c then true
    else if op.Unsubscribe? && op.c == c then false
    else IsMember(ops[..|ops| - 1], c)
  }

  lemma {:induction false} FeedsAreMembers(ops: seq<Op>, sizes: Sizes, c: Client)
    requires sizes.queue >= 1
    ensures c in Run(ops, sizes).feeds <==> IsMember(ops, c)
    decreases |ops|
  {
    if ops != [] {
      FeedsAreMembers(ops[..|ops| - 1], sizes, c);
    }
  }

  /** The client stays subscribed, and gets no new queue. */
  predicate IsLoyal(ops: seq<Op>, c: Client) {
    forall i :: 0 <= i < |ops| ==> (ops[i].Unsubscribe? ==> ops[i].c != c)
  }

  /** What a client has read, what waits for it, and what will be delivered to it. */
  function AllOf(b: Bus, c: Client): multiset<Event>
    requires c in b.feeds
  {
    multiset(b.feeds[c].read) + multiset(b.feeds[c].queue) + multiset(b.scheduled)
  }

  lemma {:induction false} RoomToPut(queue: seq<Event>, e: Event, maxsize: nat)
    requires maxsize >= 1 && |queue| < maxsize
    ensures Put(queue, e, maxsize) == queue + [e]
  {
  }

  lemma {:induction false} FirstMoves(read: seq<Event>, queue: seq<Event>)
    requires queue != []
    ensures multiset(read + [queue[0]]) + multiset(queue[1..]) == multiset(read) + multiset(queue)
  {
    assert queue == [queue[0]] + queue[1..];
  }

  lemma {:induction false} AllAfterOwnRead(b: Bus, sizes: Sizes, c: Client)
    requires sizes.queue >= 1 && c in b.feeds && b.feeds[c].queue != []
    ensures c in Next(b, Op.Read(c), sizes).feeds && AllOf(Next(b, Op.Read(c), sizes), c) == AllOf(b, c)
  {
    FirstMoves(b.feeds[c].read, b.feeds[c].queue);
  }

  lemma {:induction false} AllAfterReading(b: Bus, x: Client, sizes: Sizes, c: Client)
    requires sizes.queue >= 1 && c in b.feeds
    ensures c in Next(b, Op.Read(x), sizes).feeds && AllOf(Next(b, Op.Read(x), sizes), c) == AllOf(b, c)
  {
    if x == c && b.feeds[c].queue != [] {
      AllAfterOwnRead(b, sizes, c);
    } else {
      assert c in Next(b, Op.Read(x), sizes).feeds && Next(b, Op.Read(x), sizes).feeds[c] == b.feeds[c];
    }
  }

  lemma {:induction false} AllAfterDelivery(b: Bus, sizes: Sizes, c: Client)
    requires sizes.queue >= 1 && c in b.feeds && |AllOf(b, c)| <= sizes.queue
    ensures c in Next(b, RunScheduled, sizes).feeds && AllOf(Next(b, RunScheduled, sizes), c) == AllOf(b, c)
  {
    if b.scheduled != [] {
      assert b.scheduled == [b.scheduled[0]] + b.scheduled[1..];
      RoomToPut(b.feeds[c].queue, b.scheduled[0], sizes.queue);
    }
  }

  lemma {:induction false} AllAfterPublishing(b: Bus, e: Event, sizes: Sizes, c: Client)
    requires sizes.queue >= 1 && c in b.feeds && |AllOf(b, c)| < sizes.queue
    ensures c in Published(b, e, sizes).feeds && AllOf(Published(b, e, sizes), c) == AllOf(b, c) + multiset{e}
  {
    if !b.hasLoop {
      RoomToPut(b.feeds[c].queue, e, sizes.queue);
    }
  }

  lemma {:induction false} AllAfter(b: Bus, op: Op, sizes: Sizes, c: Client)
    requires sizes.queue >= 1 && c in b.feeds && (op.Unsubscribe? ==> op.c != c)
    requires |AllOf(b, c)| + (if op.Publish? then 1 else 0) <= sizes.queue
    ensures c in Next(b, op, sizes).feeds
    ensures AllOf(Next(b, op, sizes), c) == AllOf(b, c) + if op.Publish? then multiset{EventOf(b, op)} else multiset{}
  {
    if op.Publish? {
      AllAfterPublishing(b, EventOf(b, op), sizes, c);
    } else if op.RunScheduled? {
      AllAfterDelivery(b, sizes, c);
    } else if op.Read? {
      AllAfterReading(b, op.c, sizes, c);
    }
  }

  lemma {:induction false} OneMoreAnnounced(before: seq<Op>, ops: seq<Op>, op: Op, sizes: Sizes)
    requires sizes.queue >= 1 && Announcements(before + ops) == Announcements(before) + Announcements(ops)
    ensures Announcements(before + ops + [op]) == Announcements(before) + Announcements(ops + [op])
    ensures multiset(Announced(ops + [op], Announcements(before))) ==
            multiset(Announced(ops, Announcements(before)))
            + if op.Publish? then multiset{EventOf(Run(before + ops, sizes), op)} else multiset{}
  {
    assert (ops + [op])[..|ops|] == ops && (before + ops + [op])[..|before + ops|] == before + ops;
    IdsCount(before + ops, sizes);
  }

  lemma {:induction false} AllSince(before: seq<Op>, ops: seq<Op>, sizes: Sizes, c: Client)
    requires sizes.queue >= 1 && c in Run(before, sizes).feeds && IsLoyal(ops, c)
    requires |AllOf(Run(before, sizes), c)| + Announcements(ops) <= sizes.queue
    ensures c in Run(before + ops, sizes).feeds
    ensures AllOf(Run(before + ops, sizes), c) ==
            AllOf(Run(before, sizes), c) + multiset(Announced(ops, Announcements(before)))
    ensures Announcements(before + ops) == Announcements(before) + Announcements(ops)
    decreases |ops|
  {
    if ops == [] {
      assert before + ops == before;
    } else {
      var most, op := ops[..|ops| - 1], ops[|ops| - 1];
      AllSince(before, most, sizes, c);
      OneMoreAnnounced(before, most, op, sizes);
      assert ops == most + [op] && before + ops == before + most + [op];
      RunMore(before + most, op, sizes);
      AllAfter(Run(before + most, sizes), op, sizes, c);
    }
  }

  lemma {:induction false} FewScheduled(ops: seq<Op>, sizes: Sizes)
    requires sizes.queue >= 1
    ensures |Run(ops, sizes).scheduled| <= Announcements(ops)
    decreases |ops|
  {
    if ops != [] {
      FewScheduled(ops[..|ops| - 1], sizes);
    }
  }

  lemma {:induction false} NewMember(before: seq<Op>, subscribe: Op, sizes: Sizes)
    requires sizes.queue >= 1 && subscribe.Subscribe? && !IsMember(before, subscribe.c)
    ensures var b := Run(before + [subscribe], sizes);
            subscribe.c in b.feeds && AllOf(b, subscribe.c) == multiset(Run(before, sizes).scheduled)
    ensures Announcements(before + [subscribe]) == Announcements(before)
  {
    assert (before + [subscribe])[..|before|] == before;
    RunMore(before, subscribe, sizes);
    FeedsAreMembers(before, sizes, subscribe.c);
  }

  /**
    * As long as no more is published than a queue holds, a client that stays subscribed gets every event
    * since its subscription exactly once: it has read it, it waits in its queue, or its delivery is
    * scheduled. It also gets what was scheduled when it subscribed, and nothing else.
    */
  lemma {:induction false} NothingIsLost(before: seq<Op>, subscribe: Op, after: seq<Op>, sizes: Sizes)
    requires sizes.queue >= 1 && subscribe.Subscribe? && !IsMember(before, subscribe.c)
    requires IsLoyal(after, subscribe.c) && Announcements(before) + Announcements(after) <= sizes.queue
    ensures var b := Run(before + [subscribe] + after, sizes);
            && subscribe.c in b.feeds
            && AllOf(b, subscribe.c) ==
               multiset(Run(before, sizes).scheduled) + multiset(Announced(after, Announcements(before)))
  {
    NewMember(before, subscribe, sizes);
    FewScheduled(before, sizes);
    AllSince(before + [subscribe], after, sizes, subscribe.c);
  }

  function LosingTheLoop(): seq<Op> {
    [Subscribe(0, true)] + [Op.Publish(OtherKind, "")] + [Subscribe(1, false)] + [Op.Publish(OtherKind, "")]
  }

  lemma {:induction false} BeforeOvertaking(sizes: Sizes)
    requires sizes.queue >= 1
    ensures var b := Run([Subscribe(0, true)] + [Op.Publish(OtherKind, "")] + [Subscribe(1, false)], sizes);
            && 0 in b.feeds && b.feeds[0] == Feed([], []) && !b.hasLoop && b.scheduled == [Event(OtherKind, 1, "")]
  {
    var ops := [Subscribe(0, true)];
    assert [] + ops == ops;
    RunMore([], Subscribe(0, true), sizes);
    RunMore(ops, Op.Publish(OtherKind, ""), sizes);
    RunMore(ops + [Op.Publish(OtherKind, "")], Subscribe(1, false), sizes);
  }

  /**
    * A client that subscribes outside the loop takes it away from the bus. What is published next then
    * overtakes what was scheduled before.
    */
  lemma {:induction false} LosingTheLoopBreaksOrder(sizes: Sizes)
    requires sizes.queue >= 1
    ensures !IsOrderly(LosingTheLoop(), sizes)
  {
    var ops := [Subscribe(0, true)] + [Op.Publish(OtherKind, "")] + [Subscribe(1, false)];
    BeforeOvertaking(sizes);
    assert LosingTheLoop()[..3] == ops;
    var b := Run(ops, sizes);
    assert !Refuses(b, 0, EventOf(b, Op.Publish(OtherKind, "")), sizes);
    assert !PublishesInTurn(LosingTheLoop(), sizes, 3);
    OrderExactly(LosingTheLoop(), sizes);
  }
}
