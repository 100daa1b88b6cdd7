/**
  * The worklist search of code_auditor/poc_artifacts.py:299-309.
  */
module Reachability {
  type Graph = map<string, set<string>>

  function Targets(g: Graph, x: string): set<string> {
    if x in g then g[x] else {}
  }

  /** A path from one of the sources along edges of the graph. */
  predicate IsPath(g: Graph, sources: set<string>, p: seq<string>) {
    p != [] && p[0] in sources && forall i :: 0 < i < |p| ==> IsEdgeAt(g, p, i)
  }

  predicate IsEdgeAt(g: Graph, p: seq<string>, i: int)
    requires 0 < i < |p|
  {
    p[i] in Targets(g, p[i - 1])
  }

  ghost predicate IsReachable(g: Graph, sources: set<string>, x: string) {
    exists p :: IsPath(g, sources, p) && p[|p| - 1] == x
  }

  /** Every found node that is not waiting has its targets found. */
  ghost predicate IsClosed(g: Graph, found: set<string>, waiting: seq<string>) {
    forall x :: IsClosedAt(g, found, waiting, x)
  }

  predicate IsClosedAt(g: Graph, found: set<string>, waiting: seq<string>, x: string) {
    x in found && x !in waiting ==> Targets(g, x) <= found
  }

  lemma {:induction false} SourceIsReachable(g: Graph, sources: set<string>, x: string)
    requires x in sources
    ensures IsReachable(g, sources, x)
  {
    assert IsPath(g, sources, [x]);
  }

  lemma {:induction false} TargetIsReachable(g: Graph, sources: set<string>, x: string, y: string)
    requires IsReachable(g, sources, x) && y in Targets(g, x)
    ensures IsReachable(g, sources, y)
  {
    var p :| IsPath(g, sources, p) && p[|p| - 1] == x;
    var longer := p + [y];
    forall i | 0 < i < |longer|
      ensures IsEdgeAt(g, longer, i)
    {
      if i < |p| {
        assert IsEdgeAt(g, p, i);
      }
    }
    assert IsPath(g, sources, longer) && longer[|longer| - 1] == y;
  }

  /** No path leaves a closed set. */
  lemma {:induction false} PathStaysIn(g: Graph, sources: set<string>, p: seq<string>, found: set<string>)
    requires IsPath(g, sources, p) && sources <= found && IsClosed(g, found, [])
    ensures p[|p| - 1] in found
    decreases |p|
  {
    var n := |p| - 1;
    if n > 0 {
      var shorter := p[..n];
      forall i | 0 < i < |shorter|
        ensures IsEdgeAt(g, shorter, i)
      {
        assert IsEdgeAt(g, p, i);
      }
      PathStaysIn(g, sources, shorter, found);
      assert IsEdgeAt(g, p, n) && IsClosedAt(g, found, [], p[n - 1]);
    }
  }

  predicate StaysWithin(g: Graph, nodes: set<string>) {
    forall x :: x in g ==> g[x] <= nodes
  }

  ghost predicate AllReachable(g: Graph, sources: set<string>, found: set<string>) {
    forall x :: IsFoundRightly(g, sources, found, x)
  }

  ghost predicate IsFoundRightly(g: Graph, sources: set<string>, found: set<string>, x: string) {
    x in found ==> IsReachable(g, sources, x)
  }

  /** list() of a set, in any order. */
  method Listed(s: set<string>) returns (items: seq<string>)
    ensures forall x :: x in items <==> x in s
  {
    items := [];
    var todo := s;
    while todo != {}
      invariant todo <= s && forall x :: x in items <==> x in s && x !in todo
      decreases |todo|
    {
      var x :| x in todo;
      items := items + [x];
      todo := todo - {x};
    }
  }

  /** Add the targets of one node that are new, and put them in line. */
  method AddTargets(targets: set<string>, reached: set<string>, waiting: seq<string>)
    returns (reachable: set<string>, pending: seq<string>)
    ensures reachable == reached + targets
    ensures forall x :: x in pending <==> x in waiting || (x in targets && x !in reached)
    ensures targets <= reached ==> pending == waiting
  {
    reachable, pending := reached, waiting;
    var todo := targets;
    while todo != {}
      invariant todo <= targets
      invariant reachable == reached + (targets - todo)
      invariant forall x :: x in pending <==> x in waiting || (x in targets && x !in todo && x !in reached)
      invariant targets <= reached ==> pending == waiting
      decreases |todo|
    {
      var target :| target in todo;
      if target !in reachable {
        reachable := reachable + {target};
        pending := pending + [target];
      }
      todo := todo - {target};
    }
  }

  lemma {:induction false} VisitedIsClosed(g: Graph, x: string, reached: set<string>, waiting: seq<string>,
      pending: seq<string>)
    requires IsClosed(g, reached, waiting + [x])
    requires forall y :: y in pending <==> y in waiting || (y in Targets(g, x) && y !in reached)
    ensures IsClosed(g, reached + Targets(g, x), pending)
  {
    var after := reached + Targets(g, x);
    forall y
      ensures IsClosedAt(g, after, pending, y)
    {
      assert IsClosedAt(g, reached, waiting + [x], y);
    }
  }

  lemma {:induction false} VisitedAreReachable(g: Graph, sources: set<string>, x: string, reached: set<string>)
    requires AllReachable(g, sources, reached) && x in reached
    ensures AllReachable(g, sources, reached + Targets(g, x))
  {
    var after := reached + Targets(g, x);
    assert IsFoundRightly(g, sources, reached, x);
    forall y
      ensures IsFoundRightly(g, sources, after, y)
    {
      assert IsFoundRightly(g, sources, reached, y);
      if y in Targets(g, x) {
        TargetIsReachable(g, sources, x, y);
      }
    }
  }

  /** The invariant of the search. */
  ghost predicate IsUnderWay(g: Graph, nodes: set<string>, sources: set<string>, reachable: set<string>,
      pending: seq<string>) {
    && sources <= reachable <= nodes
    && AllReachable(g, sources, reachable)
    && (forall x :: x in pending ==> x in reachable)
    && IsClosed(g, reachable, pending)
  }

  lemma {:induction false} Begun(g: Graph, nodes: set<string>, sources: set<string>, pending: seq<string>)
    requires sources <= nodes && forall x :: x in pending <==> x in sources
    ensures IsUnderWay(g, nodes, sources, sources, pending)
  {
    forall x
      ensures IsFoundRightly(g, sources, sources, x)
    {
      if x in sources {
        SourceIsReachable(g, sources, x);
      }
    }
    forall x
      ensures IsClosedAt(g, sources, pending, x)
    {
    }
  }

  lemma {:induction false} Advanced(g: Graph, nodes: set<string>, sources: set<string>, reached: set<string>,
                                    waiting: seq<string>, x: string, pending: seq<string>)
    requires StaysWithin(g, nodes) && IsUnderWay(g, nodes, sources, reached, waiting + [x])
    requires forall y :: y in pending <==> y in waiting || (y in Targets(g, x) && y !in reached)
    ensures IsUnderWay(g, nodes, sources, reached + Targets(g, x), pending)
  {
    assert x in waiting + [x];
    assert forall y :: y in waiting ==> y in waiting + [x];
    VisitedAreReachable(g, sources, x, reached);
    VisitedIsClosed(g, x, reached, waiting, pending);
  }

  lemma {:induction false} Ended(g: Graph, nodes: set<string>, sources: set<string>, reachable: set<string>)
    requires IsUnderWay(g, nodes, sources, reachable, [])
    ensures forall x :: x in reachable <==> IsReachable(g, sources, x)
  {
    forall x
      ensures x in reachable <==> IsReachable(g, sources, x)
    {
      assert IsFoundRightly(g, sources, reachable, x);
      if IsReachable(g, sources, x) {
        var p :| IsPath(g, sources, p) && p[|p| - 1] == x;
        PathStaysIn(g, sources, p, reachable);
      }
    }
  }

  /** The search ends, and finds exactly the nodes that a path leads to. */
  method Search(g: Graph, nodes: set<string>, sources: set<string>) returns (reachable: set<string>)
    requires sources <= nodes && StaysWithin(g, nodes)
    ensures forall x :: x in reachable <==> IsReachable(g, sources, x)
  {
    reachable := sources;
    var pending := Listed(sources);
    Begun(g, nodes, sources, pending);
    while pending != []
      invariant IsUnderWay(g, nodes, sources, reachable, pending)
      decreases |nodes - reachable|, |pending|
    {
      var current, rest, before := pending[|pending| - 1], pending[..|pending| - 1], reachable;
      assert pending == rest + [current];
      reachable, pending := AddTargets(Targets(g, current), before, rest);
      Advanced(g, nodes, sources, before, rest, current, pending);
      Progress(nodes, before, Targets(g, current), reachable);
    }
    Ended(g, nodes, sources, reachable);
  }

  lemma {:induction false} Progress(nodes: set<string>, before: set<string>, targets: set<string>, after: set<string>)
    requires after == before + targets && after <= nodes
    ensures targets <= before ==> after == before
    ensures !(targets <= before) ==> |nodes - after| < |nodes - before|
  {
    if !(targets <= before) {
      Fewer(nodes, before, after);
    }
  }

  lemma {:induction false} Fewer(nodes: set<string>, before: set<string>, after: set<string>)
    requires before <= after <= nodes && before != after
    ensures |nodes - after| < |nodes - before|
  {
    assert nodes - after <= nodes - before;
    var x :| x in after && x !in before;
    assert x in nodes - before && x !in nodes - after;
    Subset(nodes - after, nodes - before, x);
  }

  lemma {:induction false} Subset(a: set<string>, b: set<string>, x: string)
    requires a <= b && x in b && x !in a
    ensures |a| < |b|
    decreases |b|
  {
    if a != {} {
      var y :| y in a;
      Subset(a - {y}, b - {y}, x);
    }
  }
}
