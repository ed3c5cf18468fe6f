/** Walks and cycles of a directed graph, and a depth-first search that tells an acyclic graph from a cyclic one. */
module Graphs {
  import opened Prelude

  type Node = string
  type Relation = (Node, Node) -> bool

  /** A walk follows edges from node to node. */
  predicate IsWalk(edge: Relation, walk: seq<Node>) {
    forall i :: 0 <= i < |walk| - 1 ==> edge(walk[i], walk[i + 1])
  }

  predicate IsCycle(edge: Relation, walk: seq<Node>) {
    |walk| >= 2 && IsWalk(edge, walk) && walk[0] == walk[|walk| - 1]
  }

  ghost predicate Acyclic(edge: Relation) {
    forall walk: seq<Node> :: !IsCycle(edge, walk)
  }

  ghost predicate OnCycle(edge: Relation, n: Node) {
    exists walk: seq<Node> :: IsCycle(edge, walk) && walk[0] == n
  }

  /** Adjacency lists; a node without an entry has no edges. */
  type Graph = map<Node, seq<Node>>

  function Next(g: Graph, n: Node): seq<Node> {
    if n in g then g[n] else []
  }

  function Edges(g: Graph): Relation {
    (a: Node, b: Node) => b in Next(g, a)
  }

  function Nodes(g: Graph): set<Node> {
    g.Keys + set a, i | a in g && 0 <= i < |g[a]| :: g[a][i]
  }

  /** A rank for every node that strictly falls along every edge. */
  ghost predicate Falls(edge: Relation, rank: map<Node, nat>) {
    forall a, b :: edge(a, b) ==> a in rank && b in rank && rank[b] < rank[a]
  }

  ghost predicate Ranked(edge: Relation) {
    exists rank: map<Node, nat> :: Falls(edge, rank)
  }

  /** Ranks fall along a walk, so it never returns. */
  lemma {:induction false} RankFallsAlong(edge: Relation, rank: map<Node, nat>, walk: seq<Node>)
    requires Falls(edge, rank) && |walk| >= 2 && IsWalk(edge, walk)
    ensures walk[0] in rank && walk[|walk| - 1] in rank && rank[walk[|walk| - 1]] < rank[walk[0]]
  {
    assert edge(walk[0], walk[1]);
    if |walk| > 2 {
      forall i | 0 <= i < |walk[1..]| - 1 ensures edge(walk[1..][i], walk[1..][i + 1]) {
        assert edge(walk[i + 1], walk[i + 2]);
      }
      RankFallsAlong(edge, rank, walk[1..]);
    }
  }

  lemma RankedIsAcyclic(edge: Relation)
    requires Ranked(edge)
    ensures Acyclic(edge)
  {
    var rank: map<Node, nat> :| Falls(edge, rank);
    forall walk: seq<Node> ensures !IsCycle(edge, walk) {
      if IsCycle(edge, walk) {
        RankFallsAlong(edge, rank, walk);
      }
    }
  }

  /** Every node is listed after all the nodes its edges lead to. */
  ghost predicate Ordered(edge: Relation, order: seq<Node>) {
    forall i, b :: 0 <= i < |order| && edge(order[i], b) ==> b in order[..i]
  }

  /** A complete order of this kind ranks the graph. */
  lemma OrderedIsRanked(edge: Relation, order: seq<Node>)
    requires Ordered(edge, order) && Distinct(order)
    requires forall a, b :: edge(a, b) ==> a in order
    ensures Ranked(edge)
  {
    var rank: map<Node, nat> := map a | a in order :: Position(order, a);
    forall a, b | edge(a, b) ensures a in rank && b in rank && rank[b] < rank[a] {
      var i := Position(order, a);
      assert edge(order[i], b);
      assert b in order[..i];
      var j :| 0 <= j < i && order[j] == b;
      assert Position(order, b) == j;
    }
    assert Falls(edge, rank);
  }

  /** Two relations with the same pairs have the same cycles and the same rankings. */
  lemma SameEdges(e: Relation, f: Relation)
    requires forall a, b :: e(a, b) <==> f(a, b)
    ensures Acyclic(e) <==> Acyclic(f)
    ensures Ranked(e) <==> Ranked(f)
    ensures forall n :: OnCycle(e, n) <==> OnCycle(f, n)
  {
    forall walk: seq<Node> ensures IsCycle(e, walk) <==> IsCycle(f, walk) {
    }
    forall rank: map<Node, nat> ensures Falls(e, rank) <==> Falls(f, rank) {
    }
  }

  function Position(order: seq<Node>, a: Node): (i: nat)
    requires a in order
    ensures i < |order| && order[i] == a
  {
    if order[0] == a then 0 else 1 + Position(order[1..], a)
  }

  // ---------------------------------------------------------------------------
  // Depth-first search
  // ---------------------------------------------------------------------------

  /** The search from every root in turn, with the set of nodes under way and the set of nodes done. */
  class Search {
    const g: Graph
    var visiting: set<Node>
    var visited: set<Node>
    /** The nodes under way, outermost first. */
    ghost var trail: seq<Node>
    /** The nodes done, in the order in which they were done. */
    ghost var done: seq<Node>

    ghost predicate Valid()
      reads this
    {
      && IsWalk(Edges(g), trail)
      && (forall n :: n in visiting <==> n in trail)
      && (forall n :: n in visited <==> n in done)
      && visiting !! visited
      && Distinct(done) && Ordered(Edges(g), done)
    }

    constructor (g: Graph)
      ensures Valid() && this.g == g && trail == [] && done == [] && visited == {}
    {
      this.g := g;
      visiting, visited := {}, {};
      trail, done := [], [];
    }

    /** Visits `n`; `None` when nothing on from `n` closes a cycle, else a node on a cycle. */
    method Visit(n: Node) returns (cycle: Option<Node>)
      requires Valid() && n in Nodes(g)
      requires trail != [] ==> Edges(g)(trail[|trail| - 1], n)
      modifies this
      ensures cycle.Some? ==> OnCycle(Edges(g), cycle.value)
      ensures cycle.None? ==> Valid() && n in visited && trail == old(trail) && old(visited) <= visited
      decreases Nodes(g) - visited - visiting, 0
    {
      if n in visited {
        return None;
      }
      if n in visiting {
        ClosesCycle(Edges(g), trail, n);
        return Some(n);
      }
      visiting := visiting + {n};
      ExtendWalk(Edges(g), trail, n);
      trail := trail + [n];
      cycle := VisitTargets(n);
      if cycle.None? {
        Finish(Edges(g), done, n, visited);
        visiting := visiting - {n};
        visited := visited + {n};
        trail := old(trail);
        done := done + [n];
      }
    }

    /** Visits what the edges of the innermost node under way lead to. */
    method VisitTargets(n: Node) returns (cycle: Option<Node>)
      requires Valid() && trail != [] && trail[|trail| - 1] == n
      modifies this
      ensures cycle.Some? ==> OnCycle(Edges(g), cycle.value)
      ensures cycle.None? ==>
                && Valid() && trail == old(trail) && old(visited) <= visited
                && forall b :: b in Next(g, n) ==> b in visited
      decreases Nodes(g) - visited - visiting, 1
    {
      var targets := Next(g, n);
      for i := 0 to |targets|
        invariant Valid() && trail == old(trail) && old(visited) <= visited
        invariant forall j :: 0 <= j < i ==> targets[j] in visited
      {
        assert Edges(g)(n, targets[i]);
        SameVisiting(old(trail), old(visiting), trail, visiting);
        cycle := Visit(targets[i]);
        if cycle.Some? {
          return;
        }
      }
      return None;
    }

    /** Visits every root; the graph is cyclic exactly when some visit meets a cycle. */
    method Run(roots: seq<Node>) returns (cycle: Option<Node>)
      requires Valid() && trail == []
      requires forall n :: n in roots ==> n in Nodes(g)
      requires forall n :: n in g ==> n in roots
      modifies this
      ensures cycle.Some? ==> OnCycle(Edges(g), cycle.value)
      ensures cycle.None? ==> Ranked(Edges(g))
      ensures cycle.None? <==> Acyclic(Edges(g))
    {
      for i := 0 to |roots|
        invariant Valid() && trail == []
        invariant forall j :: 0 <= j < i ==> roots[j] in visited
      {
        cycle := Visit(roots[i]);
        if cycle.Some? {
          return;
        }
      }
      forall a, b | Edges(g)(a, b) ensures a in done {
        assert a in roots;
      }
      OrderedIsRanked(Edges(g), done);
      RankedIsAcyclic(Edges(g));
      return None;
    }
  }

  lemma SameVisiting(a: seq<Node>, x: set<Node>, b: seq<Node>, y: set<Node>)
    ensures a == b && (forall n :: n in x <==> n in a) && (forall n :: n in y <==> n in b) ==> x == y
  {
  }

  /** Meeting a node of the trail again closes a cycle. */
  lemma ClosesCycle(edge: Relation, trail: seq<Node>, n: Node)
    requires n in trail && IsWalk(edge, trail) && edge(trail[|trail| - 1], n)
    ensures OnCycle(edge, n)
  {
    var i :| 0 <= i < |trail| && trail[i] == n;
    var walk := trail[i..] + [n];
    forall j | 0 <= j < |walk| - 1 ensures edge(walk[j], walk[j + 1]) {
      if j < |walk| - 2 {
        assert edge(trail[i + j], trail[i + j + 1]);
      }
    }
    assert IsCycle(edge, walk);
  }

  lemma ExtendWalk(edge: Relation, walk: seq<Node>, n: Node)
    requires IsWalk(edge, walk) && (walk != [] ==> edge(walk[|walk| - 1], n))
    ensures IsWalk(edge, walk + [n])
  {
  }

  lemma Finish(edge: Relation, done: seq<Node>, n: Node, visited: set<Node>)
    requires Distinct(done) && Ordered(edge, done) && n !in visited
    requires forall m :: m in visited <==> m in done
    requires forall b :: edge(n, b) ==> b in visited
    ensures Distinct(done + [n]) && Ordered(edge, done + [n])
  {
    forall i, b | 0 <= i < |done + [n]| && edge((done + [n])[i], b) ensures b in (done + [n])[..i] {
      assert (done + [n])[..i] == done[..i];
      if i == |done| {
        assert done[..i] == done;
      }
    }
  }
}
