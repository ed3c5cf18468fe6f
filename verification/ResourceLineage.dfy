/** The check that the recorded ancestry of resource versions is well-formed, free of repetitions and acyclic. */
module ResourceLineage {
  import opened Prelude
  import opened Graphs

  datatype Relationship = ForkedFrom | ComposedOf

  datatype Edge = Edge(child: Node, parent: Node, relationship: Relationship, ordinal: Option<nat>)

  datatype Verdict = Accepted | Malformed | DuplicateEdge | DuplicateOrdinal | Cycle(at: Node)

  predicate WellFormed(e: Edge) {
    e.child != e.parent && (e.relationship.ComposedOf? <==> e.ordinal.Some?)
  }

  /** Its own parent, a part of a composition without position, or a fork with one. */
  predicate Malformation(e: Edge) {
    || e.child == e.parent
    || (e.relationship == ComposedOf && e.ordinal == None)
    || (e.relationship == ForkedFrom && e.ordinal != None)
  }

  /** The same parent twice in the same relationship to the same child. */
  predicate SameEdge(e: Edge, f: Edge) {
    e.child == f.child && e.relationship == f.relationship && e.parent == f.parent
  }

  /** Two parts of the same composition at the same position. */
  predicate SamePlace(e: Edge, f: Edge) {
    && e.relationship.ComposedOf? && f.relationship.ComposedOf?
    && e.child == f.child && e.ordinal == f.ordinal
  }

  /** The `i`-th edge was recorded before. */
  predicate RepeatsEdge(edges: seq<Edge>, i: nat)
    requires i < |edges|
  {
    exists j :: 0 <= j < i && SameEdge(edges[j], edges[i])
  }

  /** The place of the `i`-th edge in its composition is taken. */
  predicate RepeatsPlace(edges: seq<Edge>, i: nat)
    requires i < |edges|
  {
    exists j :: 0 <= j < i && SamePlace(edges[j], edges[i])
  }

  predicate Repeated(edges: seq<Edge>, i: nat)
    requires i < |edges|
  {
    RepeatsEdge(edges, i) || RepeatsPlace(edges, i)
  }

  /** No edge repeats an earlier edge or takes the place of an earlier part. */
  predicate RepetitionFree(edges: seq<Edge>) {
    forall i :: 0 <= i < |edges| ==> !Repeated(edges, i)
  }

  function ChildOf(edges: seq<Edge>): Relation {
    (a: Node, b: Node) => exists i :: 0 <= i < |edges| && edges[i].child == a && edges[i].parent == b
  }

  type Identity = (Node, Relationship, Node)
  type Place = (Node, Option<nat>)

  function IdentityOf(e: Edge): Identity {
    (e.child, e.relationship, e.parent)
  }

  function IdentitiesOf(edges: seq<Edge>): set<Identity> {
    set e | e in edges :: IdentityOf(e)
  }

  function PlacesOf(edges: seq<Edge>): set<Place> {
    set e | e in edges && e.relationship.ComposedOf? :: (e.child, e.ordinal)
  }

  lemma RepeatedIsRecorded(edges: seq<Edge>, i: nat)
    requires i < |edges|
    ensures RepeatsEdge(edges, i) <==> IdentityOf(edges[i]) in IdentitiesOf(edges[..i])
    ensures RepeatsPlace(edges, i) <==>
              edges[i].relationship.ComposedOf? && (edges[i].child, edges[i].ordinal) in PlacesOf(edges[..i])
  {
    var e := edges[i];
    if RepeatsEdge(edges, i) {
      var j :| 0 <= j < i && SameEdge(edges[j], e);
      assert edges[j] in edges[..i];
    }
    if RepeatsPlace(edges, i) {
      var j :| 0 <= j < i && SamePlace(edges[j], e);
      assert edges[j] in edges[..i];
    }
    if IdentityOf(e) in IdentitiesOf(edges[..i]) {
      var f :| f in edges[..i] && IdentityOf(f) == IdentityOf(e);
      var j :| 0 <= j < i && edges[j] == f;
      assert SameEdge(edges[j], e);
    }
    if e.relationship.ComposedOf? && (e.child, e.ordinal) in PlacesOf(edges[..i]) {
      var f :| f in edges[..i] && f.relationship.ComposedOf? && (f.child, f.ordinal) == (e.child, e.ordinal);
      var j :| 0 <= j < i && edges[j] == f;
      assert SamePlace(edges[j], e);
    }
  }

  /** The parents recorded for a child, each once, in the order in which they came. */
  function AddParent(adjacency: Graph, e: Edge): Graph {
    var parents := Next(adjacency, e.child);
    adjacency[e.child := if e.parent in parents then parents else parents + [e.parent]]
  }

  ghost predicate Linked(edges: seq<Edge>, adjacency: Graph) {
    forall a, b :: b in Next(adjacency, a) <==> ChildOf(edges)(a, b)
  }

  lemma AddParentLinks(edges: seq<Edge>, adjacency: Graph, e: Edge)
    requires Linked(edges, adjacency)
    ensures Linked(edges + [e], AddParent(adjacency, e))
  {
    forall a, b ensures b in Next(AddParent(adjacency, e), a) <==> ChildOf(edges + [e])(a, b) {
      assert b in Next(AddParent(adjacency, e), a) <==> b in Next(adjacency, a) || (a == e.child && b == e.parent);
      assert (edges + [e])[|edges|] == e;
      if ChildOf(edges)(a, b) {
        var i :| 0 <= i < |edges| && edges[i].child == a && edges[i].parent == b;
        assert (edges + [e])[i] == edges[i];
      }
    }
  }

  /**
   Accepts exactly the well-formed edges that repeat nothing and form no cycle; a rejection for a
   cycle names a resource on a real one.
   */
  method AssertAcyclicResourceLineage(edges: seq<Edge>) returns (verdict: Verdict)
    ensures verdict.Accepted? <==>
              (forall e :: e in edges ==> !Malformation(e)) && RepetitionFree(edges) && Acyclic(ChildOf(edges))
    ensures verdict.Accepted? ==> Ranked(ChildOf(edges))
    ensures verdict.Malformed? <==> exists e :: e in edges && Malformation(e)
    ensures verdict.DuplicateEdge? ==> exists i :: 0 <= i < |edges| && RepeatsEdge(edges, i)
    ensures verdict.DuplicateOrdinal? ==> exists i :: 0 <= i < |edges| && RepeatsPlace(edges, i)
    ensures verdict.Cycle? ==> RepetitionFree(edges) && OnCycle(ChildOf(edges), verdict.at)
  {
    for i := 0 to |edges|
      invariant forall j :: 0 <= j < i ==> !Malformation(edges[j])
    {
      assert WellFormed(edges[i]) <==> !Malformation(edges[i]);
      if !WellFormed(edges[i]) {
        return Malformed;
      }
    }
    var children, adjacency;
    verdict, children, adjacency := Record(edges);
    if !verdict.Accepted? {
      return;
    }
    SameEdges(Edges(adjacency), ChildOf(edges));
    var search := new Search(adjacency);
    var cycle := search.Run(children);
    return if cycle.Some? then Cycle(cycle.value) else Accepted;
  }

  /** The scan that finds repetitions and builds the adjacency lists. */
  method Record(edges: seq<Edge>) returns (verdict: Verdict, children: seq<Node>, adjacency: Graph)
    ensures verdict.Accepted? || verdict.DuplicateEdge? || verdict.DuplicateOrdinal?
    ensures verdict.Accepted? <==> RepetitionFree(edges)
    ensures verdict.DuplicateEdge? ==> exists i :: 0 <= i < |edges| && RepeatsEdge(edges, i)
    ensures verdict.DuplicateOrdinal? ==> exists i :: 0 <= i < |edges| && RepeatsPlace(edges, i)
    ensures verdict.Accepted? ==> Linked(edges, adjacency) && forall n :: n in children <==> n in adjacency
  {
    children, adjacency := [], map[];
    var identities: set<Identity>, places: set<Place> := {}, {};
    for i := 0 to |edges|
      invariant identities == IdentitiesOf(edges[..i]) && places == PlacesOf(edges[..i])
      invariant Linked(edges[..i], adjacency)
      invariant forall n :: n in children <==> n in adjacency
      invariant forall j :: 0 <= j < i ==> !Repeated(edges, j)
    {
      var e := edges[i];
      RepeatedIsRecorded(edges, i);
      if IdentityOf(e) in identities {
        assert Repeated(edges, i);
        return DuplicateEdge, children, adjacency;
      }
      identities := identities + {IdentityOf(e)};
      AddParentLinks(edges[..i], adjacency, e);
      if e.child !in adjacency {
        children := children + [e.child];
      }
      adjacency := AddParent(adjacency, e);
      if e.relationship.ComposedOf? {
        if (e.child, e.ordinal) in places {
          assert Repeated(edges, i);
          return DuplicateOrdinal, children, adjacency;
        }
        places := places + {(e.child, e.ordinal)};
      }
      assert edges[..i + 1] == edges[..i] + [e];
    }
    assert edges[..|edges|] == edges;
    return Accepted, children, adjacency;
  }
}
