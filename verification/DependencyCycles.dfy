/** The compiler's check that a set of resource manifests pins each other exactly and without cycles. */
module DependencyCycles {
  import opened Prelude
  import opened Graphs

  /** A manifest by its version key, with the version keys of its exact dependencies. */
  datatype Manifest = Manifest(key: Node, dependencies: seq<Node>)

  datatype Verdict =
    | Accepted
    | DuplicateVersion(key: Node)
    | DuplicateDependency(key: Node)
    | Unresolved(dependency: Node, key: Node)
    | Cycle(key: Node)

  function Keys(manifests: seq<Manifest>): (keys: seq<Node>)
    ensures |keys| == |manifests| && forall i :: 0 <= i < |keys| ==> keys[i] == manifests[i].key
  {
    seq(|manifests|, i requires 0 <= i < |manifests| => manifests[i].key)
  }

  ghost predicate DistinctVersions(manifests: seq<Manifest>) {
    forall i, j :: 0 <= i < j < |manifests| ==> manifests[i].key != manifests[j].key
  }

  function Versions(manifests: seq<Manifest>): set<Node> {
    set m | m in manifests :: m.key
  }

  ghost predicate Resolved(known: set<Node>, dependencies: seq<Node>) {
    forall d :: d in dependencies ==> d in known
  }

  /** One manifest's dependencies are distinct and all present. */
  ghost predicate Sound(known: set<Node>, m: Manifest) {
    Distinct(m.dependencies) && Resolved(known, m.dependencies)
  }

  /** `a` depends on `b` directly. */
  function DependsOn(manifests: seq<Manifest>): Relation {
    (a: Node, b: Node) => exists i :: 0 <= i < |manifests| && manifests[i].key == a && b in manifests[i].dependencies
  }

  ghost predicate Indexed(manifests: seq<Manifest>, byVersion: Graph) {
    && byVersion.Keys == Versions(manifests)
    && forall i :: 0 <= i < |manifests| ==>
         manifests[i].key in byVersion && byVersion[manifests[i].key] == manifests[i].dependencies
  }

  lemma IndexHasEdges(manifests: seq<Manifest>, byVersion: Graph)
    requires Indexed(manifests, byVersion)
    ensures forall a, b :: Edges(byVersion)(a, b) <==> DependsOn(manifests)(a, b)
  {
    forall a, b | Edges(byVersion)(a, b) ensures DependsOn(manifests)(a, b) {
      var i :| 0 <= i < |manifests| && manifests[i].key == a;
      assert byVersion[manifests[i].key] == manifests[i].dependencies;
    }
  }

  lemma DistinctLast(s: seq<Node>)
    requires s != []
    ensures Distinct(s) <==> Distinct(s[..|s| - 1]) && s[|s| - 1] !in s[..|s| - 1]
  {
    if Distinct(s[..|s| - 1]) && s[|s| - 1] !in s[..|s| - 1] {
      forall i, j | 0 <= i < j < |s| ensures s[i] != s[j] {
        assert s[i] == s[..|s| - 1][i];
      }
    }
  }

  /** A sequence is distinct exactly when its set is no smaller. */
  lemma {:induction false} SmallerSet(s: seq<Node>)
    ensures |ToSet(s)| <= |s|
    ensures |ToSet(s)| == |s| <==> Distinct(s)
  {
    if s != [] {
      var rest, last := s[..|s| - 1], s[|s| - 1];
      SmallerSet(rest);
      DistinctLast(s);
      if last in rest {
        assert ToSet(rest) + {last} == ToSet(rest);
      }
    }
  }

  function ToSet(s: seq<Node>): (r: set<Node>)
    ensures forall x :: x in r <==> x in s
  {
    if s == [] then {} else ToSet(s[..|s| - 1]) + {s[|s| - 1]}
  }

  /**
   Accepts exactly the manifests with distinct versions, distinct and resolved dependencies and no
   dependency cycle; a rejection names what is wrong.
   */
  method AssertAcyclicDependencies(manifests: seq<Manifest>) returns (verdict: Verdict)
    ensures verdict.Accepted? <==>
              && DistinctVersions(manifests)
              && (forall m :: m in manifests ==> Sound(Versions(manifests), m))
              && Acyclic(DependsOn(manifests))
    ensures verdict.Accepted? ==> Ranked(DependsOn(manifests))
    ensures verdict.DuplicateVersion? ==>
              exists i, j :: 0 <= i < j < |manifests| && manifests[i].key == manifests[j].key == verdict.key
    ensures verdict.DuplicateDependency? ==>
              && DistinctVersions(manifests)
              && exists m :: m in manifests && m.key == verdict.key && !Distinct(m.dependencies)
    ensures verdict.Unresolved? ==>
              && DistinctVersions(manifests) && verdict.dependency !in Versions(manifests)
              && DependsOn(manifests)(verdict.key, verdict.dependency)
    ensures verdict.Cycle? ==>
              && DistinctVersions(manifests)
              && (forall m :: m in manifests ==> Sound(Versions(manifests), m))
              && OnCycle(DependsOn(manifests), verdict.key)
  {
    var duplicate, byVersion := IndexByVersion(manifests);
    if duplicate.Some? {
      return DuplicateVersion(duplicate.value);
    }
    verdict := CheckDependencies(manifests, byVersion);
    if verdict.Accepted? {
      verdict := CheckCycles(manifests, byVersion);
    }
  }

  method IndexByVersion(manifests: seq<Manifest>) returns (duplicate: Option<Node>, byVersion: Graph)
    ensures duplicate.None? <==> DistinctVersions(manifests)
    ensures duplicate.None? ==> Indexed(manifests, byVersion)
    ensures duplicate.Some? ==>
              exists i, j :: 0 <= i < j < |manifests| && manifests[i].key == manifests[j].key == duplicate.value
  {
    byVersion := map[];
    for i := 0 to |manifests|
      invariant DistinctVersions(manifests[..i]) && Indexed(manifests[..i], byVersion)
    {
      if manifests[i].key in byVersion {
        var j :| 0 <= j < i && manifests[..i][j].key == manifests[i].key;
        assert manifests[j].key == manifests[i].key;
        return Some(manifests[i].key), byVersion;
      }
      IndexNext(manifests[..i], manifests[i], byVersion);
      assert manifests[..i + 1] == manifests[..i] + [manifests[i]];
      byVersion := byVersion[manifests[i].key := manifests[i].dependencies];
    }
    assert manifests[..|manifests|] == manifests;
    return None, byVersion;
  }

  lemma IndexNext(manifests: seq<Manifest>, m: Manifest, byVersion: Graph)
    requires DistinctVersions(manifests) && Indexed(manifests, byVersion) && m.key !in byVersion
    ensures DistinctVersions(manifests + [m])
    ensures Indexed(manifests + [m], byVersion[m.key := m.dependencies])
  {
    forall i | 0 <= i < |manifests| ensures manifests[i].key != m.key {
      assert manifests[i] in manifests;
    }
  }

  method CheckDependencies(manifests: seq<Manifest>, byVersion: Graph) returns (verdict: Verdict)
    requires Indexed(manifests, byVersion)
    ensures verdict.Accepted? || verdict.DuplicateDependency? || verdict.Unresolved?
    ensures verdict.Accepted? <==> forall m :: m in manifests ==> Sound(Versions(manifests), m)
    ensures verdict.DuplicateDependency? ==>
              exists m :: m in manifests && m.key == verdict.key && !Distinct(m.dependencies)
    ensures verdict.Unresolved? ==>
              verdict.dependency !in Versions(manifests) && DependsOn(manifests)(verdict.key, verdict.dependency)
  {
    for i := 0 to |manifests|
      invariant forall j :: 0 <= j < i ==> Sound(Versions(manifests), manifests[j])
    {
      verdict := CheckManifest(byVersion, manifests[i]);
      if !verdict.Accepted? {
        return;
      }
    }
    return Accepted;
  }

  method CheckManifest(byVersion: Graph, m: Manifest) returns (verdict: Verdict)
    ensures verdict.Accepted? <==> Sound(byVersion.Keys, m)
    ensures verdict.Accepted? || (verdict.DuplicateDependency? && verdict.key == m.key && !Distinct(m.dependencies))
            || (verdict.Unresolved? && verdict.key == m.key && verdict.dependency in m.dependencies
                && verdict.dependency !in byVersion.Keys)
  {
    SmallerSet(m.dependencies);
    if |ToSet(m.dependencies)| != |m.dependencies| {
      return DuplicateDependency(m.key);
    }
    for d := 0 to |m.dependencies|
      invariant Resolved(byVersion.Keys, m.dependencies[..d])
    {
      if m.dependencies[d] !in byVersion {
        return Unresolved(m.dependencies[d], m.key);
      }
    }
    assert m.dependencies[..|m.dependencies|] == m.dependencies;
    return Accepted;
  }

  method CheckCycles(manifests: seq<Manifest>, byVersion: Graph) returns (verdict: Verdict)
    requires Indexed(manifests, byVersion)
    ensures verdict.Accepted? || verdict.Cycle?
    ensures verdict.Accepted? <==> Acyclic(DependsOn(manifests))
    ensures verdict.Accepted? ==> Ranked(DependsOn(manifests))
    ensures verdict.Cycle? ==> OnCycle(DependsOn(manifests), verdict.key)
  {
    IndexHasEdges(manifests, byVersion);
    SameEdges(Edges(byVersion), DependsOn(manifests));
    var search := new Search(byVersion);
    var cycle := search.Run(Keys(manifests));
    return if cycle.Some? then Cycle(cycle.value) else Accepted;
  }
}
