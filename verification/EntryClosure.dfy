/**
 The entry closure of a release: the resources found by following dependency pins from the entry
 along paths without repetition, cut at depth 100. Two queries compute it, one for the worker's claim
 and one for the reach of a plugin.
 */
module EntryClosure {
  import opened Prelude
  import opened Graphs

  type Digest = string

  datatype Pin = Pin(source: Node, target: Node, digest: Digest)

  /** All stored versions, the resources of one release, and all pins. */
  datatype Catalog = Catalog(versions: map<Node, Digest>, release: map<Node, Digest>, pins: seq<Pin>)

  const DEPTH_LIMIT := 100

  /** A row of the recursive query. */
  datatype Row = Row(at: Node, digest: Digest, path: seq<Node>, depth: nat)

  /** The release holds `n` under the digest its stored version has. */
  predicate Held(c: Catalog, n: Node, digest: Digest) {
    && n in c.release && c.release[n] == digest
    && n in c.versions && c.versions[n] == digest
  }

  predicate Rooted(c: Catalog, entry: Node) {
    entry in c.release && Held(c, entry, c.release[entry])
  }

  /** A pin leads from `a` to `b` and pins the digest the release holds. */
  function Follows(c: Catalog): Relation {
    (a: Node, b: Node) => exists pin :: pin in c.pins && pin.source == a && pin.target == b && Held(c, b, pin.digest)
  }

  function Advance(r: Row, pin: Pin): Row {
    Row(pin.target, pin.digest, r.path + [pin.target], r.depth + 1)
  }

  predicate Joins(c: Catalog, r: Row, pin: Pin) {
    && pin.source == r.at && Held(c, pin.target, pin.digest)
    && r.depth < DEPTH_LIMIT && pin.target !in r.path
  }

  /** The rows of the `d`-th round of the recursion. */
  function Round(c: Catalog, entry: Node, d: nat): set<Row> {
    if d == 0 then
      if Rooted(c, entry) then {Row(entry, c.release[entry], [entry], 0)} else {}
    else
      set r, pin | r in Round(c, entry, d - 1) && pin in c.pins && Joins(c, r, pin) :: Advance(r, pin)
  }

  ghost predicate InClosure(c: Catalog, entry: Node, n: Node, digest: Digest) {
    exists d: nat, r :: r in Round(c, entry, d) && r.at == n && r.digest == digest
  }

  // ---------------------------------------------------------------------------
  // Walks
  // ---------------------------------------------------------------------------

  /** A walk from `a` to `b` with at most `most` nodes. */
  predicate Leads(edge: Relation, walk: seq<Node>, a: Node, b: Node, most: nat) {
    1 <= |walk| <= most && IsWalk(edge, walk) && walk[0] == a && walk[|walk| - 1] == b
  }

  ghost predicate WithinReach(edge: Relation, a: Node, b: Node, most: nat) {
    exists walk: seq<Node> :: Leads(edge, walk, a, b, most)
  }

  /** Cutting out a loop leaves a walk between the same ends. */
  lemma CutLoop(edge: Relation, walk: seq<Node>, i: nat, j: nat)
    requires IsWalk(edge, walk) && i < j < |walk| && walk[i] == walk[j]
    ensures IsWalk(edge, walk[..i] + walk[j..])
  {
    var cut := walk[..i] + walk[j..];
    forall k | 0 <= k < |cut| - 1 ensures edge(cut[k], cut[k + 1]) {
      if k < i {
        assert cut[k] == walk[k] && cut[k + 1] == walk[k + 1];
        assert edge(walk[k], walk[k + 1]);
      } else {
        assert edge(walk[j + (k - i)], walk[j + (k - i) + 1]);
      }
    }
  }

  /** Every walk can be replaced by one without repetition that is no longer. */
  lemma {:induction false} Shorten(edge: Relation, walk: seq<Node>, a: Node, b: Node, most: nat)
    returns (simple: seq<Node>)
    requires Leads(edge, walk, a, b, most)
    ensures Leads(edge, simple, a, b, most) && Distinct(simple)
    decreases |walk|
  {
    if Distinct(walk) {
      simple := walk;
    } else {
      var i, j :| 0 <= i < j < |walk| && walk[i] == walk[j];
      CutLoop(edge, walk, i, j);
      simple := Shorten(edge, walk[..i] + walk[j..], a, b, most);
    }
  }

  // ---------------------------------------------------------------------------
  // What the rounds compute
  // ---------------------------------------------------------------------------

  /** What a row of the `d`-th round tells: a walk without repetition from the entry. */
  ghost predicate Traced(c: Catalog, entry: Node, d: nat, r: Row) {
    && r.depth == d && d <= DEPTH_LIMIT && |r.path| == d + 1 && Distinct(r.path)
    && IsWalk(Follows(c), r.path) && r.path[0] == entry && r.path[d] == r.at
    && Held(c, r.at, r.digest)
  }

  lemma AdvanceIsTraced(c: Catalog, entry: Node, d: nat, r: Row, pin: Pin)
    requires Traced(c, entry, d, r) && pin in c.pins && Joins(c, r, pin)
    ensures Traced(c, entry, d + 1, Advance(r, pin))
  {
    assert Follows(c)(r.at, pin.target);
    ExtendWalk(Follows(c), r.path, pin.target);
  }

  /** A row of a later round comes from a row of the round before and a pin. */
  lemma Origin(c: Catalog, entry: Node, d: nat, row: Row) returns (r: Row, pin: Pin)
    requires row in Round(c, entry, d + 1)
    ensures r in Round(c, entry, d) && pin in c.pins && Joins(c, r, pin) && row == Advance(r, pin)
  {
    r, pin :| r in Round(c, entry, d) && pin in c.pins && Joins(c, r, pin) && row == Advance(r, pin);
  }

  lemma {:induction false} RoundsAreTraced(c: Catalog, entry: Node, d: nat, row: Row)
    requires row in Round(c, entry, d)
    ensures Rooted(c, entry) && Traced(c, entry, d, row)
  {
    if d > 0 {
      var r, pin := Origin(c, entry, d - 1, row);
      RoundsAreTraced(c, entry, d - 1, r);
      AdvanceIsTraced(c, entry, d - 1, r, pin);
    }
  }

  lemma Advances(c: Catalog, entry: Node, d: nat, r: Row, b: Node) returns (row: Row)
    requires r in Round(c, entry, d) && Follows(c)(r.at, b) && r.depth < DEPTH_LIMIT && b !in r.path
    ensures row in Round(c, entry, d + 1) && row.path == r.path + [b] && row.at == b
  {
    var pin :| pin in c.pins && pin.source == r.at && pin.target == b && Held(c, b, pin.digest);
    row := Advance(r, pin);
    assert Joins(c, r, pin);
  }

  lemma SplitLast(edge: Relation, walk: seq<Node>, before: seq<Node>, last: Node)
    requires walk == before + [last] && before != [] && IsWalk(edge, walk) && Distinct(walk)
    ensures IsWalk(edge, before) && Distinct(before) && edge(before[|before| - 1], last) && last !in before
  {
    assert edge(walk[|before| - 1], walk[|before|]);
    assert forall i :: 0 <= i < |before| ==> before[i] == walk[i];
    forall i | 0 <= i < |before| - 1 ensures edge(before[i], before[i + 1]) {
      assert edge(walk[i], walk[i + 1]);
    }
  }

  /** Every walk without repetition within the depth limit has its row. */
  lemma {:induction false} WalksHaveRows(c: Catalog, entry: Node, walk: seq<Node>) returns (row: Row)
    requires Rooted(c, entry) && 1 <= |walk| <= DEPTH_LIMIT + 1
    requires IsWalk(Follows(c), walk) && Distinct(walk) && walk[0] == entry
    ensures row in Round(c, entry, |walk| - 1) && row.path == walk && row.at == walk[|walk| - 1]
  {
    if |walk| == 1 {
      row := Row(entry, c.release[entry], [entry], 0);
    } else {
      var before, last := walk[..|walk| - 1], walk[|walk| - 1];
      SplitLast(Follows(c), walk, before, last);
      var r := WalksHaveRows(c, entry, before);
      assert r.depth == |before| - 1 by {
        RoundsAreTraced(c, entry, |before| - 1, r);
      }
      row := Advances(c, entry, |before| - 1, r, last);
    }
  }

  /** A row for the resource: a rooted entry and a walk along followed pins that fits the depth. */
  lemma ClosureByWalks(c: Catalog, entry: Node, n: Node, digest: Digest)
    ensures InClosure(c, entry, n, digest) <==>
              && Rooted(c, entry) && WithinReach(Follows(c), entry, n, DEPTH_LIMIT + 1)
              && n in c.release && c.release[n] == digest
  {
    if InClosure(c, entry, n, digest) {
      var d: nat, r :| r in Round(c, entry, d) && r.at == n && r.digest == digest;
      RoundsAreTraced(c, entry, d, r);
      assert Leads(Follows(c), r.path, entry, n, DEPTH_LIMIT + 1);
    }
    if && Rooted(c, entry) && WithinReach(Follows(c), entry, n, DEPTH_LIMIT + 1)
       && n in c.release && c.release[n] == digest {
      var walk: seq<Node> :| Leads(Follows(c), walk, entry, n, DEPTH_LIMIT + 1);
      var simple := Shorten(Follows(c), walk, entry, n, DEPTH_LIMIT + 1);
      var row := WalksHaveRows(c, entry, simple);
      RoundsAreTraced(c, entry, |simple| - 1, row);
    }
  }

  /** The release holds the resource, and its stored version has the same digest. */
  predicate Genuine(c: Catalog, n: Node) {
    n in c.release && n in c.versions && c.release[n] == c.versions[n]
  }

  /** One stored pin leads from `a` to the genuine resource `b`, under its digest. */
  predicate Pinned(c: Catalog, a: Node, b: Node) {
    Genuine(c, b) && exists pin :: pin in c.pins && pin.source == a && pin.target == b && pin.digest == c.versions[b]
  }

  /** A walk along pins from a genuine entry to `n`. */
  predicate PinWalk(c: Catalog, entry: Node, n: Node, walk: seq<Node>) {
    && walk != [] && Genuine(c, entry) && walk[0] == entry && walk[|walk| - 1] == n
    && forall i :: 0 <= i < |walk| - 1 ==> Pinned(c, walk[i], walk[i + 1])
  }

  lemma FollowsPinned(c: Catalog, a: Node, b: Node)
    ensures Follows(c)(a, b) <==> Pinned(c, a, b)
  {
    if Pinned(c, a, b) {
      var pin :| pin in c.pins && pin.source == a && pin.target == b && pin.digest == c.versions[b];
      assert Held(c, b, pin.digest);
    }
  }

  lemma PinWalksLead(c: Catalog, entry: Node, n: Node, walk: seq<Node>)
    ensures PinWalk(c, entry, n, walk) <==> Rooted(c, entry) && Leads(Follows(c), walk, entry, n, |walk|)
  {
    forall a, b ensures Follows(c)(a, b) <==> Pinned(c, a, b) {
      FollowsPinned(c, a, b);
    }
  }

  /**
   The queries find exactly the resources within 100 pins of a genuine entry, each under the digest that the release
   and the stored version agree on.
   */
  lemma ClosureIsBoundedReach(c: Catalog, entry: Node, n: Node, digest: Digest)
    ensures InClosure(c, entry, n, digest) <==>
              && n in c.release && c.release[n] == digest
              && exists walk :: PinWalk(c, entry, n, walk) && |walk| - 1 <= 100
  {
    ClosureByWalks(c, entry, n, digest);
    if Rooted(c, entry) && WithinReach(Follows(c), entry, n, DEPTH_LIMIT + 1) {
      var walk: seq<Node> :| Leads(Follows(c), walk, entry, n, DEPTH_LIMIT + 1);
      PinWalksLead(c, entry, n, walk);
    }
    if walk :| PinWalk(c, entry, n, walk) && |walk| - 1 <= 100 {
      PinWalksLead(c, entry, n, walk);
      assert Leads(Follows(c), walk, entry, n, DEPTH_LIMIT + 1);
    }
  }

  lemma {:induction false} DistinctFits(s: seq<Node>, within: set<Node>)
    requires Distinct(s) && forall x :: x in s ==> x in within
    ensures |s| <= |within|
  {
    if s != [] {
      var n := |s| - 1;
      DistinctFits(s[..n], within - {s[n]});
    }
  }

  lemma PinWalkStaysInRelease(c: Catalog, entry: Node, n: Node, walk: seq<Node>)
    requires PinWalk(c, entry, n, walk)
    ensures forall x :: x in walk ==> x in c.release.Keys
  {
    forall i | 0 <= i < |walk| ensures walk[i] in c.release.Keys {
      if i > 0 {
        assert Pinned(c, walk[i - 1], walk[i]);
      }
    }
  }

  /** In a release of at most 101 resources the depth cut loses nothing, whatever cycles the pins form. */
  lemma SmallReleaseLosesNothing(c: Catalog, entry: Node, n: Node, digest: Digest)
    requires |c.release| <= 101
    ensures InClosure(c, entry, n, digest) <==>
              && n in c.release && c.release[n] == digest
              && exists walk :: PinWalk(c, entry, n, walk)
  {
    ClosureIsBoundedReach(c, entry, n, digest);
    if walk :| PinWalk(c, entry, n, walk) {
      PinWalksLead(c, entry, n, walk);
      var simple := Shorten(Follows(c), walk, entry, n, |walk|);
      PinWalksLead(c, entry, n, simple);
      PinWalkStaysInRelease(c, entry, n, simple);
      DistinctFits(simple, c.release.Keys);
      assert |c.release.Keys| == |c.release|;
    }
  }

  /** The answer of the plugin query: whether the entry belongs to the release, and whether it reaches the plugin. */
  ghost predicate BelongsToRelease(c: Catalog, entry: Node) {
    exists digest :: InClosure(c, entry, entry, digest)
  }

  lemma BelongsWhenRooted(c: Catalog, entry: Node)
    ensures BelongsToRelease(c, entry) <==> Genuine(c, entry)
  {
    if Rooted(c, entry) {
      var row := WalksHaveRows(c, entry, [entry]);
      assert InClosure(c, entry, entry, row.digest);
    } else {
      forall digest ensures !InClosure(c, entry, entry, digest) {
        ClosureByWalks(c, entry, entry, digest);
      }
    }
  }

  /** The recursion stops of itself: no round after the hundredth has a row. */
  lemma RecursionEnds(c: Catalog, entry: Node, d: nat)
    requires d > 100
    ensures Round(c, entry, d) == {}
  {
    if r :| r in Round(c, entry, d) {
      RoundsAreTraced(c, entry, d, r);
    }
  }

  // ---------------------------------------------------------------------------
  // The bound is the best possible
  // ---------------------------------------------------------------------------

  function Name(i: nat): (n: Node)
    ensures |n| == i
  {
    seq(i, _ => 'r')
  }

  /** A release of `n` resources, each pinning the next. */
  function Chain(n: nat): Catalog {
    var held := map i | 0 <= i < n :: Name(i) := "d";
    Catalog(held, held, seq(n, i requires 0 <= i < n => Pin(Name(i), Name(i + 1), "d")))
  }

  lemma {:induction false} ChainWalksCount(n: nat, walk: seq<Node>)
    requires walk != [] && IsWalk(Follows(Chain(n)), walk)
    ensures |walk[|walk| - 1]| == |walk[0]| + |walk| - 1
  {
    if |walk| > 1 {
      var before, last := walk[..|walk| - 1], walk[|walk| - 1];
      assert Follows(Chain(n))(walk[|walk| - 2], last);
      forall i | 0 <= i < |before| - 1 ensures Follows(Chain(n))(before[i], before[i + 1]) {
        assert Follows(Chain(n))(walk[i], walk[i + 1]);
      }
      ChainWalksCount(n, before);
    }
  }

  lemma ChainFollows(n: nat, i: nat)
    requires i + 1 < n
    ensures Follows(Chain(n))(Name(i), Name(i + 1))
  {
    var c := Chain(n);
    var pin := c.pins[i];
    assert pin in c.pins;
    assert Held(c, Name(i + 1), pin.digest);
  }

  lemma ChainIsWalked(n: nat) returns (walk: seq<Node>)
    requires n > 0
    ensures PinWalk(Chain(n), Name(0), Name(n - 1), walk)
  {
    walk := seq(n, i requires 0 <= i < n => Name(i));
    forall i | 0 <= i < n - 1 ensures Follows(Chain(n))(walk[i], walk[i + 1]) {
      ChainFollows(n, i);
    }
    PinWalksLead(Chain(n), Name(0), Name(n - 1), walk);
  }

  lemma ChainIsCut(n: nat, digest: Digest)
    requires n > DEPTH_LIMIT + 1
    ensures !InClosure(Chain(n), Name(0), Name(n - 1), digest)
  {
    ClosureByWalks(Chain(n), Name(0), Name(n - 1), digest);
    if WithinReach(Follows(Chain(n)), Name(0), Name(n - 1), DEPTH_LIMIT + 1) {
      var short: seq<Node> :| Leads(Follows(Chain(n)), short, Name(0), Name(n - 1), DEPTH_LIMIT + 1);
      ChainWalksCount(n, short);
    }
  }

  /** With 102 resources the last of a chain is reached by pins but not by the queries. */
  lemma DepthCutLosesLonger() returns (c: Catalog, entry: Node, last: Node)
    ensures |c.release| == 102 && exists walk :: PinWalk(c, entry, last, walk)
    ensures forall digest :: !InClosure(c, entry, last, digest)
  {
    var n: nat := DEPTH_LIMIT + 2;
    c, entry, last := Chain(n), Name(0), Name(n - 1);
    ChainSize(n);
    var walk := ChainIsWalked(n);
    forall digest ensures !InClosure(c, entry, last, digest) {
      ChainIsCut(n, digest);
    }
  }

  lemma {:induction false} ChainSize(n: nat)
    ensures |Chain(n).release| == n
  {
    if n > 0 {
      ChainSize(n - 1);
      assert Chain(n).release.Keys == Chain(n - 1).release.Keys + {Name(n - 1)};
      assert Name(n - 1) !in Chain(n - 1).release.Keys;
      assert |Chain(n - 1).release.Keys| == |Chain(n - 1).release|;
      assert |Chain(n).release.Keys| == |Chain(n).release|;
    }
  }

  /** Whatever the closure reaches belongs to the release with its entry, under its stored digest. */
  lemma ClosureHoldsDigests(c: Catalog, entry: Node, plugin: Node, digest: Digest)
    requires InClosure(c, entry, plugin, digest)
    ensures BelongsToRelease(c, entry) && Genuine(c, plugin) && digest == c.versions[plugin]
  {
    BelongsWhenRooted(c, entry);
    var d: nat, r :| r in Round(c, entry, d) && r.at == plugin && r.digest == digest;
    RoundsAreTraced(c, entry, d, r);
  }
}
