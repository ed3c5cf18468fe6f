/**
 Canonical JSON texts: the members of every object are written in the order of their keys. The order
 is the host's comparison of strings, under which different keys may tie.
 */
module CanonicalJson {
  import opened Prelude
  import opened Sorting
  import opened Json

  type KeyOrder = (string, string) -> bool

  function ByKey(leq: KeyOrder): (Member, Member) -> bool {
    (a: Member, b: Member) => leq(a.key, b.key)
  }

  /** The value with the members of every object sorted by key. */
  function Canonicalize(leq: KeyOrder, v: Value): Value
    decreases v, 0
  {
    match v
    case Array(items) => Array(CanonicalItems(leq, items))
    case Object(members) => Object(SortBy(CanonicalMembers(leq, members), ByKey(leq)))
    case _ => v
  }

  function CanonicalItems(leq: KeyOrder, items: seq<Value>): (r: seq<Value>)
    ensures |r| == |items| && forall i :: 0 <= i < |items| ==> r[i] == Canonicalize(leq, items[i])
    decreases items, 1
  {
    if items == [] then [] else [Canonicalize(leq, items[0])] + CanonicalItems(leq, items[1..])
  }

  function CanonicalMembers(leq: KeyOrder, members: seq<Member>): (r: seq<Member>)
    ensures |r| == |members|
    ensures forall i :: 0 <= i < |members| ==> r[i] == Member(members[i].key, Canonicalize(leq, members[i].value))
    decreases members, 1
  {
    if members == [] then []
    else [Member(members[0].key, Canonicalize(leq, members[0].value))] + CanonicalMembers(leq, members[1..])
  }

  function CanonicalText(h: Numerals, leq: KeyOrder, v: Value): string {
    Write(h, Canonicalize(leq, v))
  }

  // ---------------------------------------------------------------------------
  // Equality up to member order
  // ---------------------------------------------------------------------------

  /** The values differ at most in the order of the members of objects, at any depth. */
  predicate Same(v: Value, w: Value)
    decreases v
  {
    match v
    case Array(items) =>
      && w.Array? && |items| == |w.items|
      && forall i :: 0 <= i < |items| ==> Same(items[i], w.items[i])
    case Object(members) =>
      && w.Object? && |members| == |w.members|
      && forall i :: 0 <= i < |members| ==> HasSame(members[i], w.members)
    case _ => v == w
  }

  /** Some member has the same key and the same value. */
  predicate HasSame(m: Member, others: seq<Member>)
    decreases m
  {
    exists j :: 0 <= j < |others| && others[j].key == m.key && Same(m.value, others[j].value)
  }

  /** No two different keys of an object tie in the host's order. */
  predicate TieFree(leq: KeyOrder, v: Value) {
    match v
    case Array(items) => forall i :: 0 <= i < |items| ==> TieFree(leq, items[i])
    case Object(members) =>
      && (forall i, j :: 0 <= i < |members| && 0 <= j < |members|
                         && leq(members[i].key, members[j].key) && leq(members[j].key, members[i].key) ==>
            members[i].key == members[j].key)
      && forall i :: 0 <= i < |members| ==> TieFree(leq, members[i].value)
    case _ => true
  }

  // ---------------------------------------------------------------------------
  // Texts tell values apart
  // ---------------------------------------------------------------------------

  lemma ByKeyIsTotal(leq: KeyOrder)
    requires TotalPreorder(leq)
    ensures TotalPreorder(ByKey(leq))
  {
    var order := ByKey(leq);
    forall x, y ensures order(x, y) || order(y, x) {
      assert leq(x.key, y.key) || leq(y.key, x.key);
    }
    forall x, y, z | order(x, y) && order(y, z) ensures order(x, z) {
      assert leq(x.key, y.key) && leq(y.key, z.key);
    }
  }

  lemma SortMembers(leq: KeyOrder, members: seq<Member>)
    requires TotalPreorder(leq)
    ensures SortedBy(SortBy(members, ByKey(leq)), ByKey(leq))
    ensures multiset(SortBy(members, ByKey(leq))) == multiset(members)
  {
    ByKeyIsTotal(leq);
    SortIsSorted(members, ByKey(leq));
  }

  lemma {:induction false} CanonicalIsNormalized(leq: KeyOrder, v: Value)
    requires TotalPreorder(leq) && Normalized(v)
    ensures Normalized(Canonicalize(leq, v))
  {
    match v
    case Array(items) =>
      forall i | 0 <= i < |items| ensures Normalized(Canonicalize(leq, items[i])) {
        CanonicalIsNormalized(leq, items[i]);
      }
    case Object(members) =>
      var all := CanonicalMembers(leq, members);
      forall i | 0 <= i < |all| ensures Normalized(all[i].value) {
        CanonicalIsNormalized(leq, members[i].value);
      }
      SortMembers(leq, all);
      SameElements(all, SortBy(all, ByKey(leq)));
      forall m | m in SortBy(all, ByKey(leq)) ensures Normalized(m.value) {
        assert m in all;
      }
    case _ =>
  }

  lemma SameElements<T>(a: seq<T>, b: seq<T>)
    requires multiset(a) == multiset(b)
    ensures |a| == |b| && forall x :: x in a <==> x in b
  {
    assert |multiset(a)| == |multiset(b)|;
    forall x ensures x in a <==> x in b {
      assert x in a <==> x in multiset(a);
    }
  }

  lemma SameSizes(leq: KeyOrder, members: seq<Member>, others: seq<Member>)
    requires TotalPreorder(leq) && Canonicalize(leq, Object(members)) == Canonicalize(leq, Object(others))
    ensures |members| == |others|
    ensures multiset(CanonicalMembers(leq, members)) == multiset(CanonicalMembers(leq, others))
  {
    SortMembers(leq, CanonicalMembers(leq, members));
    SortMembers(leq, CanonicalMembers(leq, others));
    SameElements(CanonicalMembers(leq, members), CanonicalMembers(leq, others));
  }

  /** The member of the other object that became the same canonical member. */
  lemma Counterpart(leq: KeyOrder, members: seq<Member>, others: seq<Member>, i: nat) returns (j: nat)
    requires i < |members|
    requires multiset(CanonicalMembers(leq, members)) == multiset(CanonicalMembers(leq, others))
    ensures j < |others| && others[j].key == members[i].key
    ensures Canonicalize(leq, others[j].value) == Canonicalize(leq, members[i].value)
  {
    var all, rest := CanonicalMembers(leq, members), CanonicalMembers(leq, others);
    assert all[i] in multiset(rest);
    j :| 0 <= j < |rest| && rest[j] == all[i];
  }

  /** Values with the same canonical form are the same up to member order. */
  lemma {:induction false} CanonicalTellsApart(leq: KeyOrder, v: Value, w: Value)
    requires TotalPreorder(leq) && Canonicalize(leq, v) == Canonicalize(leq, w)
    ensures Same(v, w)
  {
    match v
    case Array(items) =>
      forall i | 0 <= i < |items| ensures Same(items[i], w.items[i]) {
        assert CanonicalItems(leq, items)[i] == CanonicalItems(leq, w.items)[i];
        CanonicalTellsApart(leq, items[i], w.items[i]);
      }
    case Object(members) =>
      SameSizes(leq, members, w.members);
      forall i | 0 <= i < |members| ensures HasSame(members[i], w.members) {
        var j := Counterpart(leq, members, w.members, i);
        CanonicalTellsApart(leq, members[i].value, w.members[j].value);
      }
    case _ =>
  }

  /** Different values never share a canonical text. */
  lemma TextTellsApart(h: Numerals, leq: KeyOrder, v: Value, w: Value)
    requires Faithful(h) && TotalPreorder(leq) && Normalized(v) && Normalized(w)
    requires CanonicalText(h, leq, v) == CanonicalText(h, leq, w)
    ensures Same(v, w)
  {
    CanonicalIsNormalized(leq, v);
    CanonicalIsNormalized(leq, w);
    WriteIsInjective(h, Canonicalize(leq, v), Canonicalize(leq, w));
    CanonicalTellsApart(leq, v, w);
  }

  // ---------------------------------------------------------------------------
  // Member order does not show
  // ---------------------------------------------------------------------------

  lemma {:induction false} OccursOnce<T>(s: seq<T>, x: T)
    requires Distinct(s)
    ensures multiset(s)[x] == if x in s then 1 else 0
  {
    if s != [] {
      var n := |s| - 1;
      assert forall i :: 0 <= i < n ==> s[..n][i] == s[i];
      OccursOnce(s[..n], x);
      assert s == s[..n] + [s[n]];
    }
  }

  /** Of two sequences without repetition and of the same length, one containing the other is a permutation of it. */
  lemma Permutes<T(!new)>(a: seq<T>, b: seq<T>)
    requires Distinct(a) && Distinct(b) && |a| == |b| && forall x :: x in a ==> x in b
    ensures multiset(a) == multiset(b)
  {
    forall x ensures multiset(a)[x] <= multiset(b)[x] {
      OccursOnce(a, x);
      OccursOnce(b, x);
    }
    assert multiset(a) <= multiset(b);
    assert multiset(b) == multiset(a) + (multiset(b) - multiset(a));
    assert |multiset(b) - multiset(a)| == 0;
  }

  lemma CanonicalMembersDistinct(leq: KeyOrder, members: seq<Member>)
    requires forall i, j :: 0 <= i < j < |members| ==> members[i].key != members[j].key
    ensures Distinct(CanonicalMembers(leq, members))
  {
  }

  /** Where no keys tie, objects with the same canonical members have the same canonical form. */
  lemma SortsAlike(leq: KeyOrder, members: seq<Member>, others: seq<Member>)
    requires TotalPreorder(leq) && TieFree(leq, Object(members))
    requires DistinctKeys(Object(members)) && DistinctKeys(Object(others)) && |members| == |others|
    requires forall m :: m in CanonicalMembers(leq, members) ==> m in CanonicalMembers(leq, others)
    ensures Canonicalize(leq, Object(members)) == Canonicalize(leq, Object(others))
  {
    var all, rest := CanonicalMembers(leq, members), CanonicalMembers(leq, others);
    CanonicalMembersDistinct(leq, members);
    CanonicalMembersDistinct(leq, others);
    Permutes(all, rest);
    SortMembers(leq, all);
    SortMembers(leq, rest);
    TiesAreEqual(leq, members);
    SortedIsUnique(SortBy(all, ByKey(leq)), SortBy(rest, ByKey(leq)), ByKey(leq));
  }

  lemma TyingMember(leq: KeyOrder, members: seq<Member>, i: nat, j: nat)
    requires TieFree(leq, Object(members)) && DistinctKeys(Object(members)) && i < |members| && j < |members|
    requires leq(members[i].key, members[j].key) && leq(members[j].key, members[i].key)
    ensures i == j
  {
  }

  lemma TiesAreEqual(leq: KeyOrder, members: seq<Member>)
    requires TieFree(leq, Object(members)) && DistinctKeys(Object(members))
    ensures var all := multiset(CanonicalMembers(leq, members));
            forall x, y :: x in all && y in all && ByKey(leq)(x, y) && ByKey(leq)(y, x) ==> x == y
  {
    var all := CanonicalMembers(leq, members);
    forall x: Member, y: Member | x in multiset(all) && y in multiset(all) && ByKey(leq)(x, y) && ByKey(leq)(y, x)
      ensures x == y
    {
      var i :| 0 <= i < |all| && all[i] == x;
      var j :| 0 <= j < |all| && all[j] == y;
      TyingMember(leq, members, i, j);
    }
  }

  /** Without ties, values that are the same up to member order have the same canonical form. */
  lemma {:induction false} OrderDoesNotShow(leq: KeyOrder, v: Value, w: Value)
    requires TotalPreorder(leq) && TieFree(leq, v) && DistinctKeys(v) && DistinctKeys(w) && Same(v, w)
    ensures Canonicalize(leq, v) == Canonicalize(leq, w)
  {
    match v
    case Array(items) =>
      forall i | 0 <= i < |items| ensures Canonicalize(leq, items[i]) == Canonicalize(leq, w.items[i]) {
        OrderDoesNotShow(leq, items[i], w.items[i]);
      }
      assert CanonicalItems(leq, items) == CanonicalItems(leq, w.items);
    case Object(members) =>
      forall i | 0 <= i < |members| ensures CanonicalMembers(leq, members)[i] in CanonicalMembers(leq, w.members) {
        assert HasSame(members[i], w.members);
        var j :| 0 <= j < |w.members| && w.members[j].key == members[i].key
                 && Same(members[i].value, w.members[j].value);
        OrderDoesNotShow(leq, members[i].value, w.members[j].value);
        assert CanonicalMembers(leq, w.members)[j] == CanonicalMembers(leq, members)[i];
      }
      SortsAlike(leq, members, w.members);
    case _ =>
  }

  /** Canonical texts are a normal form: equal exactly for values that are equal up to member order. */
  lemma CanonicalTextIsNormalForm(h: Numerals, leq: KeyOrder, v: Value, w: Value)
    requires Faithful(h) && TotalPreorder(leq) && Normalized(v) && Normalized(w)
    requires TieFree(leq, v) && DistinctKeys(v) && DistinctKeys(w)
    ensures CanonicalText(h, leq, v) == CanonicalText(h, leq, w) <==> Same(v, w)
  {
    if Same(v, w) {
      OrderDoesNotShow(leq, v, w);
    }
    if CanonicalText(h, leq, v) == CanonicalText(h, leq, w) {
      TextTellsApart(h, leq, v, w);
    }
  }

  // ---------------------------------------------------------------------------
  // With a tie, member order shows
  // ---------------------------------------------------------------------------

  lemma {:induction false} SameAsItself(v: Value)
    ensures Same(v, v)
  {
    match v
    case Array(items) =>
      forall i | 0 <= i < |items| ensures Same(items[i], items[i]) {
        SameAsItself(items[i]);
      }
    case Object(members) =>
      forall i | 0 <= i < |members| ensures HasSame(members[i], members) {
        SameAsItself(members[i].value);
      }
    case _ =>
  }

  function ToFront<T>(s: seq<T>, j: nat): (r: seq<T>)
    requires j < |s|
    ensures |r| == |s| && r[0] == s[j]
    ensures forall i :: 0 <= i < j ==> r[i + 1] == s[i]
    ensures forall i :: j < i < |s| ==> r[i] == s[i]
  {
    [s[j]] + s[..j] + s[j + 1..]
  }

  function Origin(j: nat, k: nat): nat {
    if k == 0 then j else if k <= j then k - 1 else k
  }

  predicate Unordered(v: Value, w: Value) {
    DistinctKeys(w) && (Normalized(v) ==> Normalized(w)) && Same(v, w)
  }

  lemma ToFrontOrigin<T>(s: seq<T>, j: nat, k: nat)
    requires j < |s| && k < |s|
    ensures Origin(j, k) < |s| && ToFront(s, j)[k] == s[Origin(j, k)]
  {
  }

  lemma ToFrontMember<T>(s: seq<T>, j: nat, i: nat) returns (k: nat)
    requires j < |s| && i < |s|
    ensures k < |s| && ToFront(s, j)[k] == s[i]
  {
    k := if i == j then 0 else if i < j then i + 1 else i;
  }

  lemma ToFrontDistinct(members: seq<Member>, j: nat)
    requires j < |members| && DistinctKeys(Object(members))
    ensures DistinctKeys(Object(ToFront(members, j)))
  {
    var moved := ToFront(members, j);
    forall a, b | 0 <= a < b < |moved| ensures moved[a].key != moved[b].key {
      ToFrontOrigin(members, j, a);
      ToFrontOrigin(members, j, b);
    }
    forall a | 0 <= a < |moved| ensures DistinctKeys(moved[a].value) {
      ToFrontOrigin(members, j, a);
    }
  }

  lemma ToFrontNormalized(members: seq<Member>, j: nat)
    requires j < |members| && Normalized(Object(members))
    ensures Normalized(Object(ToFront(members, j)))
  {
    forall a | 0 <= a < |members| ensures Normalized(ToFront(members, j)[a].value) {
      ToFrontOrigin(members, j, a);
    }
  }

  lemma ToFrontIsSame(members: seq<Member>, j: nat)
    requires j < |members| && DistinctKeys(Object(members))
    ensures Unordered(Object(members), Object(ToFront(members, j)))
  {
    ToFrontDistinct(members, j);
    if Normalized(Object(members)) {
      ToFrontNormalized(members, j);
    }
    var moved := ToFront(members, j);
    forall i | 0 <= i < |members| ensures HasSame(members[i], moved) {
      SameAsItself(members[i].value);
      var k := ToFrontMember(members, j, i);
    }
  }

  /** Moving the later of two tying members to the front changes the canonical form. */
  lemma TieShows(leq: KeyOrder, members: seq<Member>, i: nat, j: nat)
    requires TotalPreorder(leq) && DistinctKeys(Object(members)) && i < j < |members|
    requires leq(members[i].key, members[j].key) && leq(members[j].key, members[i].key)
    ensures Canonicalize(leq, Object(members)) != Canonicalize(leq, Object(ToFront(members, j)))
  {
    var all, moved := CanonicalMembers(leq, members), CanonicalMembers(leq, ToFront(members, j));
    var ties := TiesWith(all[j], ByKey(leq));
    assert leq(members[j].key, members[j].key);
    ByKeyIsTotal(leq);
    SortIsStable(all, all[j], ByKey(leq));
    SortIsStable(moved, all[j], ByKey(leq));
    var first := FilterHead(all, ties, i);
    var other := FilterHead(moved, ties, 0);
    assert all[first].key != all[j].key;
  }

  lemma ReplaceIsSame(v: Value, i: nat, w: Value)
    requires v.Array? && i < |v.items| && DistinctKeys(v) && Unordered(v.items[i], w)
    ensures Unordered(v, Array(v.items[i := w]))
  {
    forall k | 0 <= k < |v.items| ensures Same(v.items[k], v.items[i := w][k]) {
      SameAsItself(v.items[k]);
    }
  }

  lemma ReplaceMemberIsSame(members: seq<Member>, i: nat, w: Value)
    requires i < |members| && DistinctKeys(Object(members)) && Unordered(members[i].value, w)
    ensures Unordered(Object(members), Object(members[i := Member(members[i].key, w)]))
  {
    var others := members[i := Member(members[i].key, w)];
    forall k | 0 <= k < |members|
      ensures HasSame(members[k], others)
    {
      SameAsItself(members[k].value);
      assert others[k].key == members[k].key;
    }
  }

  lemma MemberShows(leq: KeyOrder, members: seq<Member>, i: nat, w: Value)
    requires TotalPreorder(leq) && i < |members| && DistinctKeys(Object(members))
    requires Canonicalize(leq, members[i].value) != Canonicalize(leq, w)
    ensures Canonicalize(leq, Object(members)) != Canonicalize(leq, Object(members[i := Member(members[i].key, w)]))
  {
    var others := members[i := Member(members[i].key, w)];
    if Canonicalize(leq, Object(members)) == Canonicalize(leq, Object(others)) {
      SameSizes(leq, members, others);
      var j := Counterpart(leq, members, others, i);
      assert false;
    }
  }

  /** A value with a tie has a reordering with another canonical form. */
  lemma {:induction false} OrderShows(leq: KeyOrder, v: Value) returns (w: Value)
    requires TotalPreorder(leq) && DistinctKeys(v) && !TieFree(leq, v)
    ensures Unordered(v, w) && Canonicalize(leq, v) != Canonicalize(leq, w)
  {
    match v
    case Array(items) =>
      var i :| 0 <= i < |items| && !TieFree(leq, items[i]);
      var x := OrderShows(leq, items[i]);
      ReplaceIsSame(v, i, x);
      w := Array(items[i := x]);
      assert CanonicalItems(leq, items)[i] != CanonicalItems(leq, items[i := x])[i];
    case Object(members) =>
      if i :| 0 <= i < |members| && !TieFree(leq, members[i].value) {
        var x := OrderShows(leq, members[i].value);
        ReplaceMemberIsSame(members, i, x);
        MemberShows(leq, members, i, x);
        w := Object(members[i := Member(members[i].key, x)]);
      } else {
        var i, j := TyingMembers(leq, members);
        ToFrontIsSame(members, j);
        TieShows(leq, members, i, j);
        w := Object(ToFront(members, j));
      }
  }

  lemma TyingMembers(leq: KeyOrder, members: seq<Member>) returns (i: nat, j: nat)
    requires !TieFree(leq, Object(members)) && forall k :: 0 <= k < |members| ==> TieFree(leq, members[k].value)
    ensures i < j < |members|
    ensures leq(members[i].key, members[j].key) && leq(members[j].key, members[i].key)
  {
    var a, b :| 0 <= a < |members| && 0 <= b < |members| && members[a].key != members[b].key
                && leq(members[a].key, members[b].key) && leq(members[b].key, members[a].key);
    i, j := if a < b then a else b, if a < b then b else a;
  }

  /** The canonical text is independent of member order exactly for the values without ties. */
  lemma OrderIndependentWithoutTies(h: Numerals, leq: KeyOrder, v: Value)
    requires Faithful(h) && TotalPreorder(leq) && Normalized(v) && DistinctKeys(v)
    ensures TieFree(leq, v) <==> forall w :: Unordered(v, w) ==> CanonicalText(h, leq, w) == CanonicalText(h, leq, v)
  {
    if TieFree(leq, v) {
      forall w | Unordered(v, w) ensures CanonicalText(h, leq, w) == CanonicalText(h, leq, v) {
        OrderDoesNotShow(leq, v, w);
      }
    } else {
      var w := OrderShows(leq, v);
      if CanonicalText(h, leq, w) == CanonicalText(h, leq, v) {
        CanonicalIsNormalized(leq, v);
        CanonicalIsNormalized(leq, w);
        WriteIsInjective(h, Canonicalize(leq, v), Canonicalize(leq, w));
      }
    }
  }

  // ---------------------------------------------------------------------------
  // Writing in one pass
  // ---------------------------------------------------------------------------

  /** The printer that sorts the members of each object as it meets them and writes at once. */
  function OnePassText(h: Numerals, leq: KeyOrder, v: Value): string
    decreases v, 0
  {
    match v
    case Array(items) => "[" + OnePassItems(h, leq, items) + "]"
    case Object(members) =>
      SortedMembersAreWithin(leq, members);
      "{" + OnePassMembers(h, leq, SortBy(members, ByKey(leq)), v) + "}"
    case _ => Write(h, v)
  }

  function OnePassItems(h: Numerals, leq: KeyOrder, items: seq<Value>): string
    decreases items, 1
  {
    if items == [] then ""
    else if |items| == 1 then OnePassText(h, leq, items[0])
    else OnePassText(h, leq, items[0]) + "," + OnePassItems(h, leq, items[1..])
  }

  /** `whole` is the object whose sorted members are being written. */
  function OnePassMembers(h: Numerals, leq: KeyOrder, members: seq<Member>, ghost whole: Value): string
    requires Within(members, whole)
    decreases whole, 0, |members|
  {
    if members == [] then ""
    else
      var first := WriteString(members[0].key) + ":" + OnePassText(h, leq, members[0].value);
      if |members| == 1 then first else first + "," + OnePassMembers(h, leq, members[1..], whole)
  }

  ghost predicate Within(members: seq<Member>, whole: Value) {
    forall m :: m in members ==> m.value < whole
  }

  lemma SortedMembersAreWithin(leq: KeyOrder, members: seq<Member>)
    ensures Within(SortBy(members, ByKey(leq)), Object(members))
  {
    var sorted := SortBy(members, ByKey(leq));
    SortPermutes(members, ByKey(leq));
    SameElements(sorted, members);
    forall m | m in sorted ensures m.value < Object(members) {
      var i :| 0 <= i < |members| && members[i] == m;
    }
  }

  /** Sorting by key and making members canonical can be exchanged. */
  lemma {:induction false} InsertCommutes(leq: KeyOrder, m: Member, members: seq<Member>)
    ensures CanonicalMembers(leq, Insert(m, members, ByKey(leq))) ==
            Insert(Member(m.key, Canonicalize(leq, m.value)), CanonicalMembers(leq, members), ByKey(leq))
  {
    var c := Member(m.key, Canonicalize(leq, m.value));
    var all := CanonicalMembers(leq, members);
    if members == [] {
    } else if leq(m.key, members[0].key) {
      assert CanonicalMembers(leq, [m] + members) == [c] + all;
    } else {
      InsertCommutes(leq, m, members[1..]);
      var rest := Insert(m, members[1..], ByKey(leq));
      assert ([members[0]] + rest)[1..] == rest;
      assert all[1..] == CanonicalMembers(leq, members[1..]);
    }
  }

  lemma {:induction false} SortCommutes(leq: KeyOrder, members: seq<Member>)
    ensures CanonicalMembers(leq, SortBy(members, ByKey(leq))) == SortBy(CanonicalMembers(leq, members), ByKey(leq))
  {
    if members != [] {
      SortCommutes(leq, members[1..]);
      InsertCommutes(leq, members[0], SortBy(members[1..], ByKey(leq)));
    }
  }

  /** Writing in one pass gives the text of the canonical form. */
  lemma {:induction false} OnePassIsCanonical(h: Numerals, leq: KeyOrder, v: Value)
    ensures OnePassText(h, leq, v) == CanonicalText(h, leq, v)
    decreases v, 0
  {
    match v
    case Array(items) => OnePassItemsAreCanonical(h, leq, items);
    case Object(members) =>
      SortedMembersAreWithin(leq, members);
      OnePassMembersAreCanonical(h, leq, SortBy(members, ByKey(leq)), v);
      SortCommutes(leq, members);
    case _ =>
  }

  lemma {:induction false} OnePassItemsAreCanonical(h: Numerals, leq: KeyOrder, items: seq<Value>)
    ensures OnePassItems(h, leq, items) == WriteItems(h, CanonicalItems(leq, items))
    decreases items, 1
  {
    if items != [] {
      OnePassIsCanonical(h, leq, items[0]);
      OnePassItemsAreCanonical(h, leq, items[1..]);
      assert CanonicalItems(leq, items)[1..] == CanonicalItems(leq, items[1..]);
    }
  }

  lemma {:induction false} OnePassMembersAreCanonical(h: Numerals, leq: KeyOrder, members: seq<Member>, whole: Value)
    requires Within(members, whole)
    ensures OnePassMembers(h, leq, members, whole) == WriteMembers(h, CanonicalMembers(leq, members))
    decreases whole, 0, |members|
  {
    if members != [] {
      OnePassIsCanonical(h, leq, members[0].value);
      OnePassMembersAreCanonical(h, leq, members[1..], whole);
      assert CanonicalMembers(leq, members)[1..] == CanonicalMembers(leq, members[1..]);
    }
  }
}
