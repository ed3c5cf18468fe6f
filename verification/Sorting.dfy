/** Stable sorting by a total preorder, and when its result is the only one. */
module Sorting {

  ghost predicate TotalPreorder<T(!new)>(leq: (T, T) -> bool) {
    && (forall x, y :: leq(x, y) || leq(y, x))
    && (forall x, y, z :: leq(x, y) && leq(y, z) ==> leq(x, z))
  }

  predicate SortedBy<T>(s: seq<T>, leq: (T, T) -> bool) {
    forall i, j :: 0 <= i < j < |s| ==> leq(s[i], s[j])
  }

  function Insert<T>(x: T, s: seq<T>, leq: (T, T) -> bool): seq<T> {
    if s == [] then [x]
    else if leq(x, s[0]) then [x] + s
    else [s[0]] + Insert(x, s[1..], leq)
  }

  function SortBy<T>(s: seq<T>, leq: (T, T) -> bool): seq<T> {
    if s == [] then [] else Insert(s[0], SortBy(s[1..], leq), leq)
  }

  lemma {:induction false} InsertPermutes<T>(x: T, s: seq<T>, leq: (T, T) -> bool)
    ensures multiset(Insert(x, s, leq)) == multiset(s) + multiset{x}
  {
    if s == [] {
    } else if leq(x, s[0]) {
      assert multiset([x] + s) == multiset{x} + multiset(s);
    } else {
      InsertPermutes(x, s[1..], leq);
      assert s == [s[0]] + s[1..];
    }
  }

  lemma {:induction false} SortPermutes<T>(s: seq<T>, leq: (T, T) -> bool)
    ensures multiset(SortBy(s, leq)) == multiset(s)
  {
    if s != [] {
      SortPermutes(s[1..], leq);
      InsertPermutes(s[0], SortBy(s[1..], leq), leq);
      assert s == [s[0]] + s[1..];
    }
  }

  lemma SortedTail<T>(s: seq<T>, leq: (T, T) -> bool)
    requires s != [] && SortedBy(s, leq)
    ensures SortedBy(s[1..], leq)
  {
  }

  /** Putting a lower bound in front keeps a sequence sorted. */
  lemma PrependSorted<T>(x: T, s: seq<T>, leq: (T, T) -> bool)
    requires SortedBy(s, leq) && forall y :: y in multiset(s) ==> leq(x, y)
    ensures SortedBy([x] + s, leq)
  {
    forall i, j | 0 <= i < j < |[x] + s| ensures leq(([x] + s)[i], ([x] + s)[j]) {
      if i == 0 {
        assert ([x] + s)[j] in multiset(s);
      }
    }
  }

  lemma HeadIsLeast<T(!new)>(x: T, s: seq<T>, leq: (T, T) -> bool)
    requires TotalPreorder(leq) && s != [] && SortedBy(s, leq) && leq(x, s[0])
    ensures forall y :: y in multiset(s) ==> leq(x, y)
  {
    forall y | y in multiset(s) ensures leq(x, y) {
      var j :| 0 <= j < |s| && s[j] == y;
      assert leq(s[0], s[j]) || j == 0;
    }
  }

  lemma {:induction false} InsertIsSorted<T(!new)>(x: T, s: seq<T>, leq: (T, T) -> bool)
    requires TotalPreorder(leq) && SortedBy(s, leq)
    ensures SortedBy(Insert(x, s, leq), leq)
  {
    if s == [] {
    } else if leq(x, s[0]) {
      HeadIsLeast(x, s, leq);
      PrependSorted(x, s, leq);
    } else {
      SortedTail(s, leq);
      InsertIsSorted(x, s[1..], leq);
      InsertPermutes(x, s[1..], leq);
      assert leq(s[0], x);
      forall y | y in multiset(Insert(x, s[1..], leq)) ensures leq(s[0], y) {
        if y in multiset(s[1..]) {
          var j :| 0 <= j < |s[1..]| && s[1..][j] == y;
          assert s[j + 1] == y;
        }
      }
      PrependSorted(s[0], Insert(x, s[1..], leq), leq);
    }
  }

  /** The result is sorted and a permutation of the input. */
  lemma {:induction false} SortIsSorted<T(!new)>(s: seq<T>, leq: (T, T) -> bool)
    requires TotalPreorder(leq)
    ensures SortedBy(SortBy(s, leq), leq)
    ensures multiset(SortBy(s, leq)) == multiset(s)
  {
    if s != [] {
      SortIsSorted(s[1..], leq);
      InsertIsSorted(s[0], SortBy(s[1..], leq), leq);
    }
    SortPermutes(s, leq);
  }

  /** Where no two different elements tie, the first element of a sorted arrangement is determined. */
  lemma SameHead<T(!new)>(a: seq<T>, b: seq<T>, leq: (T, T) -> bool)
    requires a != [] && b != [] && SortedBy(a, leq) && SortedBy(b, leq) && multiset(a) == multiset(b)
    requires forall x, y :: x in multiset(a) && y in multiset(a) && leq(x, y) && leq(y, x) ==> x == y
    ensures a[0] == b[0]
  {
    assert a[0] in multiset(b) && b[0] in multiset(a);
    var i :| 0 <= i < |b| && b[i] == a[0];
    var j :| 0 <= j < |a| && a[j] == b[0];
    if i > 0 && j > 0 {
      assert leq(b[0], b[i]) && leq(a[0], a[j]);
    }
  }

  lemma TailMultiset<T>(a: seq<T>)
    requires a != []
    ensures multiset(a[1..]) == multiset(a) - multiset{a[0]}
  {
    assert a == [a[0]] + a[1..];
  }

  lemma HeadAndTail<T>(a: seq<T>, b: seq<T>)
    requires a != [] && b != [] && a[0] == b[0] && a[1..] == b[1..]
    ensures a == b
  {
    assert a == [a[0]] + a[1..] && b == [b[0]] + b[1..];
  }

  /** Where no two different elements tie, there is only one sorted arrangement. */
  lemma {:induction false} SortedIsUnique<T(!new)>(a: seq<T>, b: seq<T>, leq: (T, T) -> bool)
    requires SortedBy(a, leq) && SortedBy(b, leq) && multiset(a) == multiset(b)
    requires forall x, y :: x in multiset(a) && y in multiset(a) && leq(x, y) && leq(y, x) ==> x == y
    ensures a == b
  {
    assert |a| == |b| by {
      assert |multiset(a)| == |a| && |multiset(b)| == |b|;
    }
    if a != [] {
      assert a[0] == b[0] by { SameHead(a, b, leq); }
      var a', b' := a[1..], b[1..];
      assert SortedBy(a', leq) by { SortedTail(a, leq); }
      assert SortedBy(b', leq) by { SortedTail(b, leq); }
      assert multiset(a') == multiset(b') && multiset(a') <= multiset(a) by {
        TailMultiset(a);
        TailMultiset(b);
      }
      SortedIsUnique(a', b', leq);
      HeadAndTail(a, b);
    }
  }

  // ---------------------------------------------------------------------------
  // Stability
  // ---------------------------------------------------------------------------

  function Filter<T>(s: seq<T>, p: T -> bool): seq<T> {
    if s == [] then [] else (if p(s[0]) then [s[0]] else []) + Filter(s[1..], p)
  }

  function TiesWith<T>(x: T, leq: (T, T) -> bool): T -> bool {
    y => leq(x, y) && leq(y, x)
  }

  /** Among elements that tie with `x`, each may stand before any other. */
  lemma TiesCarry<T(!new)>(y: T, x: T, z: T, leq: (T, T) -> bool)
    requires TotalPreorder(leq)
    ensures TiesWith(x, leq)(y) && TiesWith(x, leq)(z) ==> leq(y, z)
  {
  }

  lemma {:induction false} InsertKeepsTies<T>(y: T, s: seq<T>, p: T -> bool, leq: (T, T) -> bool)
    requires p(y) ==> forall k :: 0 <= k < |s| && p(s[k]) ==> leq(y, s[k])
    ensures Filter(Insert(y, s, leq), p) == (if p(y) then [y] else []) + Filter(s, p)
  {
    if s == [] {
    } else if leq(y, s[0]) {
      assert ([y] + s)[1..] == s;
    } else {
      var rest := Insert(y, s[1..], leq);
      InsertKeepsTies(y, s[1..], p, leq);
      assert ([s[0]] + rest)[1..] == rest;
    }
  }

  /** Elements that tie keep their order. */
  lemma {:induction false} SortIsStable<T(!new)>(s: seq<T>, x: T, leq: (T, T) -> bool)
    requires TotalPreorder(leq)
    ensures Filter(SortBy(s, leq), TiesWith(x, leq)) == Filter(s, TiesWith(x, leq))
  {
    if s != [] {
      SortIsStable(s[1..], x, leq);
      var rest := SortBy(s[1..], leq);
      forall k | 0 <= k < |rest| && TiesWith(x, leq)(s[0]) && TiesWith(x, leq)(rest[k]) ensures leq(s[0], rest[k]) {
        TiesCarry(s[0], x, rest[k], leq);
      }
      InsertKeepsTies(s[0], rest, TiesWith(x, leq), leq);
    }
  }

  lemma {:induction false} FilterHead<T>(s: seq<T>, p: T -> bool, i: nat) returns (first: nat)
    requires i < |s| && p(s[i])
    ensures first <= i && Filter(s, p) != [] && Filter(s, p)[0] == s[first]
  {
    if p(s[0]) {
      first := 0;
    } else {
      var f := FilterHead(s[1..], p, i - 1);
      first := f + 1;
    }
  }

  // ---------------------------------------------------------------------------
  // Repetition
  // ---------------------------------------------------------------------------

  lemma OccursTwice<T>(s: seq<T>, i: nat, j: nat)
    requires i < j < |s| && s[i] == s[j]
    ensures multiset(s)[s[i]] >= 2
  {
    assert s == s[..j] + s[j..];
    assert s[i] in multiset(s[..j]) && s[j] in multiset(s[j..]);
  }

  lemma OccursAtTwo<T>(s: seq<T>, x: T) returns (i: nat, j: nat)
    requires multiset(s)[x] >= 2
    ensures i < j < |s| && s[i] == s[j] == x
  {
    assert x in multiset(s);
    i :| 0 <= i < |s| && s[i] == x;
    assert s == s[..i] + [x] + s[i + 1..];
    if x in multiset(s[i + 1..]) {
      var d :| 0 <= d < |s[i + 1..]| && s[i + 1..][d] == x;
      j := i + 1 + d;
    } else {
      assert x in multiset(s[..i]);
      j := i;
      i :| 0 <= i < j && s[..j][i] == x;
    }
  }
}
