/** Small shared vocabulary: optional values, results, and sums over sequences. */
module Prelude {

  datatype Option<+T> = None | Some(value: T)

  datatype Result<+T, +E> = Success(value: T) | Failure(error: E)

  function Min(a: int, b: int): (m: int)
    ensures m <= a && m <= b && (m == a || m == b)
  {
    if a <= b then a else b
  }

  function Max(a: int, b: int): (m: int)
    ensures m >= a && m >= b && (m == a || m == b)
  {
    if a >= b then a else b
  }

  /** No element occurs twice. */
  predicate Distinct<T(==)>(s: seq<T>) {
    forall i, j :: 0 <= i < j < |s| ==> s[i] != s[j]
  }

  /** The sum of `f` over the rows of a table. */
  function Sum<T>(rows: seq<T>, f: T -> int): int {
    if rows == [] then 0 else Sum(rows[..|rows| - 1], f) + f(rows[|rows| - 1])
  }

  lemma SumAppend<T>(rows: seq<T>, row: T, f: T -> int)
    ensures Sum(rows + [row], f) == Sum(rows, f) + f(row)
  {
    assert (rows + [row])[..|rows|] == rows;
  }

  lemma {:induction false} SumUpdate<T>(rows: seq<T>, i: nat, row: T, f: T -> int)
    requires i < |rows|
    ensures Sum(rows[i := row], f) == Sum(rows, f) - f(rows[i]) + f(row)
  {
    var n := |rows| - 1;
    if i == n {
      assert rows[i := row][..n] == rows[..n];
    } else {
      SumUpdate(rows[..n], i, row, f);
      assert rows[i := row][..n] == rows[..n][i := row];
    }
  }

  /** Two tables whose rows weigh the same have the same sum. */
  lemma {:induction false} SumPointwise<T>(rows: seq<T>, others: seq<T>, f: T -> int)
    requires |rows| == |others|
    requires forall i :: 0 <= i < |rows| ==> f(rows[i]) == f(others[i])
    ensures Sum(rows, f) == Sum(others, f)
  {
    if rows != [] {
      var n := |rows| - 1;
      assert forall i :: 0 <= i < n ==> rows[..n][i] == rows[i] && others[..n][i] == others[i];
      SumPointwise(rows[..n], others[..n], f);
    }
  }

  lemma {:induction false} SumZero<T>(rows: seq<T>, f: T -> int)
    requires forall i :: 0 <= i < |rows| ==> f(rows[i]) == 0
    ensures Sum(rows, f) == 0
  {
    if rows != [] {
      var n := |rows| - 1;
      assert forall i :: 0 <= i < n ==> rows[..n][i] == rows[i];
      SumZero(rows[..n], f);
    }
  }

  /** A row weighs no more than a whole table of non-negative weights. */
  lemma {:induction false} SumCovers<T>(rows: seq<T>, i: nat, f: T -> int)
    requires i < |rows|
    requires forall j :: 0 <= j < |rows| ==> f(rows[j]) >= 0
    ensures Sum(rows, f) >= f(rows[i])
    ensures Sum(rows, f) >= 0
  {
    var n := |rows| - 1;
    assert forall j :: 0 <= j < n ==> rows[..n][j] == rows[j];
    if i < n {
      SumCovers(rows[..n], i, f);
    } else if n > 0 {
      SumCovers(rows[..n], 0, f);
    }
  }

  /** Weights of zero and one, with at most one row weighing one. */
  lemma {:induction false} SumAtMostOne<T>(rows: seq<T>, f: T -> int)
    requires forall i :: 0 <= i < |rows| ==> 0 <= f(rows[i]) <= 1
    requires forall i, j :: 0 <= i < j < |rows| ==> f(rows[i]) == 0 || f(rows[j]) == 0
    ensures 0 <= Sum(rows, f) <= 1
  {
    if rows != [] {
      var n := |rows| - 1;
      assert forall i :: 0 <= i < n ==> rows[..n][i] == rows[i];
      if f(rows[n]) == 1 {
        SumZero(rows[..n], f);
      } else {
        SumAtMostOne(rows[..n], f);
      }
    }
  }
}
