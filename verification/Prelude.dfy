/** Result types and the sums over table rows that the money invariants are stated with. */
module Prelude {

  datatype Option<+T> = None | Some(value: T)

  datatype Result<+T, +E> = Ok(value: T) | Err(error: E)

  /** The sum of `f` over the rows of a table. */
  function Sum<T>(rows: seq<T>, f: T -> int): int
  {
    if rows == [] then 0 else Sum(rows[..|rows| - 1], f) + f(rows[|rows| - 1])
  }

  lemma SumAppend<T>(rows: seq<T>, row: T, f: T -> int)
    ensures Sum(rows + [row], f) == Sum(rows, f) + f(row)
  {
  }

  lemma {:induction false} SumConcat<T>(a: seq<T>, b: seq<T>, f: T -> int)
    ensures Sum(a + b, f) == Sum(a, f) + Sum(b, f)
  {
    if b == [] {
      assert a + b == a;
    } else {
      var front, last := b[..|b| - 1], b[|b| - 1];
      assert a + b == (a + front) + [last];
      SumConcat(a, front, f);
      SumAppend(a + front, last, f);
    }
  }

  lemma {:induction false} SumUpdate<T>(rows: seq<T>, i: nat, row: T, f: T -> int)
    requires i < |rows|
    ensures Sum(rows[i := row], f) == Sum(rows, f) - f(rows[i]) + f(row)
  {
    var n := |rows| - 1;
    if i == n {
      assert rows[i := row][..n] == rows[..n];
    } else {
      assert rows[i := row][..n] == rows[..n][i := row];
      SumUpdate(rows[..n], i, row, f);
    }
  }

  lemma {:induction false} SumCongruence<T, U>(a: seq<T>, b: seq<U>, f: T -> int, g: U -> int)
    requires |a| == |b|
    requires forall i :: 0 <= i < |a| ==> f(a[i]) == g(b[i])
    ensures Sum(a, f) == Sum(b, g)
  {
    if a != [] {
      SumCongruence(a[..|a| - 1], b[..|b| - 1], f, g);
    }
  }

  lemma {:induction false} SumBounds<T>(rows: seq<T>, f: T -> int)
    requires forall i :: 0 <= i < |rows| ==> f(rows[i]) >= 0
    ensures Sum(rows, f) >= 0
    ensures forall i :: 0 <= i < |rows| ==> f(rows[i]) <= Sum(rows, f)
  {
    if rows != [] {
      SumBounds(rows[..|rows| - 1], f);
    }
  }

  lemma SumPrefix<T>(rows: seq<T>, k: nat, f: T -> int)
    requires 0 < k <= |rows| && forall i :: 0 <= i < |rows| ==> f(rows[i]) >= 0
    ensures Sum(rows[..k], f) == Sum(rows[..k - 1], f) + f(rows[k - 1]) <= Sum(rows, f)
  {
    hide Sum;
    assert rows[..k] == rows[..k - 1] + [rows[k - 1]] && rows == rows[..k] + rows[k..];
    SumAppend(rows[..k - 1], rows[k - 1], f);
    SumConcat(rows[..k], rows[k..], f);
    SumBounds(rows[k..], f);
  }

  function Min(a: int, b: int): int { if a < b then a else b }

  function Max(a: int, b: int): int { if a < b then b else a }
}
