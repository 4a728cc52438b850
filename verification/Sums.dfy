/** Finite sums over the rows of a table, and how one write changes them. */
module Sums {

  function Sum<T>(rows: seq<T>, f: T -> int): int
  {
    if rows == [] then 0 else Sum(rows[..|rows| - 1], f) + f(rows[|rows| - 1])
  }

  /** Inserting a row adds its value. */
  lemma SumAppend<T>(rows: seq<T>, row: T, f: T -> int)
    ensures Sum(rows + [row], f) == Sum(rows, f) + f(row)
  {
    assert (rows + [row])[..|rows|] == rows;
  }

  /** Two inserts at once. */
  lemma SumAppendTwo<T>(rows: seq<T>, a: T, b: T, f: T -> int)
    ensures Sum(rows + [a, b], f) == Sum(rows, f) + f(a) + f(b)
  {
    SumAppend(rows, a, f);
    SumAppend(rows + [a], b, f);
    assert rows + [a] + [b] == rows + [a, b];
  }

  /** Updating one row replaces its value. */
  lemma {:induction false} SumUpdate<T>(rows: seq<T>, i: nat, row: T, f: T -> int)
    requires i < |rows|
    ensures Sum(rows[i := row], f) == Sum(rows, f) - f(rows[i]) + f(row)
  {
    var last := |rows| - 1;
    if i == last {
      assert rows[i := row][..last] == rows[..last];
    } else {
      assert rows[i := row][..last] == rows[..last][i := row];
      SumUpdate(rows[..last], i, row, f);
    }
  }

  /** Tables whose rows have pairwise equal values have equal sums. */
  lemma {:induction false} SumPointwise<T, U>(rows: seq<T>, f: T -> int, others: seq<U>, g: U -> int)
    requires |rows| == |others|
    requires forall i :: 0 <= i < |rows| ==> f(rows[i]) == g(others[i])
    ensures Sum(rows, f) == Sum(others, g)
  {
    if rows != [] {
      SumPointwise(rows[..|rows| - 1], f, others[..|rows| - 1], g);
    }
  }

  lemma {:induction false} SumOfZeros<T>(rows: seq<T>, f: T -> int)
    requires forall row :: row in rows ==> f(row) == 0
    ensures Sum(rows, f) == 0
  {
    if rows != [] {
      SumOfZeros(rows[..|rows| - 1], f);
    }
  }

  /** Rows of value zero may be appended freely. */
  lemma {:induction false} SumIgnoresZeros<T>(rows: seq<T>, more: seq<T>, f: T -> int)
    requires rows <= more
    requires forall i :: |rows| <= i < |more| ==> f(more[i]) == 0
    ensures Sum(more, f) == Sum(rows, f)
  {
    if |more| > |rows| {
      SumIgnoresZeros(rows, more[..|more| - 1], f);
    } else {
      assert more == rows;
    }
  }

  /** A constant factor moves out of the sum. */
  lemma {:induction false} SumScaled<T>(rows: seq<T>, f: T -> int, g: T -> int, k: int)
    requires forall row :: row in rows ==> f(row) == k * g(row)
    ensures Sum(rows, f) == k * Sum(rows, g)
  {
    if rows != [] {
      SumScaled(rows[..|rows| - 1], f, g, k);
    }
  }

  /** The sum of a column that is the sum of two columns. */
  lemma {:induction false} SumOfTwo<T>(rows: seq<T>, f: T -> int, g: T -> int, h: T -> int)
    requires forall row :: row in rows ==> h(row) == f(row) + g(row)
    ensures Sum(rows, h) == Sum(rows, f) + Sum(rows, g)
  {
    if rows != [] {
      SumOfTwo(rows[..|rows| - 1], f, g, h);
    }
  }

  /** No row exceeds the sum of a non-negative column. */
  lemma {:induction false} SumBoundsRow<T>(rows: seq<T>, f: T -> int, i: nat)
    requires i < |rows|
    requires forall row :: row in rows ==> f(row) >= 0
    ensures 0 <= f(rows[i]) <= Sum(rows, f)
  {
    var last := |rows| - 1;
    SumNonNegative(rows[..last], f);
    if i < last {
      SumBoundsRow(rows[..last], f, i);
    }
  }

  lemma {:induction false} SumNonNegative<T>(rows: seq<T>, f: T -> int)
    requires forall row :: row in rows ==> f(row) >= 0
    ensures Sum(rows, f) >= 0
  {
    if rows != [] {
      SumNonNegative(rows[..|rows| - 1], f);
    }
  }
}
