/** Adding up a measure over the rows of a table. */
module Sums {
  function SumOf<T>(rows: seq<T>, f: T -> int): int {
    if rows == [] then 0 else SumOf(rows[..|rows| - 1], f) + f(rows[|rows| - 1])
  }

  lemma {:induction false} SumOfAppend<T>(rows: seq<T>, row: T, f: T -> int)
    ensures SumOf(rows + [row], f) == SumOf(rows, f) + f(row)
  {
    assert (rows + [row])[..|rows|] == rows;
  }

  lemma {:induction false} SumOfUpdate<T>(rows: seq<T>, i: nat, row: T, f: T -> int)
    requires i < |rows|
    ensures SumOf(rows[i := row], f) == SumOf(rows, f) - f(rows[i]) + f(row)
    decreases |rows|
  {
    var last := |rows| - 1;
    if i < last {
      assert rows[i := row][..last] == rows[..last][i := row];
      SumOfUpdate(rows[..last], i, row, f);
    } else {
      assert rows[i := row][..last] == rows[..last];
    }
  }

  lemma {:induction false} SumOfRemove<T>(rows: seq<T>, i: nat, f: T -> int)
    requires i < |rows|
    ensures SumOf(rows, f) == SumOf(rows[..i] + rows[i + 1..], f) + f(rows[i])
    decreases |rows|
  {
    var last := |rows| - 1;
    if i < last {
      SumOfRemove(rows[..last], i, f);
      assert (rows[..i] + rows[i + 1..])[..last - 1] == rows[..last][..i] + rows[..last][i + 1..];
    } else {
      assert rows[..i] + rows[i + 1..] == rows[..last];
    }
  }

  lemma {:induction false} WithoutOne<T>(rows: seq<T>, i: nat)
    requires i < |rows|
    ensures multiset(rows[..i] + rows[i + 1..]) == multiset(rows) - multiset{rows[i]}
  {
    assert rows == rows[..i] + [rows[i]] + rows[i + 1..];
  }

  /** The sum does not depend on the order of the rows. */
  lemma {:induction false} SumOfPermuted<T>(rows: seq<T>, others: seq<T>, f: T -> int)
    requires multiset(rows) == multiset(others)
    ensures SumOf(rows, f) == SumOf(others, f)
    decreases |rows|
  {
    if rows == [] {
      assert |multiset(others)| == 0;
    } else {
      var last := |rows| - 1;
      assert rows[last] in multiset(others);
      var i :| 0 <= i < |others| && others[i] == rows[last];
      var rest := others[..i] + others[i + 1..];
      WithoutOne(rows, last);
      WithoutOne(others, i);
      assert rows[..last] + rows[last + 1..] == rows[..last];
      SumOfPermuted(rows[..last], rest, f);
      SumOfRemove(others, i, f);
    }
  }

  /** Terms that are never negative and one that is positive make a positive sum. */
  lemma {:induction false} SumOfPositive<T>(rows: seq<T>, f: T -> int, i: nat)
    requires i < |rows| && forall k | 0 <= k < |rows| :: 0 <= f(rows[k])
    ensures f(rows[i]) <= SumOf(rows, f)
    decreases |rows|
  {
    var last := |rows| - 1;
    if i < last {
      SumOfPositive(rows[..last], f, i);
    } else if 0 < last {
      SumOfPositive(rows[..last], f, 0);
    }
  }
}
