/** Queries over a table held as a sequence of rows in insertion order. */
module Tables {

  datatype Option<+T> = None | Some(value: T)

  /** The largest integer a column holds. */
  const I64_MAX: nat := 0x7FFF_FFFF_FFFF_FFFF

  /** SELECT COALESCE(SUM(weight), 0) */
  function SumBy<T>(rows: seq<T>, weight: T -> nat): (total: nat)
  {
    if |rows| == 0 then 0
    else SumBy(rows[..|rows| - 1], weight) + weight(rows[|rows| - 1])
  }

  /** SELECT COALESCE(MAX(weight), 0) */
  function MaxBy<T>(rows: seq<T>, weight: T -> nat): (top: nat)
    ensures forall i :: 0 <= i < |rows| ==> weight(rows[i]) <= top
    ensures top == 0 || exists i :: 0 <= i < |rows| && weight(rows[i]) == top
  {
    if |rows| == 0 then 0
    else
      var rest := MaxBy(rows[..|rows| - 1], weight);
      var last := weight(rows[|rows| - 1]);
      if last > rest then last else rest
  }

  /** The first row satisfying `wanted`, or |rows| when there is none. */
  function FirstIndex<T>(rows: seq<T>, wanted: T -> bool): (i: nat)
    ensures i <= |rows|
    ensures i < |rows| ==> wanted(rows[i])
    ensures forall j :: 0 <= j < i ==> !wanted(rows[j])
  {
    if |rows| == 0 then 0
    else if wanted(rows[0]) then 0
    else
      var i := FirstIndex(rows[1..], wanted);
      assert forall j :: 0 < j < i + 1 ==> rows[j] == rows[1..][j - 1];
      i + 1
  }

  lemma {:induction false} SumAfterUpdate<T>(rows: seq<T>, weight: T -> nat, i: nat, row: T)
    requires i < |rows|
    ensures SumBy(rows[i := row], weight) + weight(rows[i]) == SumBy(rows, weight) + weight(row)
  {
    var last := |rows| - 1;
    if i == last {
      assert rows[i := row][..last] == rows[..last];
    } else {
      assert rows[i := row][..last] == rows[..last][i := row];
      SumAfterUpdate(rows[..last], weight, i, row);
    }
  }

  lemma SumAfterInsert<T>(rows: seq<T>, weight: T -> nat, row: T)
    ensures SumBy(rows + [row], weight) == SumBy(rows, weight) + weight(row)
  {
  }

  lemma MaxAfterInsert<T>(rows: seq<T>, weight: T -> nat, row: T)
    ensures MaxBy(rows + [row], weight) ==
              if weight(row) > MaxBy(rows, weight) then weight(row) else MaxBy(rows, weight)
  {
  }

  lemma {:induction false} SumIsAtLeast<T>(rows: seq<T>, weight: T -> nat, i: nat)
    requires i < |rows|
    ensures weight(rows[i]) <= SumBy(rows, weight)
  {
    if i < |rows| - 1 {
      SumIsAtLeast(rows[..|rows| - 1], weight, i);
    }
  }

  lemma {:induction false} SumIsPositive<T>(rows: seq<T>, weight: T -> nat) returns (i: nat)
    requires SumBy(rows, weight) > 0
    ensures i < |rows| && weight(rows[i]) > 0
  {
    i := |rows| - 1;
    if weight(rows[i]) == 0 {
      i := SumIsPositive(rows[..i], weight);
    }
  }

  /** A weight that is nowhere above another sums to less, by at least the gap at any one row. */
  lemma {:induction false} SumIsBelow<T>(rows: seq<T>, low: T -> nat, high: T -> nat, i: nat)
    requires i < |rows| && forall k :: 0 <= k < |rows| ==> low(rows[k]) <= high(rows[k])
    ensures SumBy(rows, low) + high(rows[i]) <= SumBy(rows, high) + low(rows[i])
  {
    var last := |rows| - 1;
    if i < last {
      SumIsBelow(rows[..last], low, high, i);
    } else if last > 0 {
      SumIsBelow(rows[..last], low, high, 0);
    }
  }

  lemma {:induction false} SumsAgree<T>(a: seq<T>, b: seq<T>, weight: T -> nat)
    requires |a| == |b| && forall k :: 0 <= k < |a| ==> weight(a[k]) == weight(b[k])
    ensures SumBy(a, weight) == SumBy(b, weight)
  {
    if |a| > 0 {
      SumsAgree(a[..|a| - 1], b[..|b| - 1], weight);
    }
  }

  /** A bound on every row bounds the maximum. */
  lemma MaxIsAtMost<T>(rows: seq<T>, weight: T -> nat, bound: nat)
    requires forall i :: 0 <= i < |rows| ==> weight(rows[i]) <= bound
    ensures MaxBy(rows, weight) <= bound
  {
  }
}
