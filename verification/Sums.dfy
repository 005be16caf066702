/** Totals over the rows of the transaction table. */
module Sums {
  import opened Transactions

  function Sum(rows: seq<Tx>, w: Tx -> real): real {
    if rows == [] then 0.0 else Sum(rows[..|rows| - 1], w) + w(rows[|rows| - 1])
  }

  lemma SumAppend(rows: seq<Tx>, t: Tx, w: Tx -> real)
    ensures Sum(rows + [t], w) == Sum(rows, w) + w(t)
  {
    assert (rows + [t])[..|rows|] == rows;
  }

  lemma {:induction false} SumSame(rows: seq<Tx>, rows': seq<Tx>, w: Tx -> real, w': Tx -> real)
    requires |rows| == |rows'|
    requires forall k :: 0 <= k < |rows| ==> w(rows[k]) == w'(rows'[k])
    ensures Sum(rows, w) == Sum(rows', w')
  {
    if rows != [] {
      SumSame(rows[..|rows| - 1], rows'[..|rows| - 1], w, w');
    }
  }

  lemma {:induction false} SumDiffersAt(rows: seq<Tx>, rows': seq<Tx>, w: Tx -> real, w': Tx -> real, i: nat)
    requires |rows| == |rows'| && i < |rows|
    requires forall k :: 0 <= k < |rows| && k != i ==> w(rows[k]) == w'(rows'[k])
    ensures Sum(rows', w') == Sum(rows, w) - w(rows[i]) + w'(rows'[i])
  {
    var n := |rows| - 1;
    if i == n {
      SumSame(rows[..n], rows'[..n], w, w');
    } else {
      SumDiffersAt(rows[..n], rows'[..n], w, w', i);
    }
  }

  lemma {:induction false} SumAtMost(rows: seq<Tx>, w: Tx -> real, u: Tx -> real, v: Tx -> real)
    requires forall k :: 0 <= k < |rows| ==> w(rows[k]) <= u(rows[k]) + v(rows[k])
    ensures Sum(rows, w) <= Sum(rows, u) + Sum(rows, v)
    ensures (forall k :: 0 <= k < |rows| ==> w(rows[k]) == u(rows[k]) + v(rows[k]))
            ==> Sum(rows, w) == Sum(rows, u) + Sum(rows, v)
  {
    if rows != [] {
      SumAtMost(rows[..|rows| - 1], w, u, v);
    }
  }

  lemma {:induction false} SumMonotone(rows: seq<Tx>, rows': seq<Tx>, w: Tx -> real, w': Tx -> real)
    requires |rows| == |rows'|
    requires forall k :: 0 <= k < |rows| ==> w(rows[k]) <= w'(rows'[k])
    ensures Sum(rows, w) <= Sum(rows', w')
  {
    if rows != [] {
      SumMonotone(rows[..|rows| - 1], rows'[..|rows| - 1], w, w');
    }
  }
}
