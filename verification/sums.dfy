// Sums of a weight over a sequence, used to count the threads at given program points.
module Sums {
  function Sum<T>(xs: seq<T>, w: T -> nat): nat {
    if xs == [] then 0 else w(xs[0]) + Sum(xs[1..], w)
  }

  lemma {:induction false} SumUpdate<T>(xs: seq<T>, w: T -> nat, i: nat, x: T)
    requires i < |xs|
    ensures Sum(xs[i := x], w) + w(xs[i]) == Sum(xs, w) + w(x)
  {
    if i == 0 {
      assert xs[0 := x][1..] == xs[1..];
    } else {
      SumUpdate(xs[1..], w, i - 1, x);
      assert xs[i := x][1..] == xs[1..][i - 1 := x];
    }
  }

  lemma {:induction false} SumSame<T>(xs: seq<T>, ys: seq<T>, w: T -> nat)
    requires |xs| == |ys| && forall i :: 0 <= i < |xs| ==> w(xs[i]) == w(ys[i])
    ensures Sum(xs, w) == Sum(ys, w)
  {
    if xs != [] {
      SumSame(xs[1..], ys[1..], w);
    }
  }

  lemma {:induction false} SumAppend<T>(xs: seq<T>, w: T -> nat, x: T)
    ensures Sum(xs + [x], w) == Sum(xs, w) + w(x)
  {
    if xs != [] {
      SumAppend(xs[1..], w, x);
      assert (xs + [x])[1..] == xs[1..] + [x];
    }
  }

  lemma {:induction false} SumPositive<T>(xs: seq<T>, w: T -> nat) returns (i: nat)
    requires Sum(xs, w) > 0
    ensures i < |xs| && w(xs[i]) > 0
  {
    if w(xs[0]) > 0 {
      i := 0;
    } else {
      i := SumPositive(xs[1..], w);
      i := i + 1;
    }
  }

  lemma {:induction false} SumZero<T>(xs: seq<T>, w: T -> nat)
    ensures Sum(xs, w) == 0 <==> forall i :: 0 <= i < |xs| ==> w(xs[i]) == 0
  {
    if xs != [] {
      SumZero(xs[1..], w);
      assert forall i :: 1 <= i < |xs| ==> xs[i] == xs[1..][i - 1];
    }
  }

  lemma {:induction false} SumOnly<T>(xs: seq<T>, w: T -> nat, i: nat)
    requires i < |xs| && forall j :: 0 <= j < |xs| && j != i ==> w(xs[j]) == 0
    ensures Sum(xs, w) == w(xs[i])
  {
    assert forall j :: 1 <= j < |xs| ==> xs[j] == xs[1..][j - 1];
    if i == 0 {
      SumZero(xs[1..], w);
    } else {
      SumOnly(xs[1..], w, i - 1);
    }
  }

  lemma {:induction false} SumOnes<T>(xs: seq<T>, w: T -> nat)
    requires forall i :: 0 <= i < |xs| ==> w(xs[i]) <= 1
    ensures Sum(xs, w) <= |xs|
    ensures Sum(xs, w) == |xs| <==> forall i :: 0 <= i < |xs| ==> w(xs[i]) == 1
  {
    if xs != [] {
      SumOnes(xs[1..], w);
      assert forall i :: 1 <= i < |xs| ==> xs[i] == xs[1..][i - 1];
    }
  }

  // ---------------------------------------------------------------- over the values of a map

  ghost function MapSum<K, T>(m: map<K, T>, w: T -> nat): nat {
    if m == map[] then 0
    else
      var k :| k in m;
      w(m[k]) + MapSum(m - {k}, w)
  }

  lemma {:induction false} MapSumRemove<K, T>(m: map<K, T>, w: T -> nat, k: K)
    requires k in m
    ensures MapSum(m, w) == w(m[k]) + MapSum(m - {k}, w)
    decreases |m|
  {
    var j :| j in m && MapSum(m, w) == w(m[j]) + MapSum(m - {j}, w);
    if j != k {
      MapSumRemove(m - {j}, w, k);
      MapSumRemove(m - {k}, w, j);
      assert m - {j} - {k} == m - {k} - {j};
    }
  }

  lemma MapSumUpdate<K, T>(m: map<K, T>, w: T -> nat, k: K, x: T)
    ensures MapSum(m[k := x], w) + (if k in m then w(m[k]) else 0) == MapSum(m, w) + w(x)
  {
    MapSumRemove(m[k := x], w, k);
    if k in m {
      MapSumRemove(m, w, k);
      assert m[k := x] - {k} == m - {k};
    } else {
      assert m[k := x] - {k} == m;
    }
  }
}
