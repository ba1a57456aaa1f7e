/** Decision matrices and the list arithmetic the calculators use on them:
    column extraction, `maxOrNull`/`minOrNull`, `sum` and `average`. */
module Matrices {

  /** Rows are alternatives, columns are criteria. */
  type Matrix = seq<seq<real>>

  /** Every row has the length of the first one. */
  predicate Rectangular(m: Matrix) {
    forall i :: 0 <= i < |m| ==> |m[i]| == |m[0]|
  }

  /** The number of columns of a rectangular matrix (0 when it has no rows). */
  function Width(m: Matrix): nat {
    if |m| == 0 then 0 else |m[0]|
  }

  /** Two matrices have the same number of rows and equally long rows. */
  predicate SameShape(a: Matrix, b: Matrix) {
    |a| == |b| && forall i :: 0 <= i < |a| ==> |a[i]| == |b[i]|
  }

  /** Column `j`, top to bottom. */
  function Column(m: Matrix, j: nat): (c: seq<real>)
    requires forall i :: 0 <= i < |m| ==> j < |m[i]|
    ensures |c| == |m|
    ensures forall i :: 0 <= i < |m| ==> c[i] == m[i][j]
  {
    seq(|m|, i requires 0 <= i < |m| => m[i][j])
  }

  /** The largest element of a non-empty list. */
  function Max(s: seq<real>): (r: real)
    requires |s| > 0
    ensures r in s
    ensures forall x :: x in s ==> x <= r
  {
    if |s| == 1 then s[0]
    else
      var t := Max(s[1..]);
      assert s == [s[0]] + s[1..];
      if s[0] >= t then s[0] else t
  }

  /** The smallest element of a non-empty list. */
  function Min(s: seq<real>): (r: real)
    requires |s| > 0
    ensures r in s
    ensures forall x :: x in s ==> r <= x
  {
    if |s| == 1 then s[0]
    else
      var t := Min(s[1..]);
      assert s == [s[0]] + s[1..];
      if s[0] <= t then s[0] else t
  }

  /** The sum of a list, 0 when it is empty. */
  function Sum(s: seq<real>): real {
    if |s| == 0 then 0.0 else s[0] + Sum(s[1..])
  }

  /** The arithmetic mean of a list, with the calculators' fallback of 0 for
      an empty list. */
  function Mean(s: seq<real>): (r: real)
    ensures |s| == 0 ==> r == 0.0
    ensures |s| > 0 ==> r * (|s| as real) == Sum(s)
  {
    if |s| == 0 then 0.0
    else
      DivideBack(Sum(s), |s| as real);
      Sum(s) / (|s| as real)
  }

  /** The mean of a non-empty list lies between its minimum and maximum. */
  lemma MeanBetweenMinAndMax(s: seq<real>)
    requires |s| > 0
    ensures Min(s) <= Mean(s) <= Max(s)
  {
    MeanWithin(s, Min(s), Max(s));
  }

  /** Dividing by a positive number and multiplying back is the identity. */
  lemma DivideBack(x: real, n: real)
    requires n > 0.0
    ensures (x / n) * n == x
  {
  }

  /** A non-empty list whose elements lie in [lo, hi] has its sum over its
      length in [lo, hi] too. */
  lemma MeanWithin(s: seq<real>, lo: real, hi: real)
    requires |s| > 0
    requires forall x :: x in s ==> lo <= x <= hi
    ensures lo <= Sum(s) / (|s| as real) <= hi
  {
    SumBetween(s, lo, hi);
    DivisionBounds(Sum(s), |s| as real, lo, hi);
  }

  /** A non-empty list of positive numbers has a positive sum. */
  lemma {:induction false} PositiveSum(s: seq<real>)
    ensures |s| > 0 && (forall i :: 0 <= i < |s| ==> s[i] > 0.0) ==> Sum(s) > 0.0
    decreases |s|
  {
    if |s| > 1 {
      PositiveSum(s[1..]);
    }
  }

  /** Every element multiplied by `k`. */
  function ScaleAll(s: seq<real>, k: real): seq<real> {
    seq(|s|, i requires 0 <= i < |s| => s[i] * k)
  }

  /** Sum distributes over a constant factor. */
  lemma {:induction false} SumScale(s: seq<real>, k: real)
    ensures Sum(ScaleAll(s, k)) == k * Sum(s)
    decreases |s|
  {
    if |s| > 0 {
      var a, b := ScaleAll(s, k)[1..], ScaleAll(s[1..], k);
      assert |a| == |b|;
      assert forall i :: 0 <= i < |a| ==> a[i] == b[i];
      assert a == b;
      SumScale(s[1..], k);
    }
  }

  /** A list whose elements lie in [lo, hi] sums to between `|s|` copies
      of `lo` and of `hi`. */
  lemma {:induction false} SumBetween(s: seq<real>, lo: real, hi: real)
    requires forall x :: x in s ==> lo <= x <= hi
    ensures (|s| as real) * lo <= Sum(s) <= (|s| as real) * hi
    decreases |s|
  {
    if |s| > 0 {
      assert s[0] in s;
      assert forall x :: x in s[1..] ==> x in s;
      SumBetween(s[1..], lo, hi);
      var n := (|s| - 1) as real;
      assert (|s| as real) * lo == n * lo + lo;
      assert (|s| as real) * hi == n * hi + hi;
    }
  }

  /** A total divided by a positive count stays within the per-element
      bounds. */
  lemma DivisionBounds(x: real, n: real, lo: real, hi: real)
    requires n > 0.0 && n * lo <= x <= n * hi
    ensures lo <= x / n <= hi
  {
    var q := x / n;
    assert x == q * n;
    assert (q - lo) * n >= 0.0;
    assert (hi - q) * n >= 0.0;
  }

  lemma FractionOfWeight(a: real, w: real)
    requires 0.0 <= a <= 1.0 && w >= 0.0
    ensures 0.0 <= a * w <= w
  {
    assert (1.0 - a) * w >= 0.0;
  }

  /** Entry-wise product of a row with the leading weights. */
  function Products(a: seq<real>, w: seq<real>): (p: seq<real>)
    requires |a| <= |w|
    ensures |p| == |a|
  {
    seq(|a|, j requires 0 <= j < |a| => a[j] * w[j])
  }

  /** When every term lies in [0, 1] and every weight is non-negative, the
      weighted sum lies between 0 and the sum of the weights used. */
  lemma {:induction false} WeightedSumBounds(a: seq<real>, w: seq<real>)
    requires |a| <= |w|
    requires forall j :: 0 <= j < |a| ==> 0.0 <= a[j] <= 1.0
    requires forall j :: 0 <= j < |w| ==> w[j] >= 0.0
    ensures 0.0 <= Sum(Products(a, w)) <= Sum(w[..|a|])
    decreases |a|
  {
    if |a| > 0 {
      var head := a[0] * w[0];
      FractionOfWeight(a[0], w[0]);
      assert 0.0 <= head <= w[0];
      var p, p' := Products(a, w)[1..], Products(a[1..], w[1..]);
      assert |p| == |p'|;
      assert forall j :: 0 <= j < |p'| ==> p[j] == p'[j];
      assert p == p';
      WeightedSumBounds(a[1..], w[1..]);
      assert Sum(Products(a, w)) == head + Sum(p);
      assert w[..|a|][1..] == w[1..][..|a| - 1];
      assert Sum(w[..|a|]) == w[0] + Sum(w[1..][..|a| - 1]);
    } else {
      assert Sum(Products(a, w)) == 0.0;
    }
  }
}
