/**
 * Element-wise statistics over stacked probability vectors, as `np.mean(axis=0)`,
 * `np.var(axis=0)` (population variance) and `np.argmax` compute them, on exact reals.
 */
module Stats {
  function Sum(xs: seq<real>): real
  {
    if xs == [] then 0.0 else Sum(xs[..|xs| - 1]) + xs[|xs| - 1]
  }

  /** Every row has width `w`. */
  predicate Rectangular(rows: seq<seq<real>>, w: nat)
  {
    forall i :: 0 <= i < |rows| ==> |rows[i]| == w
  }

  function Column(rows: seq<seq<real>>, w: nat, j: nat): (c: seq<real>)
    requires Rectangular(rows, w) && j < w
    ensures |c| == |rows|
    ensures forall i :: 0 <= i < |rows| ==> c[i] == rows[i][j]
  {
    seq(|rows|, i requires 0 <= i < |rows| => rows[i][j])
  }

  /** Mean over the rows, column by column. */
  function Mean(rows: seq<seq<real>>, w: nat): (m: seq<real>)
    requires |rows| > 0 && Rectangular(rows, w)
    ensures |m| == w
  {
    seq(w, j requires 0 <= j < w => Sum(Column(rows, w, j)) / |rows| as real)
  }

  function SquaredDeviations(xs: seq<real>, c: real): (r: seq<real>)
    ensures |r| == |xs|
  {
    seq(|xs|, i requires 0 <= i < |xs| => (xs[i] - c) * (xs[i] - c))
  }

  /** Population variance over the rows, column by column. */
  function Variance(rows: seq<seq<real>>, w: nat): (v: seq<real>)
    requires |rows| > 0 && Rectangular(rows, w)
    ensures |v| == w
  {
    var m := Mean(rows, w);
    seq(w, j requires 0 <= j < w => Sum(SquaredDeviations(Column(rows, w, j), m[j])) / |rows| as real)
  }

  /** A sum of terms in [lo, hi] lies between n*lo and n*hi. */
  lemma {:induction false} SumBounds(xs: seq<real>, lo: real, hi: real)
    requires forall i :: 0 <= i < |xs| ==> lo <= xs[i] <= hi
    ensures |xs| as real * lo <= Sum(xs) <= |xs| as real * hi
  {
    if xs != [] {
      SumBounds(xs[..|xs| - 1], lo, hi);
    }
  }

  lemma {:induction false} SumConstant(xs: seq<real>, c: real)
    requires forall i :: 0 <= i < |xs| ==> xs[i] == c
    ensures Sum(xs) == |xs| as real * c
  {
    if xs != [] {
      SumConstant(xs[..|xs| - 1], c);
    }
  }

  /** Averaging probabilities gives probabilities. */
  lemma MeanWithinBounds(rows: seq<seq<real>>, w: nat, lo: real, hi: real)
    requires |rows| > 0 && Rectangular(rows, w)
    requires forall i, j :: 0 <= i < |rows| && 0 <= j < w ==> lo <= rows[i][j] <= hi
    ensures forall j :: 0 <= j < w ==> lo <= Mean(rows, w)[j] <= hi
  {
    forall j | 0 <= j < w
      ensures lo <= Mean(rows, w)[j] <= hi
    {
      var c := Column(rows, w, j);
      SumBounds(c, lo, hi);
      var n := |rows| as real;
      assert Mean(rows, w)[j] == Sum(c) / n;
      DivideBounds(Sum(c), n, lo, hi);
    }
  }

  lemma DivideBounds(s: real, n: real, lo: real, hi: real)
    requires n > 0.0 && n * lo <= s <= n * hi
    ensures lo <= s / n <= hi
  {
    assert s / n - lo == (s - n * lo) / n;
    assert hi - s / n == (n * hi - s) / n;
  }

  lemma {:induction false} SumNonNegative(xs: seq<real>)
    requires forall i :: 0 <= i < |xs| ==> xs[i] >= 0.0
    ensures Sum(xs) >= 0.0
  {
    if xs != [] {
      SumNonNegative(xs[..|xs| - 1]);
    }
  }

  lemma SquareNonNegative(x: real)
    ensures x * x >= 0.0
  {
    if x < 0.0 {
      assert x * x == (-x) * (-x);
    }
  }

  /** Variances are never negative. */
  lemma VarianceNonNegative(rows: seq<seq<real>>, w: nat)
    requires |rows| > 0 && Rectangular(rows, w)
    ensures forall j :: 0 <= j < w ==> Variance(rows, w)[j] >= 0.0
  {
    forall j | 0 <= j < w
      ensures Variance(rows, w)[j] >= 0.0
    {
      var c := Column(rows, w, j);
      var m := Mean(rows, w)[j];
      var d := SquaredDeviations(c, m);
      forall i | 0 <= i < |d|
        ensures d[i] >= 0.0
      {
        SquareNonNegative(c[i] - m);
      }
      SumNonNegative(d);
    }
  }

  /** When every row is the same vector, the mean is that vector and the variance is zero. */
  lemma IdenticalRows(rows: seq<seq<real>>, v: seq<real>)
    requires |rows| > 0 && forall i :: 0 <= i < |rows| ==> rows[i] == v
    ensures Rectangular(rows, |v|)
    ensures Mean(rows, |v|) == v
    ensures forall j :: 0 <= j < |v| ==> Variance(rows, |v|)[j] == 0.0
  {
    forall j | 0 <= j < |v|
      ensures Mean(rows, |v|)[j] == v[j]
    {
      MeanOfIdentical(rows, v, j);
    }
    forall j | 0 <= j < |v|
      ensures Variance(rows, |v|)[j] == 0.0
    {
      VarianceOfIdentical(rows, v, j);
    }
  }

  lemma MeanOfIdentical(rows: seq<seq<real>>, v: seq<real>, j: nat)
    requires |rows| > 0 && (forall i :: 0 <= i < |rows| ==> rows[i] == v) && j < |v|
    ensures Rectangular(rows, |v|) && Mean(rows, |v|)[j] == v[j]
  {
    SumConstant(Column(rows, |v|, j), v[j]);
    ScaleDivide(|rows| as real, v[j]);
  }

  lemma VarianceOfIdentical(rows: seq<seq<real>>, v: seq<real>, j: nat)
    requires |rows| > 0 && (forall i :: 0 <= i < |rows| ==> rows[i] == v) && j < |v|
    ensures Rectangular(rows, |v|) && Variance(rows, |v|)[j] == 0.0
  {
    MeanOfIdentical(rows, v, j);
    SumConstant(SquaredDeviations(Column(rows, |v|, j), v[j]), 0.0);
  }

  lemma ScaleDivide(n: real, x: real)
    requires n > 0.0
    ensures (n * x) / n == x
  {
  }

  /** Index of the first largest entry. */
  function ArgMax(xs: seq<real>): (k: nat)
    requires |xs| > 0
    ensures k < |xs|
    ensures forall j :: 0 <= j < |xs| ==> xs[j] <= xs[k]
    ensures forall j :: 0 <= j < k ==> xs[j] < xs[k]
  {
    if |xs| == 1 then 0
    else
      var k := ArgMax(xs[..|xs| - 1]);
      if xs[|xs| - 1] > xs[k] then |xs| - 1 else k
  }
}
