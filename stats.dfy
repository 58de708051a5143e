/** Python's `sum`, `statistics.mean` and the population variance under
    `statistics.pstdev`, over exact reals. */
module Stats {

  /** `sum(xs)` */
  function Sum(xs: seq<real>): real
  {
    if xs == [] then 0.0 else Sum(xs[..|xs| - 1]) + xs[|xs| - 1]
  }

  lemma SumAppend(xs: seq<real>, x: real)
    ensures Sum(xs + [x]) == Sum(xs) + x
  {
    assert (xs + [x])[..|xs|] == xs;
  }

  /** `statistics.mean(xs)`; Python raises on an empty sequence. */
  function Mean(xs: seq<real>): real
    requires |xs| > 0
  {
    Sum(xs) / (|xs| as real)
  }

  /** Every value lies in `[lo, hi]`. */
  predicate AllWithin(xs: seq<real>, lo: real, hi: real)
  {
    forall i :: 0 <= i < |xs| ==> lo <= xs[i] <= hi
  }

  lemma {:induction false} SumBounds(xs: seq<real>, lo: real, hi: real)
    requires AllWithin(xs, lo, hi)
    ensures (|xs| as real) * lo <= Sum(xs) <= (|xs| as real) * hi
    decreases |xs|
  {
    if xs != [] {
      SumBounds(xs[..|xs| - 1], lo, hi);
    }
  }

  /** A mean lies between the smallest and the largest bound of its values. */
  lemma MeanBounds(xs: seq<real>, lo: real, hi: real)
    requires |xs| > 0 && AllWithin(xs, lo, hi)
    ensures lo <= Mean(xs) <= hi
  {
    SumBounds(xs, lo, hi);
    var n := |xs| as real;
    assert n * lo <= Sum(xs) <= n * hi;
    assert lo == (n * lo) / n && hi == (n * hi) / n;
  }

  /** The mean of equal values is that value. */
  lemma {:induction false} SumConstant(xs: seq<real>, c: real)
    requires AllWithin(xs, c, c)
    ensures Sum(xs) == (|xs| as real) * c
    decreases |xs|
  {
    if xs != [] {
      SumConstant(xs[..|xs| - 1], c);
    }
  }

  /** `x ** 2` */
  function Square(x: real): (r: real)
    ensures r >= 0.0
  {
    if x >= 0.0 then x * x else (-x) * (-x)
  }

  /** `sum((x - m) ** 2 for x in xs)` */
  function SquaredDeviations(xs: seq<real>, m: real): (r: real)
    ensures r >= 0.0
  {
    if xs == [] then 0.0
    else SquaredDeviations(xs[..|xs| - 1], m) + Square(xs[|xs| - 1] - m)
  }

  /** Population variance: `statistics.pstdev(xs) ** 2`; 0 for no data. */
  function Variance(xs: seq<real>): (r: real)
    ensures r >= 0.0
  {
    if xs == [] then 0.0 else SquaredDeviations(xs, Mean(xs)) / (|xs| as real)
  }

  lemma {:induction false} SquaredDeviationsAtValue(xs: seq<real>, c: real)
    requires AllWithin(xs, c, c)
    ensures SquaredDeviations(xs, c) == 0.0
    decreases |xs|
  {
    if xs != [] {
      SquaredDeviationsAtValue(xs[..|xs| - 1], c);
    }
  }

  /** A series that never moves has no variance. */
  lemma ConstantSeriesVariance(xs: seq<real>, c: real)
    requires AllWithin(xs, c, c)
    ensures Variance(xs) == 0.0
  {
    if xs != [] {
      SumConstant(xs, c);
      assert Mean(xs) == c;
      SquaredDeviationsAtValue(xs, c);
    }
  }
}
