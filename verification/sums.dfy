/** Sums and means of sequences, accumulated left to right the way the
    filter's scoring loops accumulate them. */
module Sums {

  /** Sum of a sequence of reals: the last element is added to the sum of
      the prefix, so the recursion follows a left-to-right loop. */
  function Sum(xs: seq<real>): real
  {
    if |xs| == 0 then 0.0 else Sum(xs[..|xs| - 1]) + xs[|xs| - 1]
  }

  /** Sum of a sequence of counters. */
  function SumNat(xs: seq<nat>): nat
  {
    if |xs| == 0 then 0 else SumNat(xs[..|xs| - 1]) + xs[|xs| - 1]
  }

  /** Arithmetic mean; callers only use it on non-empty sequences. */
  function Mean(xs: seq<real>): real
    requires |xs| > 0
  {
    Sum(xs) / (|xs| as real)
  }

  /** Every element of `xs` lies in the closed interval [lo, hi]. */
  predicate InRange(xs: seq<real>, lo: real, hi: real)
  {
    forall i :: 0 <= i < |xs| ==> lo <= xs[i] <= hi
  }

  /** A sum of `n` values from [lo, hi] lies in [n * lo, n * hi]. */
  lemma {:induction false} SumBounds(xs: seq<real>, lo: real, hi: real)
    requires InRange(xs, lo, hi)
    ensures (|xs| as real) * lo <= Sum(xs) <= (|xs| as real) * hi
  {
    if |xs| > 0 {
      var n := |xs| - 1;
      assert InRange(xs[..n], lo, hi);
      SumBounds(xs[..n], lo, hi);
      assert (n as real) * lo + lo == (|xs| as real) * lo;
      assert (n as real) * hi + hi == (|xs| as real) * hi;
    }
  }

  /** The mean of values in [lo, hi] is itself in [lo, hi]. */
  lemma MeanBounds(xs: seq<real>, lo: real, hi: real)
    requires |xs| > 0
    requires InRange(xs, lo, hi)
    ensures lo <= Mean(xs) <= hi
  {
    var n := |xs| as real;
    SumBounds(xs, lo, hi);
    assert Mean(xs) * n == Sum(xs);
  }

  /** Conditional form of MeanBounds for the unit interval. */
  lemma MeanInUnit(xs: seq<real>)
    requires |xs| > 0
    ensures InRange(xs, 0.0, 1.0) ==> 0.0 <= Mean(xs) <= 1.0
  {
    if InRange(xs, 0.0, 1.0) {
      MeanBounds(xs, 0.0, 1.0);
    }
  }

  /** Summing a constant sequence multiplies the constant by the length. */
  lemma {:induction false} SumConstant(xs: seq<real>, v: real)
    requires forall i :: 0 <= i < |xs| ==> xs[i] == v
    ensures Sum(xs) == (|xs| as real) * v
  {
    if |xs| > 0 {
      var n := |xs| - 1;
      SumConstant(xs[..n], v);
      assert (n as real) * v + v == (|xs| as real) * v;
    }
  }

  /** The mean of a constant sequence is that constant. */
  lemma MeanConstant(xs: seq<real>, v: real)
    requires |xs| > 0
    requires forall i :: 0 <= i < |xs| ==> xs[i] == v
    ensures Mean(xs) == v
  {
    SumConstant(xs, v);
  }
}
