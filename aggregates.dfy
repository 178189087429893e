/**
 * The three reductions the summary endpoint applies to one user's
 * transaction amounts (`np.max`, `np.min`, `np.mean`), over exact reals.
 */
module Aggregates {

  /** The sum of a sequence, folded from the front. */
  function Sum(xs: seq<real>): real
  {
    if xs == [] then 0.0 else xs[0] + Sum(xs[1..])
  }

  /** `np.max`: an element of the sequence that no element exceeds. */
  function Max(xs: seq<real>): (m: real)
    requires |xs| > 0
    ensures m in xs
    ensures forall i :: 0 <= i < |xs| ==> xs[i] <= m
  {
    if |xs| == 1 then xs[0]
    else
      var rest := Max(xs[1..]);
      if xs[0] >= rest then xs[0] else rest
  }

  /** `np.min`: an element of the sequence that no element undercuts. */
  function Min(xs: seq<real>): (m: real)
    requires |xs| > 0
    ensures m in xs
    ensures forall i :: 0 <= i < |xs| ==> m <= xs[i]
  {
    if |xs| == 1 then xs[0]
    else
      var rest := Min(xs[1..]);
      if xs[0] <= rest then xs[0] else rest
  }

  /** A sum of n values that all lie in [lo, hi] lies in [n * lo, n * hi]. */
  lemma {:induction false} SumBounds(xs: seq<real>, lo: real, hi: real)
    requires forall i :: 0 <= i < |xs| ==> lo <= xs[i] <= hi
    ensures (|xs| as real) * lo <= Sum(xs) <= (|xs| as real) * hi
  {
    if xs != [] {
      SumBounds(xs[1..], lo, hi);
      assert (|xs| as real) * lo == lo + (|xs[1..]| as real) * lo;
      assert (|xs| as real) * hi == hi + (|xs[1..]| as real) * hi;
    }
  }

  /** `np.mean`: the unweighted arithmetic mean. */
  function Mean(xs: seq<real>): real
    requires |xs| > 0
  {
    Sum(xs) / (|xs| as real)
  }

  /** The mean lies between the minimum and the maximum. */
  lemma MeanBounds(xs: seq<real>)
    requires |xs| > 0
    ensures Min(xs) <= Mean(xs) <= Max(xs)
  {
    var lo, hi := Min(xs), Max(xs);
    SumBounds(xs, lo, hi);
    MeanWithin(xs, lo, hi);
  }

  /** Bounds on the sum, divided by the count, are bounds on the mean. */
  lemma MeanWithin(xs: seq<real>, lo: real, hi: real)
    requires |xs| > 0
    requires (|xs| as real) * lo <= Sum(xs) <= (|xs| as real) * hi
    ensures lo <= Mean(xs) <= hi
  {
  }

  /** Max is the only element that bounds the sequence from above. */
  lemma MaxUnique(xs: seq<real>, m: real)
    requires m in xs
    requires forall i :: 0 <= i < |xs| ==> xs[i] <= m
    ensures m == Max(xs)
  {
  }

  /** Min is the only element that bounds the sequence from below. */
  lemma MinUnique(xs: seq<real>, m: real)
    requires m in xs
    requires forall i :: 0 <= i < |xs| ==> m <= xs[i]
    ensures m == Min(xs)
  {
  }

  /** When every value is c, so are the maximum, the minimum and the mean. */
  lemma ConstantAggregates(xs: seq<real>, c: real)
    requires |xs| > 0
    requires forall i :: 0 <= i < |xs| ==> xs[i] == c
    ensures Max(xs) == c && Min(xs) == c && Mean(xs) == c
  {
    MeanBounds(xs);
  }
}
