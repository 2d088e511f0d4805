/**
 * Numerics shared by both versions of the sampling explorer: the arithmetic
 * mean that `statistics.mean` computes, the `max` of a list of bar heights,
 * and what it means for a sample to be a draw (with replacement) from the
 * population.
 */
module Stats {

  /** Sum of a sample, first element first. */
  function Sum(s: seq<real>): real
  {
    if s == [] then 0.0 else s[0] + Sum(s[1..])
  }

  /** Largest element; Python's `max` over a non-empty list. */
  function MaxOf(s: seq<real>): (m: real)
    requires |s| > 0
    ensures m in s
    ensures forall k :: 0 <= k < |s| ==> s[k] <= m
  {
    if |s| == 1 then s[0]
    else
      var rest := MaxOf(s[1..]);
      if s[0] >= rest then s[0] else rest
  }

  /** Smallest element of a non-empty list. */
  function MinOf(s: seq<real>): (m: real)
    requires |s| > 0
    ensures m in s
    ensures forall k :: 0 <= k < |s| ==> m <= s[k]
  {
    if |s| == 1 then s[0]
    else
      var rest := MinOf(s[1..]);
      if s[0] <= rest then s[0] else rest
  }

  /** If every element lies in [lo, hi], the sum lies in [n * lo, n * hi]. */
  lemma {:induction false} SumBounds(s: seq<real>, lo: real, hi: real)
    requires forall k :: 0 <= k < |s| ==> lo <= s[k] <= hi
    ensures (|s| as real) * lo <= Sum(s) <= (|s| as real) * hi
  {
    if s != [] {
      SumBounds(s[1..], lo, hi);
      assert (|s| as real) * lo == ((|s| - 1) as real) * lo + lo;
      assert (|s| as real) * hi == ((|s| - 1) as real) * hi + hi;
    }
  }

  /** The unweighted arithmetic mean; it never leaves the range of the sample. */
  function Mean(s: seq<real>): (m: real)
    requires |s| > 0
    ensures MinOf(s) <= m <= MaxOf(s)
  {
    MeanBounds(s, MinOf(s), MaxOf(s));
    Sum(s) / (|s| as real)
  }

  /** If every element lies in [lo, hi], so does the sum divided by the length. */
  lemma MeanBounds(s: seq<real>, lo: real, hi: real)
    requires |s| > 0
    requires forall k :: 0 <= k < |s| ==> lo <= s[k] <= hi
    ensures lo <= Sum(s) / (|s| as real) <= hi
  {
    SumBounds(s, lo, hi);
    var total, n := Sum(s), |s| as real;
    assert total / n * n == total;
  }

  /**
   * Every value of `draw` is taken from the population: with its length, what
   * is known of a result of `np.random.choice(population, n)`, which draws
   * with replacement.
   */
  predicate InPopulation(draw: seq<real>, population: seq<real>)
  {
    forall k :: 0 <= k < |draw| ==> draw[k] in population
  }

  /** The mean of any non-empty draw lies within the range of the population. */
  lemma DrawMeanWithinPopulation(draw: seq<real>, population: seq<real>)
    requires |draw| > 0 && InPopulation(draw, population)
    ensures |population| > 0
    ensures MinOf(population) <= Mean(draw) <= MaxOf(population)
  {
  }
}
