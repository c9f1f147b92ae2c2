/** The two statistics shown each frame: the true and the sampled mean radius. */
module Stats {

  /** Left fold of `+` over the radii, as `reduce((acc, curr) => acc + curr)` computes it. */
  function Sum(rs: seq<real>): real
    decreases |rs|
  {
    if rs == [] then 0.0 else Sum(rs[..|rs| - 1]) + rs[|rs| - 1]
  }

  /** Mean radius of all particles; `reduce` without a seed fails on an empty array. */
  function TrueMean(rs: seq<real>): real
    requires |rs| > 0
  {
    Sum(rs) / (|rs| as real)
  }

  /** All sampled indices name a particle. */
  predicate IndicesIn(s: seq<nat>, n: nat) {
    forall k :: 0 <= k < |s| ==> s[k] < n
  }

  /** The radii of the sampled particles, in list order. */
  function Pick(rs: seq<real>, s: seq<nat>): (p: seq<real>)
    requires IndicesIn(s, |rs|)
    ensures |p| == |s| && forall k :: 0 <= k < |s| ==> p[k] == rs[s[k]]
  {
    seq(|s|, k requires 0 <= k < |s| => rs[s[k]])
  }

  /** Mean radius of the sampled particles; 0 while nothing is sampled. */
  function SampledMean(rs: seq<real>, s: seq<nat>): real
    requires IndicesIn(s, |rs|)
  {
    if |s| > 0 then Sum(Pick(rs, s)) / (|s| as real) else 0.0
  }

  lemma {:induction false} SumAtLeast(rs: seq<real>, lo: real)
    requires forall k :: 0 <= k < |rs| ==> lo <= rs[k]
    ensures (|rs| as real) * lo <= Sum(rs)
    decreases |rs|
  {
    if rs != [] {
      SumAtLeast(rs[..|rs| - 1], lo);
    }
  }

  lemma {:induction false} SumAtMost(rs: seq<real>, hi: real)
    requires forall k :: 0 <= k < |rs| ==> rs[k] <= hi
    ensures Sum(rs) <= (|rs| as real) * hi
    decreases |rs|
  {
    if rs != [] {
      SumAtMost(rs[..|rs| - 1], hi);
    }
  }

  /** A mean lies between any lower and upper bound of the values it averages. */
  lemma MeanBetween(rs: seq<real>, lo: real, hi: real)
    requires |rs| > 0
    requires forall k :: 0 <= k < |rs| ==> lo <= rs[k] <= hi
    ensures lo <= TrueMean(rs) <= hi
  {
    SumAtLeast(rs, lo);
    SumAtMost(rs, hi);
    var n := |rs| as real;
    assert n * lo <= Sum(rs) <= n * hi;
    assert lo == (n * lo) / n && hi == (n * hi) / n;
  }

  /** Non-negative radii give a non-negative true mean. */
  lemma TrueMeanNonNegative(rs: seq<real>)
    requires |rs| > 0
    requires forall k :: 0 <= k < |rs| ==> 0.0 <= rs[k]
    ensures 0.0 <= TrueMean(rs)
  {
    SumAtLeast(rs, 0.0);
  }

  /** With something sampled, the sampled mean is bounded by the sampled radii. */
  lemma SampledMeanBetween(rs: seq<real>, s: seq<nat>, lo: real, hi: real)
    requires IndicesIn(s, |rs|) && |s| > 0
    requires forall k :: 0 <= k < |s| ==> lo <= rs[s[k]] <= hi
    ensures lo <= SampledMean(rs, s) <= hi
  {
    MeanBetween(Pick(rs, s), lo, hi);
  }

  /** Sampling every particle once, in order, gives back the true mean. */
  lemma SampledMeanOfAll(rs: seq<real>)
    requires |rs| > 0
    ensures var all := seq(|rs|, k requires 0 <= k => k as nat);
      IndicesIn(all, |rs|) && SampledMean(rs, all) == TrueMean(rs)
  {
    var all := seq(|rs|, k requires 0 <= k => k as nat);
    assert Pick(rs, all) == rs;
  }
}
