/** The regression-to-the-mean tab: two noisy tests of the same subjects,
    selection of the best scorers on the first test, and the means compared. */
module Regression {
  import opened Wrappers
  import Series
  import Random

  /** Abilities and the two test scores, one entry per subject. */
  datatype Cohort = Cohort(abilities: seq<real>, test1: seq<real>, test2: seq<real>)

  /** The three calls that draw the cohort: abilities from N(mu, sigma/2),
      then for each test an independent N(0, sigma/2) noise added to every
      subject's ability. */
  function DrawCohort(g: Random.Generator, s: nat, mu: real, sigma: real, n: nat): (c: Cohort)
    ensures |c.abilities| == n && |c.test1| == n && |c.test2| == n
    ensures forall i :: 0 <= i < n ==>
      && c.abilities[i] == g.value(s, Random.Normal(mu, sigma / 2.0), n, i)
      && c.test1[i] - c.abilities[i] == g.value(NoiseState(g, s, mu, sigma, n), Random.Normal(0.0, sigma / 2.0), n, i)
      && c.test2[i] - c.abilities[i]
         == g.value(g.next(NoiseState(g, s, mu, sigma, n), Random.Normal(0.0, sigma / 2.0), n),
                    Random.Normal(0.0, sigma / 2.0), n, i)
  {
    var (abilities, s1) := Random.Call(g, s, Random.Normal(mu, sigma / 2.0), n);
    var (noise1, s2) := Random.Call(g, s1, Random.Normal(0.0, sigma / 2.0), n);
    var (noise2, _) := Random.Call(g, s2, Random.Normal(0.0, sigma / 2.0), n);
    Cohort(abilities, Add(abilities, noise1), Add(abilities, noise2))
  }

  /** The generator state in which the first noise array is drawn. */
  function NoiseState(g: Random.Generator, s: nat, mu: real, sigma: real, n: nat): nat
  {
    g.next(s, Random.Normal(mu, sigma / 2.0), n)
  }

  /** Element-wise sum of two arrays of one length. */
  function Add(a: seq<real>, b: seq<real>): (r: seq<real>)
    requires |a| == |b|
    ensures |r| == |a|
    ensures forall i :: 0 <= i < |a| ==> r[i] == a[i] + b[i]
  {
    seq(|a|, i requires 0 <= i < |a| => a[i] + b[i])
  }

  /** `test1_scores >= threshold`. */
  function Mask(scores: seq<real>, threshold: real): (m: seq<bool>)
    ensures |m| == |scores|
    ensures forall i :: 0 <= i < |scores| ==> (m[i] <==> threshold <= scores[i])
  {
    seq(|scores|, i requires 0 <= i < |scores| => threshold <= scores[i])
  }

  /** Boolean indexing `xs[mask]`: the entries whose mask bit is set, in order. */
  function Compress<T>(xs: seq<T>, mask: seq<bool>): seq<T>
    requires |xs| == |mask|
  {
    if |xs| == 0 then []
    else (if mask[0] then [xs[0]] else []) + Compress(xs[1..], mask[1..])
  }

  /** The number of set bits, `np.sum(mask)`. */
  function Count(mask: seq<bool>): nat
  {
    if |mask| == 0 then 0 else (if mask[0] then 1 else 0) + Count(mask[1..])
  }

  function Zip<A, B>(a: seq<A>, b: seq<B>): (r: seq<(A, B)>)
    requires |a| == |b|
    ensures |r| == |a|
    ensures forall i :: 0 <= i < |a| ==> r[i] == (a[i], b[i])
  {
    seq(|a|, i requires 0 <= i < |a| => (a[i], b[i]))
  }

  /** Indexing two arrays with one mask keeps them paired: the selected pairs
      are the pairs of the selected entries, subject by subject, in order. */
  lemma {:induction false} CompressPaired<A, B>(a: seq<A>, b: seq<B>, mask: seq<bool>)
    requires |a| == |b| == |mask|
    ensures |Compress(a, mask)| == |Compress(b, mask)| == Count(mask)
    ensures Compress(Zip(a, b), mask) == Zip(Compress(a, mask), Compress(b, mask))
  {
    if |a| > 0 {
      CompressPaired(a[1..], b[1..], mask[1..]);
      assert Zip(a, b)[1..] == Zip(a[1..], b[1..]);
    }
  }

  /** An entry is selected exactly when its score reaches the threshold: every
      selected score is at least the threshold, and every score that reaches it
      is among the selected ones. */
  lemma {:induction false} CompressMask(scores: seq<real>, threshold: real)
    ensures forall x :: x in Compress(scores, Mask(scores, threshold)) ==> threshold <= x
    ensures forall i :: 0 <= i < |scores| && threshold <= scores[i] ==>
      scores[i] in Compress(scores, Mask(scores, threshold))
    ensures Count(Mask(scores, threshold)) == 0 <==>
      forall i :: 0 <= i < |scores| ==> scores[i] < threshold
  {
    if |scores| > 0 {
      var rest := scores[1..];
      CompressMask(rest, threshold);
      assert Mask(scores, threshold)[1..] == Mask(rest, threshold);
      forall i | 1 <= i < |scores|
        ensures scores[i] == rest[i - 1]
      {
      }
    }
  }

  /** The tuple `generate_regression_data` returns. */
  datatype Trial = Trial(
    test1: seq<real>, test2: seq<real>, best1: seq<real>, best2: seq<real>,
    allMean1: real, allMean2: real, bestMean1: real, bestMean2: real)

  /** Selection and means: `None` when no subject reaches the threshold,
      otherwise the paired selections and the four means. */
  function Select(test1: seq<real>, test2: seq<real>, threshold: real): (r: Option<Trial>)
    requires |test1| == |test2|
    ensures r.None? <==> forall i :: 0 <= i < |test1| ==> test1[i] < threshold
    ensures r.Some? ==>
      && r.value.test1 == test1 && r.value.test2 == test2
      && 0 < |r.value.best1| == |r.value.best2|
      && Zip(r.value.best1, r.value.best2) == Compress(Zip(test1, test2), Mask(test1, threshold))
      && (forall x :: x in r.value.best1 ==> threshold <= x)
      && threshold <= r.value.bestMean1
      && Series.Mean(test1) == Some(r.value.allMean1)
      && Series.Mean(test2) == Some(r.value.allMean2)
      && Series.Mean(r.value.best1) == Some(r.value.bestMean1)
      && Series.Mean(r.value.best2) == Some(r.value.bestMean2)
  {
    var mask := Mask(test1, threshold);
    CompressMask(test1, threshold);
    if Count(mask) == 0 then None
    else
      var best1 := Compress(test1, mask);
      var best2 := Compress(test2, mask);
      CompressPaired(test1, test2, mask);
      Series.MeanAtLeast(best1, threshold);
      Some(Trial(test1, test2, best1, best2,
                 Series.Mean(test1).value, Series.Mean(test2).value,
                 Series.Mean(best1).value, Series.Mean(best2).value))
  }

  /** `generate_regression_data`. The percentile function is a parameter
      (numpy's interpolation is not modelled). `None` when there are no
      subjects, when numpy raises inside the `try` (a negative array size or
      scale, a percentile outside [0, 100]), or when no subject is selected;
      otherwise the selection made on the drawn cohort. */
  function GenerateRegressionData(g: Random.Generator, s: nat, mu: real, sigma: real, n: int,
                                  percentile: real, percentileOf: (seq<real>, real) -> real)
    : (r: Option<Trial>)
    ensures n <= 0 || sigma < 0.0 || percentile < 0.0 || percentile > 100.0 ==> r.None?
    ensures n >= 1 && sigma >= 0.0 && 0.0 <= percentile <= 100.0 ==>
      r == Select(DrawCohort(g, s, mu, sigma, n).test1, DrawCohort(g, s, mu, sigma, n).test2,
                  percentileOf(DrawCohort(g, s, mu, sigma, n).test1, percentile))
    ensures r.Some? ==>
      && |r.value.test1| == n && |r.value.test2| == n
      && r.value.test1 == DrawCohort(g, s, mu, sigma, n).test1
      && r.value.test2 == DrawCohort(g, s, mu, sigma, n).test2
      && percentileOf(r.value.test1, percentile) <= r.value.bestMean1
  {
    if n <= 0 || sigma < 0.0 || percentile < 0.0 || percentile > 100.0 then None
    else
      var c := DrawCohort(g, s, mu, sigma, n);
      Select(c.test1, c.test2, percentileOf(c.test1, percentile))
  }

  /** A threshold no higher than the largest first-test score (as every
      percentile is) selects at least the best subject, so the result is
      present whenever numpy does not raise. */
  lemma BestSubjectSelected(g: Random.Generator, s: nat, mu: real, sigma: real, n: int,
                            percentile: real, percentileOf: (seq<real>, real) -> real)
    requires n >= 1 && sigma >= 0.0 && 0.0 <= percentile <= 100.0
    requires percentileOf(DrawCohort(g, s, mu, sigma, n).test1, percentile)
          <= Series.Max(DrawCohort(g, s, mu, sigma, n).test1)
    ensures GenerateRegressionData(g, s, mu, sigma, n, percentile, percentileOf).Some?
    ensures Series.Max(DrawCohort(g, s, mu, sigma, n).test1)
         in GenerateRegressionData(g, s, mu, sigma, n, percentile, percentileOf).value.best1
  {
    var test1 := DrawCohort(g, s, mu, sigma, n).test1;
    var t := percentileOf(test1, percentile);
    var k :| 0 <= k < |test1| && test1[k] == Series.Max(test1);
    CompressMask(test1, t);
  }

  /** The shrinkage the tab reports: the drop from the first to the second
      test mean of the selected subjects, in points and as a percentage of
      the first (0 when that mean is 0). */
  function Shrinkage(bestMean1: real, bestMean2: real): (r: (real, real))
    ensures bestMean2 + r.0 == bestMean1
    ensures bestMean1 != 0.0 ==> r.1 * bestMean1 == 100.0 * r.0
    ensures bestMean1 == 0.0 ==> r.1 == 0.0
  {
    var diff := bestMean1 - bestMean2;
    (diff, if bestMean1 != 0.0 then (diff / bestMean1) * 100.0 else 0.0)
  }
}
