/** The law-of-large-numbers tab: the table of theoretical means and the
    running (prefix) mean `np.cumsum(data) / np.arange(1, trials + 1)`. */
module LawOfLargeNumbers {
  import opened Wrappers
  import Series
  import Random
  import Utils

  /** `theoretical_mean`: the population mean shown as the reference line.
      For every tag that generates a normal, uniform or exponential sample it
      is the expectation of that family's default-parameter distribution
      (unknown tags fall back to Normal in the generator and to 0.0 here). */
  function TheoreticalMean(tag: string): (m: real)
    ensures Utils.FamilyOf(tag) in {Utils.Normal, Utils.Uniform, Utils.Exponential} ==>
      && |Utils.Draws(Utils.SpecOf(tag, map[]))| == 1
      && m == Random.Expectation(Utils.Draws(Utils.SpecOf(tag, map[]))[0])
    ensures tag != Utils.UniformTag && tag != Utils.ExponentialTag ==> m == 0.0
  {
    if tag == Utils.NormalTag then 0.0
    else if tag == Utils.UniformTag then 0.5
    else if tag == Utils.ExponentialTag then 1.0
    else 0.0
  }

  /** The table has no entry for the binomial family and says 0.0, while the
      default binomial distribution, Binomial(20, 0.5), has mean 10. The tab's
      select box never offers that tag. */
  lemma TheoreticalMeanBinomialGap()
    ensures TheoreticalMean(Utils.BinomialTag) == 0.0
    ensures Random.Expectation(Utils.Draws(Utils.SpecOf(Utils.BinomialTag, map[]))[0]) == 10.0
  {
  }

  /** The running mean: element `i` is the mean of the first `i + 1` values. */
  function PrefixMeans(data: seq<real>): (c: seq<real>)
    ensures |c| == |data|
    ensures forall i :: 0 <= i < |data| ==> c[i] * ((i + 1) as real) == Series.Sum(data[..i + 1])
  {
    seq(|data|, i requires 0 <= i < |data| => Series.Sum(data[..i + 1]) / ((i + 1) as real))
  }

  /** `np.cumsum(data) / np.arange(1, len(data) + 1)`, as the loop that
      accumulates the sum and divides by the count. */
  method CumulativeMean(data: seq<real>) returns (c: seq<real>)
    ensures c == PrefixMeans(data)
  {
    c := [];
    var total := 0.0;
    var i := 0;
    while i < |data|
      invariant 0 <= i <= |data|
      invariant total == Series.Sum(data[..i])
      invariant c == PrefixMeans(data)[..i]
    {
      assert data[..i + 1][..i] == data[..i];
      total := total + data[i];
      c := c + [total / ((i + 1) as real)];
      i := i + 1;
    }
  }

  /** The first running mean is the first value. */
  lemma PrefixMeanFirst(data: seq<real>)
    requires |data| > 0
    ensures PrefixMeans(data)[0] == data[0]
  {
    assert data[..1][..0] == [];
    assert Series.Sum(data[..1]) == data[0];
  }

  /** The last running mean is the mean of all the data. */
  lemma PrefixMeanLast(data: seq<real>)
    requires |data| > 0
    ensures Series.Mean(data) == Some(PrefixMeans(data)[|data| - 1])
  {
    assert data[..|data|] == data;
  }

  /** Each running mean updates the previous one with the next value. */
  lemma PrefixMeanStep(data: seq<real>, i: nat)
    requires i + 1 < |data|
    ensures PrefixMeans(data)[i + 1]
         == (PrefixMeans(data)[i] * ((i + 1) as real) + data[i + 1]) / ((i + 2) as real)
  {
    assert data[..i + 2][..i + 1] == data[..i + 1];
    var c := PrefixMeans(data);
    assert c[i + 1] * ((i + 2) as real) == c[i] * ((i + 1) as real) + data[i + 1];
  }

  /** A running mean does not depend on later values: cutting the data cuts
      the running means. */
  lemma PrefixMeansPrefix(data: seq<real>, k: nat)
    requires k <= |data|
    ensures PrefixMeans(data[..k]) == PrefixMeans(data)[..k]
  {
    forall i | 0 <= i < k
      ensures PrefixMeans(data[..k])[i] == PrefixMeans(data)[i]
    {
      assert data[..k][..i + 1] == data[..i + 1];
    }
  }

  /** [2, 4, 6] has running means [2, 3, 4]. */
  lemma PrefixMeansExample()
    ensures PrefixMeans([2.0, 4.0, 6.0]) == [2.0, 3.0, 4.0]
  {
    var d := [2.0, 4.0, 6.0];
    assert d[..1] == [2.0] && d[..2] == [2.0, 4.0] && d[..3] == d;
    assert [2.0, 4.0][..1] == [2.0] && d[..2] == [2.0, 4.0] && d[..2] == d[..3][..2];
    assert Series.Sum([2.0]) == 2.0;
    assert Series.Sum([2.0, 4.0]) == 6.0;
    assert Series.Sum(d) == 12.0;
  }

  /** What the tab plots: the data, its running means and the reference line. */
  datatype Panel = Panel(data: seq<real>, cumulative: seq<real>, expected: real)

  /** `law_of_large_numbers_tab`: `trials` default-parameter values of the
      chosen family, their running means, and the theoretical mean. */
  function LawOfLargeNumbersTab(g: Random.Generator, s: nat, tag: string, trials: nat): (p: Panel)
    ensures |p.data| == trials && |p.cumulative| == trials
    ensures p.data == Utils.Generate(g, s, Utils.SpecOf(tag, map[]), trials).0
    ensures p.cumulative == PrefixMeans(p.data)
    ensures trials > 0 ==> p.cumulative[0] == p.data[0]
    ensures trials > 0 ==> Series.Mean(p.data) == Some(p.cumulative[trials - 1])
    ensures p.expected == TheoreticalMean(tag)
  {
    Utils.DefaultsAccepted(g, s, tag, trials);
    var data := Utils.GenerateDistributionData(g, s, tag, map[], trials).value.0;
    var p := Panel(data, PrefixMeans(data), TheoreticalMean(tag));
    if trials > 0 then PrefixMeanFirst(data); PrefixMeanLast(data); p else p
  }
}
