/** The second single-page app: its own central-limit generator and `means`
    list, and its law-of-large-numbers tab. */
module ProbabilityDemo {
  import opened Wrappers
  import Series
  import Random
  import Utils
  import LawOfLargeNumbers

  /** `generate_distribution`. Unlike the shared helper, the uniform family
      is U(-1, 1), the bimodal components have standard deviation 0.5, and
      both bimodal blocks have `size // 2` values. */
  function GenerateDistribution(g: Random.Generator, s: nat, tag: string, size: nat): (r: (seq<real>, nat))
    ensures |r.0| == if tag == Utils.BimodalTag then 2 * (size / 2) else size
    ensures tag == Utils.UniformTag ==> r == Random.Call(g, s, Random.Uniform(-1.0, 1.0), size)
    ensures tag == Utils.ExponentialTag ==> r == Random.Call(g, s, Random.Exponential(1.0), size)
    ensures tag !in {Utils.UniformTag, Utils.ExponentialTag, Utils.BimodalTag} ==>
      r == Random.Call(g, s, Random.Normal(0.0, 1.0), size)
    ensures tag == Utils.BimodalTag ==>
      && (forall i :: 0 <= i < size / 2 ==>
            r.0[i] == g.value(s, Random.Normal(-2.0, 0.5), size / 2, i))
      && (forall i :: size / 2 <= i < 2 * (size / 2) ==>
            r.0[i] == g.value(g.next(s, Random.Normal(-2.0, 0.5), size / 2),
                              Random.Normal(2.0, 0.5), size / 2, i - size / 2))
  {
    if tag == Utils.NormalTag then Random.Call(g, s, Random.Normal(0.0, 1.0), size)
    else if tag == Utils.UniformTag then Random.Call(g, s, Random.Uniform(-1.0, 1.0), size)
    else if tag == Utils.ExponentialTag then Random.Call(g, s, Random.Exponential(1.0), size)
    else if tag == Utils.BimodalTag then
      var (d1, s1) := Random.Call(g, s, Random.Normal(-2.0, 0.5), size / 2);
      var (d2, s2) := Random.Call(g, s1, Random.Normal(2.0, 0.5), size / 2);
      (d1 + d2, s2)
    else Random.Call(g, s, Random.Normal(0.0, 1.0), size)
  }

  /** For an odd size the bimodal sample is one value short. */
  lemma BimodalOddSizeShort(g: Random.Generator, s: nat, size: nat)
    requires size % 2 == 1
    ensures |GenerateDistribution(g, s, Utils.BimodalTag, size).0| == size - 1
  {
  }

  function DemoSampler(g: Random.Generator, tag: string, size: nat): nat -> (seq<real>, nat)
  {
    st => GenerateDistribution(g, st, tag, size)
  }

  /** `means = [np.mean(generate_distribution(dist_type, sample_size)) for _ in range(num_samples)]`. */
  function Means(g: Random.Generator, s: nat, tag: string, sampleSize: nat, numSamples: nat)
    : (r: seq<Option<real>>)
    ensures |r| == numSamples
    ensures forall j :: 0 <= j < numSamples ==>
      r[j] == Series.Mean(GenerateDistribution(g, Utils.RepeatedMeans(DemoSampler(g, tag, sampleSize), s, j).1,
                                               tag, sampleSize).0)
    ensures tag != Utils.BimodalTag && sampleSize > 0 ==> forall j :: 0 <= j < numSamples ==> r[j].Some?
  {
    var sampler := DemoSampler(g, tag, sampleSize);
    var r := Utils.RepeatedMeans(sampler, s, numSamples).0;
    forall j | 0 <= j < numSamples
      ensures r[j] == Series.Mean(sampler(Utils.RepeatedMeans(sampler, s, j).1).0)
      ensures tag != Utils.BimodalTag && sampleSize > 0 ==> r[j].Some?
    {
      Utils.RepeatedMeansAt(sampler, s, numSamples, j);
    }
    r
  }

  /** A bimodal sample of size 1 is empty, so every mean is NaN. The tab's
      slider starts at 2 and never asks for it. */
  lemma BimodalSizeOneMeansUndefined(g: Random.Generator, s: nat, numSamples: nat, j: nat)
    requires j < numSamples
    ensures Means(g, s, Utils.BimodalTag, 1, numSamples)[j].None?
  {
    Utils.RepeatedMeansAt(DemoSampler(g, Utils.BimodalTag, 1), s, numSamples, j);
  }

  /** The law-of-large-numbers tab draws N(0, 1) for the normal choice and
      U(-1, 1) otherwise. */
  function LlnDraw(choice: string): Random.Draw
  {
    if choice == Utils.NormalTag then Random.Normal(0.0, 1.0) else Random.Uniform(-1.0, 1.0)
  }

  datatype LlnView = LlnView(data: seq<real>, cumulativeAvg: seq<real>, expected: real)

  /** The tab: `trials` values drawn from `LlnDraw(choice)`, their running
      means, and the reference line 0, which is the true mean of that draw. */
  function LawOfLargeNumbersTab(g: Random.Generator, s: nat, choice: string, trials: nat): (v: LlnView)
    ensures |v.data| == trials && |v.cumulativeAvg| == trials
    ensures v.data == Random.Call(g, s, LlnDraw(choice), trials).0
    ensures forall i :: 0 <= i < trials ==>
      v.cumulativeAvg[i] * ((i + 1) as real) == Series.Sum(v.data[..i + 1])
    ensures v.expected == Random.Expectation(LlnDraw(choice))
  {
    var data := Random.Call(g, s, LlnDraw(choice), trials).0;
    LlnView(data, LawOfLargeNumbers.PrefixMeans(data), 0.0)
  }
}
