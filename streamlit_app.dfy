/** The single-page app: its central-limit tab (`generate` and the `means`
    list) and its law-of-large-numbers tab (`sample`, `cumulative`,
    `expected`). */
module StreamlitApp {
  import opened Wrappers
  import Series
  import Random
  import Utils
  import LawOfLargeNumbers

  /** `generate`: the same fixed shapes as `calculate_sample_means`: U(0, 1),
      Exp(1), the two-block bimodal sample, and N(0, 1) for any other tag. */
  function Generate(g: Random.Generator, s: nat, tag: string, size: nat): (r: (seq<real>, nat))
    ensures |r.0| == size
    ensures tag == Utils.UniformTag ==> r == Random.Call(g, s, Random.Uniform(0.0, 1.0), size)
    ensures tag == Utils.ExponentialTag ==> r == Random.Call(g, s, Random.Exponential(1.0), size)
    ensures tag !in {Utils.UniformTag, Utils.ExponentialTag, Utils.BimodalTag} ==>
      r == Random.Call(g, s, Random.Normal(0.0, 1.0), size)
    ensures tag == Utils.BimodalTag ==>
      && (forall i :: 0 <= i < size / 2 ==>
            r.0[i] == g.value(s, Random.Normal(-2.0, 1.0), size / 2, i))
      && (forall i :: size / 2 <= i < size ==>
            r.0[i] == g.value(g.next(s, Random.Normal(-2.0, 1.0), size / 2),
                              Random.Normal(2.0, 1.0), size - size / 2, i - size / 2))
  {
    Utils.Generate(g, s, Utils.CltShape(tag), size)
  }

  /** `means = [np.mean(generate(dist_type, sample_size)) for _ in range(num_samples)]`:
      one mean per sample, sample `j` drawn in the state the first `j` left. */
  function Means(g: Random.Generator, s: nat, tag: string, sampleSize: nat, numSamples: nat)
    : (r: seq<Option<real>>)
    ensures |r| == numSamples
    ensures forall j :: 0 <= j < numSamples ==>
      r[j] == Series.Mean(Generate(g, Utils.RepeatedMeans(Utils.Sampler(g, Utils.CltShape(tag), sampleSize), s, j).1,
                                   tag, sampleSize).0)
  {
    var sampler := Utils.Sampler(g, Utils.CltShape(tag), sampleSize);
    var r := Utils.RepeatedMeans(sampler, s, numSamples).0;
    assert forall j :: 0 <= j < numSamples ==>
      r[j] == Series.Mean(sampler(Utils.RepeatedMeans(sampler, s, j).1).0) by {
      forall j | 0 <= j < numSamples
        ensures r[j] == Series.Mean(sampler(Utils.RepeatedMeans(sampler, s, j).1).0)
      {
        Utils.RepeatedMeansAt(sampler, s, numSamples, j);
      }
    }
    r
  }

  /** The law-of-large-numbers tab's `sample`: uniform and exponential tags
      draw U(0, 1) and Exp(1); every other tag, the bimodal one included,
      draws N(0, 1). */
  function LlnShape(tag: string): (sp: Utils.Spec)
    ensures tag in {Utils.UniformTag, Utils.ExponentialTag} ==> sp == Utils.Defaults(Utils.FamilyOf(tag))
    ensures tag !in {Utils.UniformTag, Utils.ExponentialTag} ==> sp == Utils.NormalSpec(0.0, 1.0)
  {
    if tag == Utils.UniformTag then Utils.UniformSpec(0.0, 1.0)
    else if tag == Utils.ExponentialTag then Utils.ExponentialSpec(1.0)
    else Utils.NormalSpec(0.0, 1.0)
  }

  /** What the tab plots: the data, its running means and the horizontal line. */
  datatype LlnView = LlnView(data: seq<real>, cumulative: seq<real>, expected: Option<real>)

  /** The tab: `trials` values drawn from `LlnShape(tag)`, their running
      means, and as "theoretical" line the empirical mean of the same data,
      which is the last running mean (and NaN for no trials). */
  function LawOfLargeNumbersTab(g: Random.Generator, s: nat, tag: string, trials: nat): (v: LlnView)
    ensures |v.data| == trials && |v.cumulative| == trials
    ensures v.data == Utils.Generate(g, s, LlnShape(tag), trials).0
    ensures tag !in {Utils.UniformTag, Utils.ExponentialTag} ==>
      v.data == Random.Call(g, s, Random.Normal(0.0, 1.0), trials).0
    ensures v.expected == Series.Mean(v.data)
    ensures v.cumulative == LawOfLargeNumbers.PrefixMeans(v.data)
    ensures trials > 0 ==> v.expected == Some(v.cumulative[trials - 1])
    ensures trials == 0 ==> v.expected.None?
  {
    var data := Utils.Generate(g, s, LlnShape(tag), trials).0;
    var v := LlnView(data, LawOfLargeNumbers.PrefixMeans(data), Series.Mean(data));
    if trials > 0 then LawOfLargeNumbers.PrefixMeanLast(data); v else v
  }
}
