/** The law-of-small-numbers tab: `num_sim` sample means of small samples,
    the generator reseeded with `i + 1000` before simulation `i`. */
module SmallSamples {
  import opened Wrappers
  import Series
  import Random
  import Utils

  /** The four families the tab's select box offers. Any other tag would
      leave `sample` unbound on the first iteration. */
  predicate Offered(tag: string)
  {
    tag in {Utils.NormalTag, Utils.UniformTag, Utils.ExponentialTag, Utils.BimodalTag}
  }

  /** The fixed shape each offered tag samples: the family's default
      parameters, the same shapes `calculate_sample_means` uses. */
  function SmallShape(tag: string): (s: Utils.Spec)
    requires Offered(tag)
    ensures s == Utils.Defaults(Utils.FamilyOf(tag))
    ensures s == Utils.CltShape(tag)
  {
    if tag == Utils.NormalTag then Utils.NormalSpec(0.0, 1.0)
    else if tag == Utils.UniformTag then Utils.UniformSpec(0.0, 1.0)
    else if tag == Utils.ExponentialTag then Utils.ExponentialSpec(1.0)
    else Utils.BimodalSpec(-2.0, 2.0, 1.0, 1.0)
  }

  /** The generator state after `np.random.seed(i + 1000)`. */
  function SeedFor(g: Random.Generator, i: nat): nat
  {
    g.seed(i + 1000)
  }

  /** Simulation `i`'s sample: `n` values drawn right after reseeding, so it
      depends on the tag, `n` and `i` only. The bimodal sample is `n // 2`
      values of N(-2, 1) followed by `n - n // 2` values of N(2, 1). */
  function SeededSample(g: Random.Generator, tag: string, n: nat, i: nat): (r: seq<real>)
    requires Offered(tag)
    ensures |r| == n
    ensures tag != Utils.BimodalTag ==> r == Random.Call(g, SeedFor(g, i), Utils.Draws(SmallShape(tag))[0], n).0
    ensures tag == Utils.BimodalTag ==>
      && (forall j :: 0 <= j < n / 2 ==>
            r[j] == g.value(SeedFor(g, i), Random.Normal(-2.0, 1.0), n / 2, j))
      && (forall j :: n / 2 <= j < n ==>
            r[j] == g.value(g.next(SeedFor(g, i), Random.Normal(-2.0, 1.0), n / 2),
                            Random.Normal(2.0, 1.0), n - n / 2, j - n / 2))
  {
    Utils.Generate(g, SeedFor(g, i), SmallShape(tag), n).0
  }

  /** The means of simulations `0 .. k - 1`, in order. */
  function SeededMeans(g: Random.Generator, tag: string, n: nat, k: nat): (r: seq<Option<real>>)
    requires Offered(tag)
    ensures |r| == k
  {
    if k == 0 then [] else SeededMeans(g, tag, n, k - 1) + [Series.Mean(SeededSample(g, tag, n, k - 1))]
  }

  /** Element `i` is the mean of simulation `i`'s own sample, whatever the
      number of simulations. */
  lemma {:induction false} SeededMeansAt(g: Random.Generator, tag: string, n: nat, k: nat, i: nat)
    requires Offered(tag) && i < k
    ensures SeededMeans(g, tag, n, k)[i] == Series.Mean(SeededSample(g, tag, n, i))
  {
    if i < k - 1 {
      SeededMeansAt(g, tag, n, k - 1, i);
    }
  }

  /** Raising the number of simulations only appends means. */
  lemma {:induction false} SeededMeansPrefix(g: Random.Generator, tag: string, n: nat, j: nat, k: nat)
    requires Offered(tag) && j <= k
    ensures SeededMeans(g, tag, n, k)[..j] == SeededMeans(g, tag, n, j)
  {
    if j < k {
      SeededMeansPrefix(g, tag, n, j, k - 1);
      assert SeededMeans(g, tag, n, k)[..k - 1] == SeededMeans(g, tag, n, k - 1);
    }
  }

  /** The tab's loop: reseed, draw `nSmall` values, append their mean. */
  method SmallSampleMeans(g: Random.Generator, tag: string, nSmall: nat, numSim: nat)
    returns (means: seq<Option<real>>)
    requires Offered(tag)
    ensures means == SeededMeans(g, tag, nSmall, numSim)
  {
    means := [];
    var i := 0;
    while i < numSim
      invariant i <= numSim
      invariant means == SeededMeans(g, tag, nSmall, i)
    {
      var state := SeedFor(g, i);
      var (sample, _) := Utils.Generate(g, state, SmallShape(tag), nSmall);
      means := means + [Series.Mean(sample)];
      i := i + 1;
    }
  }
}
