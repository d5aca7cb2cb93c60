/** The shared simulation helpers of the teaching app: distribution dispatch by
    family tag, the bimodal generator, repeated sample means for the
    central-limit demonstration, and the guarded summary statistics. */
module Utils {
  import opened Wrappers
  import Series
  import Random

  // The family tags, as the app's select boxes spell them.
  const NormalTag: string := "Нормальное"
  const UniformTag: string := "Равномерное"
  const ExponentialTag: string := "Экспоненциальное"
  const BimodalTag: string := "Бимодальное"
  const BinomialTag: string := "Биномиальное"
  const PoissonTag: string := "Пуассона"

  datatype Family = Normal | Uniform | Exponential | Bimodal | Binomial | Poisson

  function TagOf(f: Family): string
  {
    match f
    case Normal => NormalTag
    case Uniform => UniformTag
    case Exponential => ExponentialTag
    case Bimodal => BimodalTag
    case Binomial => BinomialTag
    case Poisson => PoissonTag
  }

  /** A tag the dispatch table has an entry for. */
  predicate Known(tag: string)
  {
    tag in {NormalTag, UniformTag, ExponentialTag, BimodalTag, BinomialTag, PoissonTag}
  }

  /** The family a tag selects: its own entry, or Normal for any other tag
      (`distributions.get(dist_type, distributions["Нормальное"])`). */
  function FamilyOf(tag: string): (f: Family)
    ensures Known(tag) ==> TagOf(f) == tag
    ensures !Known(tag) ==> f == Normal
  {
    if tag == UniformTag then Uniform
    else if tag == ExponentialTag then Exponential
    else if tag == BimodalTag then Bimodal
    else if tag == BinomialTag then Binomial
    else if tag == PoissonTag then Poisson
    else Normal
  }

  /** Every family's tag selects that family again. */
  lemma FamilyOfTagOf(f: Family)
    ensures Known(TagOf(f)) && FamilyOf(TagOf(f)) == f
  {
  }

  /** Named numeric parameters (`**params`). */
  type Params = map<string, real>

  /** `params.get(key, default)`. */
  function Get(params: Params, key: string, default: real): real
  {
    if key in params then params[key] else default
  }

  /** A family together with all of its parameters. */
  datatype Spec =
    | NormalSpec(mu: real, sigma: real)
    | UniformSpec(a: real, b: real)
    | ExponentialSpec(scale: real)
    | BimodalSpec(mu1: real, mu2: real, sigma1: real, sigma2: real)
    | BinomialSpec(n: real, p: real)
    | PoissonSpec(lam: real)

  function FamilyOfSpec(s: Spec): Family
  {
    match s
    case NormalSpec(_, _) => Normal
    case UniformSpec(_, _) => Uniform
    case ExponentialSpec(_) => Exponential
    case BimodalSpec(_, _, _, _) => Bimodal
    case BinomialSpec(_, _) => Binomial
    case PoissonSpec(_) => Poisson
  }

  /** The parameter a spec holds under the name `key`, if its family has one. */
  function Field(s: Spec, key: string): Option<real>
  {
    match s
    case NormalSpec(mu, sigma) =>
      if key == "mu" then Some(mu) else if key == "sigma" then Some(sigma) else None
    case UniformSpec(a, b) =>
      if key == "a" then Some(a) else if key == "b" then Some(b) else None
    case ExponentialSpec(scale) =>
      if key == "scale" then Some(scale) else None
    case BimodalSpec(mu1, mu2, sigma1, sigma2) =>
      if key == "mu1" then Some(mu1) else if key == "mu2" then Some(mu2)
      else if key == "sigma1" then Some(sigma1) else if key == "sigma2" then Some(sigma2)
      else None
    case BinomialSpec(n, p) =>
      if key == "n" then Some(n) else if key == "p" then Some(p) else None
    case PoissonSpec(lam) =>
      if key == "lam" then Some(lam) else None
  }

  /** The parameters each family takes when none is supplied. */
  function Defaults(f: Family): (s: Spec)
    ensures FamilyOfSpec(s) == f
  {
    match f
    case Normal => NormalSpec(0.0, 1.0)
    case Uniform => UniformSpec(0.0, 1.0)
    case Exponential => ExponentialSpec(1.0)
    case Bimodal => BimodalSpec(-2.0, 2.0, 1.0, 1.0)
    case Binomial => BinomialSpec(20.0, 0.5)
    case Poisson => PoissonSpec(5.0)
  }

  /** The generator `generate_distribution_data` picks for `tag` and `params`. */
  function SpecOf(tag: string, params: Params): (s: Spec)
    ensures FamilyOfSpec(s) == FamilyOf(tag)
    ensures params == map[] ==> s == Defaults(FamilyOf(tag))
  {
    match FamilyOf(tag)
    case Normal => NormalSpec(Get(params, "mu", 0.0), Get(params, "sigma", 1.0))
    case Uniform => UniformSpec(Get(params, "a", 0.0), Get(params, "b", 1.0))
    case Exponential => ExponentialSpec(Get(params, "scale", 1.0))
    case Bimodal =>
      BimodalSpec(Get(params, "mu1", -2.0), Get(params, "mu2", 2.0),
                  Get(params, "sigma1", 1.0), Get(params, "sigma2", 1.0))
    case Binomial => BinomialSpec(Get(params, "n", 20.0), Get(params, "p", 0.5))
    case Poisson => PoissonSpec(Get(params, "lam", 5.0))
  }

  /** Each parameter of the selected family is the supplied value when the
      caller named it and the family's default otherwise; the selected spec has
      exactly the default spec's parameter names, so other keys are ignored. */
  lemma SpecOfParams(tag: string, params: Params, key: string)
    ensures Field(SpecOf(tag, params), key).Some? <==> Field(Defaults(FamilyOf(tag)), key).Some?
    ensures Field(SpecOf(tag, params), key).Some? ==>
      Field(SpecOf(tag, params), key).value ==
        if key in params then params[key] else Field(Defaults(FamilyOf(tag)), key).value
  {
  }

  /** The numpy calls a spec makes, in order. */
  function Draws(s: Spec): seq<Random.Draw>
  {
    match s
    case NormalSpec(mu, sigma) => [Random.Normal(mu, sigma)]
    case UniformSpec(a, b) => [Random.Uniform(a, b)]
    case ExponentialSpec(scale) => [Random.Exponential(scale)]
    case BimodalSpec(mu1, mu2, sigma1, sigma2) => [Random.Normal(mu1, sigma1), Random.Normal(mu2, sigma2)]
    case BinomialSpec(n, p) => [Random.Binomial(n, p)]
    case PoissonSpec(lam) => [Random.Poisson(lam)]
  }

  /** numpy raises for this spec: one of its calls has parameters it refuses. */
  predicate Rejects(s: Spec)
  {
    exists i :: 0 <= i < |Draws(s)| && Random.Rejects(Draws(s)[i])
  }

  /** `generate_bimodal_data`: `size // 2` draws of the first component
      followed by `size - size // 2` draws of the second, made with the state
      the first call left; the two blocks are concatenated, never interleaved. */
  function GenerateBimodal(g: Random.Generator, s: nat, size: nat,
                           mu1: real, mu2: real, sigma1: real, sigma2: real): (r: (seq<real>, nat))
    ensures |r.0| == size
    ensures forall i :: 0 <= i < size / 2 ==>
      r.0[i] == g.value(s, Random.Normal(mu1, sigma1), size / 2, i)
    ensures forall i :: size / 2 <= i < size ==>
      r.0[i] == g.value(g.next(s, Random.Normal(mu1, sigma1), size / 2),
                        Random.Normal(mu2, sigma2), size - size / 2, i - size / 2)
  {
    var half := size / 2;
    var (first, s1) := Random.Call(g, s, Random.Normal(mu1, sigma1), half);
    var (second, s2) := Random.Call(g, s1, Random.Normal(mu2, sigma2), size - half);
    (first + second, s2)
  }

  /** Draws `size` values of `spec` in generator state `s`; also gives the
      state afterwards. */
  function Generate(g: Random.Generator, s: nat, spec: Spec, size: nat): (r: (seq<real>, nat))
    ensures |r.0| == size
    ensures !spec.BimodalSpec? ==> r == Random.Call(g, s, Draws(spec)[0], size)
    ensures spec.BimodalSpec? ==>
      r == GenerateBimodal(g, s, size, spec.mu1, spec.mu2, spec.sigma1, spec.sigma2)
  {
    match spec
    case NormalSpec(mu, sigma) => Random.Call(g, s, Random.Normal(mu, sigma), size)
    case UniformSpec(a, b) => Random.Call(g, s, Random.Uniform(a, b), size)
    case ExponentialSpec(scale) => Random.Call(g, s, Random.Exponential(scale), size)
    case BimodalSpec(mu1, mu2, sigma1, sigma2) => GenerateBimodal(g, s, size, mu1, mu2, sigma1, sigma2)
    case BinomialSpec(n, p) => Random.Call(g, s, Random.Binomial(n, p), size)
    case PoissonSpec(lam) => Random.Call(g, s, Random.Poisson(lam), size)
  }

  /** `generate_distribution_data(dist_type, size, **params)`: `None` when
      numpy raises for the selected parameters (the exception propagates),
      otherwise exactly `size` values of the selected spec. */
  function GenerateDistributionData(g: Random.Generator, s: nat, tag: string, params: Params, size: nat)
    : (r: Option<(seq<real>, nat)>)
    ensures r.None? <==> Rejects(SpecOf(tag, params))
    ensures r.Some? ==> |r.value.0| == size
    ensures r.Some? ==> r.value == Generate(g, s, SpecOf(tag, params), size)
  {
    var spec := SpecOf(tag, params);
    if Rejects(spec) then None else Some(Generate(g, s, spec, size))
  }

  /** An unrecognised tag behaves exactly as the Normal tag. */
  lemma UnknownTagIsNormal(g: Random.Generator, s: nat, tag: string, params: Params, size: nat)
    requires !Known(tag)
    ensures GenerateDistributionData(g, s, tag, params, size)
         == GenerateDistributionData(g, s, NormalTag, params, size)
  {
  }

  /** With no parameters supplied, every tag generates without an error. */
  lemma DefaultsAccepted(g: Random.Generator, s: nat, tag: string, size: nat)
    ensures GenerateDistributionData(g, s, tag, map[], size).Some?
  {
  }

  /** The fixed shape `calculate_sample_means` samples for a tag. */
  function CltShape(tag: string): (s: Spec)
    ensures tag in {UniformTag, ExponentialTag, BimodalTag} ==> s == Defaults(FamilyOf(tag))
    ensures tag !in {UniformTag, ExponentialTag, BimodalTag} ==> s == Defaults(Normal)
  {
    if tag == UniformTag then UniformSpec(0.0, 1.0)
    else if tag == ExponentialTag then ExponentialSpec(1.0)
    else if tag == BimodalTag then BimodalSpec(-2.0, 2.0, 1.0, 1.0)
    else NormalSpec(0.0, 1.0)
  }

  /** One sample of `size` values of `shape`, as a function of generator state. */
  function Sampler(g: Random.Generator, shape: Spec, size: nat): nat -> (seq<real>, nat)
  {
    st => Generate(g, st, shape, size)
  }

  /** The means of `k` successive samples, each drawn in the state the
      previous one left, and the final state. */
  function RepeatedMeans(sampler: nat -> (seq<real>, nat), s: nat, k: nat): (r: (seq<Option<real>>, nat))
    ensures |r.0| == k
  {
    if k == 0 then ([], s)
    else
      var (prev, st) := RepeatedMeans(sampler, s, k - 1);
      var (sample, st') := sampler(st);
      (prev + [Series.Mean(sample)], st')
  }

  /** Element `j` is the mean of the `j`-th sample: the one drawn in the state
      that the first `j` samples left. */
  lemma {:induction false} RepeatedMeansAt(sampler: nat -> (seq<real>, nat), s: nat, k: nat, j: nat)
    requires j < k
    ensures RepeatedMeans(sampler, s, k).0[j]
         == Series.Mean(sampler(RepeatedMeans(sampler, s, j).1).0)
  {
    if j < k - 1 {
      RepeatedMeansAt(sampler, s, k - 1, j);
    }
  }

  /** Asking for more samples only appends: the first `j` means do not change. */
  lemma {:induction false} RepeatedMeansPrefix(sampler: nat -> (seq<real>, nat), s: nat, j: nat, k: nat)
    requires j <= k
    ensures RepeatedMeans(sampler, s, k).0[..j] == RepeatedMeans(sampler, s, j).0
  {
    if j < k {
      RepeatedMeansPrefix(sampler, s, j, k - 1);
      assert RepeatedMeans(sampler, s, k).0[..k - 1] == RepeatedMeans(sampler, s, k - 1).0;
    }
  }

  /** When every sample is non-empty, every mean is defined (no NaN). */
  lemma {:induction false} RepeatedMeansDefined(g: Random.Generator, shape: Spec, size: nat, s: nat, k: nat)
    requires size > 0
    ensures forall j :: 0 <= j < k ==> RepeatedMeans(Sampler(g, shape, size), s, k).0[j].Some?
  {
    forall j | 0 <= j < k
      ensures RepeatedMeans(Sampler(g, shape, size), s, k).0[j].Some?
    {
      RepeatedMeansAt(Sampler(g, shape, size), s, k, j);
    }
  }

  /** `calculate_sample_means`: `numSamples` means of samples of `sampleSize`
      values of the tag's fixed shape; also gives the generator state after. */
  method CalculateSampleMeans(g: Random.Generator, s: nat, tag: string, sampleSize: nat, numSamples: nat)
    returns (means: seq<Option<real>>, sOut: nat)
    ensures (means, sOut) == RepeatedMeans(Sampler(g, CltShape(tag), sampleSize), s, numSamples)
  {
    means, sOut := [], s;
    var i := 0;
    while i < numSamples
      invariant i <= numSamples
      invariant (means, sOut) == RepeatedMeans(Sampler(g, CltShape(tag), sampleSize), s, i)
    {
      var (sample, next) := Generate(g, sOut, CltShape(tag), sampleSize);
      means, sOut := means + [Series.Mean(sample)], next;
      i := i + 1;
    }
  }

  /** numpy-backed estimators whose formulas are not part of this model:
      `np.median`, `np.std`, `stats.skew`, `stats.kurtosis` (the last two may
      give NaN, here `None`). */
  datatype Estimators = Estimators(
    median: seq<real> -> real,
    std: seq<real> -> real,
    skew: seq<real> -> Option<real>,
    kurtosis: seq<real> -> Option<real>)

  /** The seven statistics `safe_statistics` reports; `None` is NaN. */
  datatype Summary = Summary(
    mean: Option<real>, median: Option<real>, std: Option<real>,
    min: Option<real>, max: Option<real>,
    skewness: Option<real>, kurtosis: Option<real>)

  const Undefined: Summary := Summary(None, None, None, None, None, None, None)

  /** `safe_statistics`: every field is NaN when any statistic raises (only
      `np.min`/`np.max` do, on an empty array); otherwise every field is
      defined except skewness and kurtosis for two values or fewer. */
  function SafeStatistics(data: seq<real>, est: Estimators): (r: Summary)
    ensures |data| == 0 <==> r == Undefined
    ensures r.mean.None? ==> r == Undefined
    ensures |data| > 0 ==>
      && r.mean == Series.Mean(data)
      && r.median == Some(est.median(data))
      && r.std == Some(est.std(data))
      && r.min == Some(Series.Min(data))
      && r.max == Some(Series.Max(data))
    ensures |data| > 0 ==> r.min.value <= r.mean.value <= r.max.value
    ensures |data| <= 2 ==> r.skewness.None? && r.kurtosis.None?
    ensures |data| > 2 ==> r.skewness == est.skew(data) && r.kurtosis == est.kurtosis(data)
  {
    if |data| == 0 then Undefined
    else
      Series.MeanBetweenMinMax(data);
      Summary(
        Series.Mean(data), Some(est.median(data)), Some(est.std(data)),
        Some(Series.Min(data)), Some(Series.Max(data)),
        if |data| > 2 then est.skew(data) else None,
        if |data| > 2 then est.kurtosis(data) else None)
  }
}
