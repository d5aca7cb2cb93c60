/** numpy's process-wide random generator (`np.random`), seen from outside.
    Its draws are not computed here: a `Generator` value supplies them, so
    every simulation below is a function of the generator and its state. */
module Random {

  /** The distribution of the values of one `np.random.<name>(..., size)` call. */
  datatype Draw =
    | Normal(mu: real, sigma: real)
    | Uniform(low: real, high: real)
    | Exponential(scale: real)
    | Binomial(trials: real, p: real)
    | Poisson(lam: real)

  /** The generator's behaviour. Its internal state is an opaque number:
      `value(s, d, count, i)` is the `i`-th value returned by a call that draws
      `count` values of `d` in state `s`, `next(s, d, count)` is the state that
      call leaves behind, and `seed(k)` is the state `np.random.seed(k)` sets. */
  datatype Generator = Generator(
    value: (nat, Draw, nat, nat) -> real,
    next: (nat, Draw, nat) -> nat,
    seed: nat -> nat)

  /** Parameters numpy refuses with `ValueError`: a negative scale for the
      normal and exponential families, a negative trial count or a success
      probability outside [0, 1] for the binomial, a negative rate for the
      Poisson. `np.random.uniform` accepts any pair of bounds. */
  predicate Rejects(d: Draw)
  {
    match d
    case Normal(_, sigma) => sigma < 0.0
    case Uniform(_, _) => false
    case Exponential(scale) => scale < 0.0
    case Binomial(trials, p) => trials < 0.0 || p < 0.0 || p > 1.0
    case Poisson(lam) => lam < 0.0
  }

  /** The expectation of a single value of `d` (the population mean). */
  function Expectation(d: Draw): real
  {
    match d
    case Normal(mu, _) => mu
    case Uniform(low, high) => (low + high) / 2.0
    case Exponential(scale) => scale
    case Binomial(trials, p) => trials * p
    case Poisson(lam) => lam
  }

  /** One call drawing `count` values of `d` in state `s`: the values, in draw
      order, and the state after the call. */
  function Call(g: Generator, s: nat, d: Draw, count: nat): (r: (seq<real>, nat))
    ensures |r.0| == count
    ensures forall i :: 0 <= i < count ==> r.0[i] == g.value(s, d, count, i)
    ensures r.1 == g.next(s, d, count)
  {
    (seq(count, i requires 0 <= i < count => g.value(s, d, count, i)), g.next(s, d, count))
  }
}
