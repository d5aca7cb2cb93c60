/** The numpy reductions the simulations use (`np.sum`, `np.mean`, `np.min`,
    `np.max`), over sequences of reals. */
module Series {
  import opened Wrappers

  /** Sum of a sequence, accumulated from the front as `np.cumsum` does. */
  function Sum(s: seq<real>): real
  {
    if |s| == 0 then 0.0 else Sum(s[..|s| - 1]) + s[|s| - 1]
  }

  /** `np.mean`: the arithmetic mean; NaN (here `None`) for an empty array. */
  function Mean(s: seq<real>): (r: Option<real>)
    ensures r.Some? <==> |s| > 0
    ensures r.Some? ==> r.value * (|s| as real) == Sum(s)
  {
    if |s| == 0 then None else Some(Sum(s) / (|s| as real))
  }

  /** `np.min` of a non-empty array (numpy raises on an empty one). */
  function Min(s: seq<real>): (m: real)
    requires |s| > 0
    ensures m in s
    ensures forall x :: x in s ==> m <= x
  {
    if |s| == 1 then s[0]
    else
      var rest := Min(s[1..]);
      assert forall x :: x in s ==> x == s[0] || x in s[1..];
      if s[0] <= rest then s[0] else rest
  }

  /** `np.max` of a non-empty array (numpy raises on an empty one). */
  function Max(s: seq<real>): (m: real)
    requires |s| > 0
    ensures m in s
    ensures forall x :: x in s ==> x <= m
  {
    if |s| == 1 then s[0]
    else
      var rest := Max(s[1..]);
      assert forall x :: x in s ==> x == s[0] || x in s[1..];
      if s[0] >= rest then s[0] else rest
  }

  /** A sum of values that are all at least `t` is at least `|s| * t`. */
  lemma {:induction false} SumAtLeast(s: seq<real>, t: real)
    requires forall x :: x in s ==> t <= x
    ensures (|s| as real) * t <= Sum(s)
  {
    if |s| > 0 {
      var init := s[..|s| - 1];
      assert forall x :: x in init ==> x in s;
      SumAtLeast(init, t);
      assert s[|s| - 1] in s;
    }
  }

  /** A sum of values that are all at most `t` is at most `|s| * t`. */
  lemma {:induction false} SumAtMost(s: seq<real>, t: real)
    requires forall x :: x in s ==> x <= t
    ensures Sum(s) <= (|s| as real) * t
  {
    if |s| > 0 {
      var init := s[..|s| - 1];
      assert forall x :: x in init ==> x in s;
      SumAtMost(init, t);
      assert s[|s| - 1] in s;
    }
  }

  /** The mean of values that are all at least `t` is at least `t`. */
  lemma MeanAtLeast(s: seq<real>, t: real)
    requires |s| > 0
    requires forall x :: x in s ==> t <= x
    ensures t <= Mean(s).value
  {
    SumAtLeast(s, t);
    DivideBounds(Sum(s), |s| as real, t, true);
  }

  /** The mean of values that are all at most `t` is at most `t`. */
  lemma MeanAtMost(s: seq<real>, t: real)
    requires |s| > 0
    requires forall x :: x in s ==> x <= t
    ensures Mean(s).value <= t
  {
    SumAtMost(s, t);
    DivideBounds(Sum(s), |s| as real, t, false);
  }

  /** The mean of a non-empty array lies between its minimum and its maximum. */
  lemma MeanBetweenMinMax(s: seq<real>)
    requires |s| > 0
    ensures Min(s) <= Mean(s).value <= Max(s)
  {
    MeanAtLeast(s, Min(s));
    MeanAtMost(s, Max(s));
  }

  lemma DivideBounds(total: real, n: real, t: real, below: bool)
    requires n > 0.0
    requires below ==> n * t <= total
    requires !below ==> total <= n * t
    ensures below ==> t <= total / n
    ensures !below ==> total / n <= t
  {
  }
}
