/** The exponentially weighted moving average of the forecaster, and the identical local
    copy in the cache-isolation controller. */
module Ewma {

  /** The smoothing factor a constructor settles on. */
  function ClampAlpha(alpha: real): (a: real)
    ensures 0.0 < a <= 1.0
    ensures 0.0 < alpha <= 1.0 ==> a == alpha
    ensures alpha > 1.0 ==> a == 1.0
    ensures alpha <= 0.0 ==> a == 0.3
  {
    if alpha <= 0.0 then 0.3 else if alpha > 1.0 then 1.0 else alpha
  }

  datatype Avg = Avg(value: real, init: bool)

  function Fold(alpha: real, a: Avg, x: real): Avg {
    if !a.init then Avg(x, true) else Avg(alpha * x + (1.0 - alpha) * a.value, true)
  }

  function FoldAll(alpha: real, xs: seq<real>): Avg {
    if xs == [] then Avg(0.0, false) else Fold(alpha, FoldAll(alpha, xs[..|xs| - 1]), xs[|xs| - 1])
  }

  lemma NonNegative(a: real, b: real)
    requires a >= 0.0 && b >= 0.0
    ensures a * b >= 0.0
  {}

  lemma Between(alpha: real, x: real, v: real, lo: real, hi: real)
    requires 0.0 < alpha <= 1.0 && lo <= x <= hi && lo <= v <= hi
    ensures lo <= alpha * x + (1.0 - alpha) * v <= hi
  {
    NonNegative(alpha, x - lo);
    NonNegative(1.0 - alpha, v - lo);
    NonNegative(alpha, hi - x);
    NonNegative(1.0 - alpha, hi - v);
  }

  /** The average of a non-empty run of samples lies within any bounds on the samples. */
  lemma {:induction false} AverageWithinSamples(alpha: real, xs: seq<real>, lo: real, hi: real)
    requires 0.0 < alpha <= 1.0 && xs != [] && forall i :: 0 <= i < |xs| ==> lo <= xs[i] <= hi
    ensures FoldAll(alpha, xs).init && lo <= FoldAll(alpha, xs).value <= hi
  {
    var front := xs[..|xs| - 1];
    if front != [] {
      AverageWithinSamples(alpha, front, lo, hi);
      Between(alpha, xs[|xs| - 1], FoldAll(alpha, front).value, lo, hi);
    }
  }

  // ----------------------------------------------------------------------- closed form

  function Power(x: real, k: nat): real { if k == 0 then 1.0 else x * Power(x, k - 1) }

  /** What sample `i` counts after `n` samples: a new sample counts `alpha` and every later one
      scales it by what `alpha` leaves; the first sample started out counting fully. */
  function Weight(alpha: real, n: nat, i: nat): real
    requires i < n
  {
    if i == 0 then Power(1.0 - alpha, n - 1) else alpha * Power(1.0 - alpha, n - 1 - i)
  }

  function Times(a: real, b: real): real { a * b }

  /** The weighted sum of the first `m` of `n` samples. */
  function Weighted(alpha: real, xs: seq<real>, n: nat, m: nat): real
    requires m <= n && m <= |xs|
  {
    if m == 0 then 0.0 else Weighted(alpha, xs, n, m - 1) + Times(Weight(alpha, n, m - 1), xs[m - 1])
  }

  lemma WeightShrinks(alpha: real, n: nat, i: nat, x: real)
    requires i < n
    ensures Times(Weight(alpha, n + 1, i), x) == Times(1.0 - alpha, Times(Weight(alpha, n, i), x))
  {
    var p := if i == 0 then Power(1.0 - alpha, n - 1) else Power(1.0 - alpha, n - 1 - i);
    if i > 0 {
      assert alpha * ((1.0 - alpha) * p) == (1.0 - alpha) * (alpha * p);
    }
  }

  lemma Distribute(a: real, b: real, c: real)
    ensures Times(a, b + c) == Times(a, b) + Times(a, c) && Times(a, 0.0) == 0.0
  {}

  lemma {:induction false} WeightedShrinks(alpha: real, xs: seq<real>, m: nat)
    requires m < |xs|
    ensures Weighted(alpha, xs, |xs|, m) == Times(1.0 - alpha, Weighted(alpha, xs[..|xs| - 1], |xs| - 1, m))
  {
    hide Weight, Times;
    var front, n := xs[..|xs| - 1], |xs| - 1;
    if m == 0 {
      Distribute(1.0 - alpha, 0.0, 0.0);
    } else {
      WeightedShrinks(alpha, xs, m - 1);
      WeightShrinks(alpha, n, m - 1, xs[m - 1]);
      Distribute(1.0 - alpha, Weighted(alpha, front, n, m - 1), Times(Weight(alpha, n, m - 1), xs[m - 1]));
    }
  }

  lemma NewestWeight(alpha: real, n: nat)
    requires n > 0
    ensures Weight(alpha, n + 1, n) == alpha && Weight(alpha, 1, 0) == 1.0
  {}

  lemma FoldTimes(alpha: real, v: real, x: real)
    ensures Fold(alpha, Avg(v, true), x) == Avg(Times(1.0 - alpha, v) + Times(alpha, x), true)
    ensures Fold(alpha, Avg(v, false), x) == Avg(Times(1.0, x), true)
  {}

  /** The average of a run in closed form: the sum of its samples, each with its weight. */
  lemma {:induction false} AverageIsWeighted(alpha: real, xs: seq<real>)
    requires xs != []
    ensures FoldAll(alpha, xs) == Avg(Weighted(alpha, xs, |xs|, |xs|), true)
  {
    hide Weight, Times, Fold;
    var n := |xs| - 1;
    NewestWeight(alpha, if n == 0 then 1 else n);
    if n == 0 {
      assert xs[..0] == [] && Weighted(alpha, xs, 1, 0) == 0.0;
      FoldTimes(alpha, 0.0, xs[0]);
    } else {
      AverageIsWeighted(alpha, xs[..n]);
      WeightedShrinks(alpha, xs, n);
      FoldTimes(alpha, Weighted(alpha, xs[..n], n, n), xs[n]);
    }
  }

  class Smoother {
    const alpha: real
    var value: real
    var init: bool

    ghost function View(): Avg
      reads this
    {
      Avg(value, init)
    }

    constructor (alpha: real)
      ensures this.alpha == ClampAlpha(alpha) && View() == Avg(0.0, false)
    {
      this.alpha := ClampAlpha(alpha);
      value, init := 0.0, false;
    }

    method Update(x: real) returns (r: real)
      modifies this
      ensures View() == Fold(alpha, old(View()), x) && r == value
    {
      if !init {
        value := x;
        init := true;
        return value;
      }
      value := alpha * x + (1.0 - alpha) * value;
      r := value;
    }
  }
}
