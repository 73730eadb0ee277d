/** The regression behind the forecaster's velocity: samples `ys[0], ys[1], …` at positions
    0, 1, … and the line that fits them best. */
module LeastSquares {

  function SumX(n: nat): real { if n == 0 then 0.0 else SumX(n - 1) + (n - 1) as real }

  function Prod(a: real, b: real): real { a * b }

  function SumXX(n: nat): real { if n == 0 then 0.0 else SumXX(n - 1) + Prod((n - 1) as real, (n - 1) as real) }

  function SumY(ys: seq<real>): real {
    if ys == [] then 0.0 else SumY(ys[..|ys| - 1]) + ys[|ys| - 1]
  }

  function SumXY(ys: seq<real>): real {
    if ys == [] then 0.0 else SumXY(ys[..|ys| - 1]) + Prod((|ys| - 1) as real, ys[|ys| - 1])
  }

  /** Denominator and numerator of the slope, from the four sums. */
  function DenomOf(n: real, sx: real, sxx: real): real { n * sxx - sx * sx }

  function NumerOf(n: real, sx: real, sy: real, sxy: real): real { n * sxy - sx * sy }

  function Ratio(a: real, b: real): real
    requires b != 0.0
  {
    a / b
  }

  function Denom(n: nat): real { DenomOf(n as real, SumX(n), SumXX(n)) }

  /** The slope per step; the code's guard for a zero denominator included. */
  function Slope(ys: seq<real>): real {
    var n := |ys|;
    if n < 2 || Denom(n) == 0.0 then 0.0
    else Ratio(NumerOf(n as real, SumX(n), SumY(ys), SumXY(ys)), Denom(n))
  }

  lemma {:induction false} ClosedForms(n: nat)
    ensures 2.0 * SumX(n) == n as real * (n as real - 1.0)
    ensures 6.0 * SumXX(n) == (n as real - 1.0) * n as real * (2.0 * n as real - 1.0)
  {
    if n > 0 {
      ClosedForms(n - 1);
      var x := (n - 1) as real;
      assert n as real == x + 1.0;
      assert 2.0 * SumX(n) == x * (x - 1.0) + 2.0 * x == (x + 1.0) * x;
      assert 6.0 * SumXX(n) == (x - 1.0) * x * (2.0 * x - 1.0) + 6.0 * (x * x);
      Cube(x);
    }
  }

  lemma Cube(x: real)
    ensures (x - 1.0) * x * (2.0 * x - 1.0) + 6.0 * (x * x) == x * (x + 1.0) * (2.0 * (x + 1.0) - 1.0)
  {
    var q, c := x * x, x * x * x;
    assert (x - 1.0) * x == q - x;
    assert (q - x) * (2.0 * x - 1.0) == 2.0 * c - 3.0 * q + x;
    assert x * (x + 1.0) == q + x;
    assert (q + x) * (2.0 * x + 1.0) == 2.0 * c + 3.0 * q + x;
  }

  /** Two samples are enough for a regression: the zero guard is dead from then on. */
  lemma DenomPositive(n: nat)
    requires n >= 2
    ensures 12.0 * Denom(n) == (n as real * n as real) * (n as real * n as real - 1.0)
    ensures Denom(n) > 0.0
  {
    ClosedForms(n);
    var x, a, b := n as real, SumX(n), SumXX(n);
    var q := x * x;
    assert 12.0 * (x * b) == 2.0 * (x * (6.0 * b));
    assert x * (6.0 * b) == x * ((x - 1.0) * x * (2.0 * x - 1.0));
    assert (x - 1.0) * x == q - x;
    assert (q - x) * (2.0 * x - 1.0) == 2.0 * (q * x) - 3.0 * q + x;
    assert x * (2.0 * (q * x) - 3.0 * q + x) == 2.0 * (q * q) - 3.0 * (q * x) + q;
    assert 4.0 * (a * a) == (2.0 * a) * (2.0 * a) == (q - x) * (q - x);
    assert (q - x) * (q - x) == q * q - 2.0 * (q * x) + q;
    assert 12.0 * Denom(n) == q * q - q == q * (q - 1.0);
    assert x >= 2.0;
    assert q >= 4.0 by { Grow(x); }
    Positive(q, q - 1.0);
  }

  lemma Grow(x: real)
    requires x >= 2.0
    ensures x * x >= 4.0
  {
    assert x * x - 4.0 == (x - 2.0) * (x + 2.0);
    NonNeg(x - 2.0, x + 2.0);
  }

  lemma NonNeg(a: real, b: real)
    requires a >= 0.0 && b >= 0.0
    ensures a * b >= 0.0
  {}

  lemma Positive(a: real, b: real)
    requires a > 0.0 && b > 0.0
    ensures a * b > 0.0
  {}

  lemma Distribute(a: real, b: real, c: real)
    ensures a * (b + c) == a * b + a * c
  {}

  lemma Swap(a: real, b: real, c: real)
    ensures a * (b * c) == b * (a * c)
  {}

  // ------------------------------------------------------------------------ exact lines

  ghost predicate OnLine(ys: seq<real>, a: real, b: real) {
    forall i :: 0 <= i < |ys| ==> ys[i] == a + b * i as real
  }

  lemma LineAlgebra(n: real, sx: real, sxx: real, a: real, b: real)
    ensures n * (a * sx + b * sxx) - sx * (n * a + b * sx) == b * (n * sxx - sx * sx)
  {
    Distribute(n, a * sx, b * sxx);
    Distribute(sx, n * a, b * sx);
    Swap(n, b, sxx);
    Swap(sx, b, sx);
    Swap(n, a, sx);
    Swap(sx, n, a);
    Distribute(b, n * sxx, -(sx * sx));
  }

  lemma Cancel(b: real, d: real)
    requires d != 0.0
    ensures (b * d) / d == b
  {}

  // ------------------------------------------------------------------------- optimality

  /** The squared error of the line `a + b * i`. */
  function Err(ys: seq<real>, a: real, b: real): real {
    if ys == [] then 0.0
    else
      var r := ys[|ys| - 1] - a - b * (|ys| - 1) as real;
      Err(ys[..|ys| - 1], a, b) + r * r
  }

  /** The squared distance between two lines over `n` positions. */
  function Gap(n: nat, p: real, q: real): real {
    if n == 0 then 0.0
    else
      var r := p + q * (n - 1) as real;
      Gap(n - 1, p, q) + r * r
  }

  lemma {:induction false} GapNonNegative(n: nat, p: real, q: real)
    ensures Gap(n, p, q) >= 0.0
  {
    if n > 0 {
      GapNonNegative(n - 1, p, q);
      var r := p + q * (n - 1) as real;
      Square(r);
    }
  }

  lemma Square(r: real)
    ensures r * r >= 0.0
  {}

  lemma Residual(x: real, y: real, a: real, b: real)
    ensures x * (y - a - b * x) == x * y - a * x - b * (x * x)
  {
    Distribute(x, y - a, -(b * x));
    Distribute(x, y, -a);
    Swap(x, b, x);
  }

  lemma ErrStep(x: real, y: real, a: real, b: real, p: real, q: real)
    ensures var r, d := y - a - b * x, p + q * x;
            var e := y - (a + p) - (b + q) * x;
            e * e == r * r + d * d - 2.0 * (p * r) - 2.0 * (q * (x * r))
  {
    var r, d := y - a - b * x, p + q * x;
    Distribute(x, b, q);
    assert y - (a + p) - (b + q) * x == r - d;
    Binomial(r, d);
    Distribute(r, p, q * x);
    Swap(r, q, x);
  }

  lemma Binomial(r: real, d: real)
    ensures (r - d) * (r - d) == r * r + d * d - 2.0 * (r * d)
  {}

  /** The sum of the residuals of a line, and the sum weighted by position. */
  function Bias(ys: seq<real>, a: real, b: real): real {
    SumY(ys) - |ys| as real * a - b * SumX(|ys|)
  }

  function Moment(ys: seq<real>, a: real, b: real): real {
    SumXY(ys) - a * SumX(|ys|) - b * SumXX(|ys|)
  }

  lemma BiasStep(ys: seq<real>, a: real, b: real)
    requires ys != []
    ensures var m := |ys| - 1;
            var r := ys[m] - a - b * m as real;
            && Bias(ys, a, b) == Bias(ys[..m], a, b) + r
            && Moment(ys, a, b) == Moment(ys[..m], a, b) + m as real * r
  {
    var m := |ys| - 1;
    var x := m as real;
    assert |ys| as real == x + 1.0;
    Distribute(a, x, 1.0);
    Distribute(b, SumX(m), x);
    Distribute(a, SumX(m), x);
    Distribute(b, SumXX(m), x * x);
    Residual(x, ys[m], a, b);
  }

  /** Moving a line by `(p, q)` changes its error by the gap, up to the two sums that vanish
      for the fitted line. */
  lemma {:induction false} ErrMoves(ys: seq<real>, a: real, b: real, p: real, q: real)
    ensures Err(ys, a + p, b + q)
         == Err(ys, a, b) + Gap(|ys|, p, q) - 2.0 * (p * Bias(ys, a, b)) - 2.0 * (q * Moment(ys, a, b))
    decreases |ys|, 1
  {
    if ys == [] {
      Zero(p);
      Zero(q);
    } else {
      ErrMovesStep(ys, a, b, p, q);
    }
  }

  lemma {:induction false} ErrMovesStep(ys: seq<real>, a: real, b: real, p: real, q: real)
    requires ys != []
    ensures Err(ys, a + p, b + q)
         == Err(ys, a, b) + Gap(|ys|, p, q) - 2.0 * (p * Bias(ys, a, b)) - 2.0 * (q * Moment(ys, a, b))
    decreases |ys|, 0
  {
    hide Bias, Moment, Err, Gap;
    var m := |ys| - 1;
    var front, x := ys[..m], m as real;
    var r, d, e := ys[m] - a - b * x, p + q * x, ys[m] - (a + p) - (b + q) * x;
    ErrMoves(front, a, b, p, q);
    ErrStep(x, ys[m], a, b, p, q);
    BiasStep(ys, a, b);
    Unfold(ys, a + p, b + q, p, q);
    Unfold(ys, a, b, p, q);
    var u, v := Bias(front, a, b), Moment(front, a, b);
    Distribute(p, u, r);
    Distribute(q, v, x * r);
    Combine(Err(front, a + p, b + q), Err(front, a, b), Gap(m, p, q), p * u, q * v, e * e, r * r, d * d, p * r, q * (x * r));
  }

  lemma Unfold(ys: seq<real>, a: real, b: real, p: real, q: real)
    requires ys != []
    ensures var m := |ys| - 1;
            var r, d := ys[m] - a - b * m as real, p + q * m as real;
            Err(ys, a, b) == Err(ys[..m], a, b) + r * r && Gap(|ys|, p, q) == Gap(m, p, q) + d * d
  {}

  lemma Combine(e1: real, e0: real, g: real, pu: real, qv: real, ee: real, rr: real, dd: real, pr: real, qxr: real)
    requires e1 == e0 + g - 2.0 * pu - 2.0 * qv && ee == rr + dd - 2.0 * pr - 2.0 * qxr
    ensures e1 + ee == (e0 + rr) + (g + dd) - 2.0 * (pu + pr) - 2.0 * (qv + qxr)
  {}

  lemma Zero(p: real)
    ensures p * 0.0 == 0.0
  {}

  function Intercept(ys: seq<real>): real
    requires ys != []
  {
    Ratio(SumY(ys) - Prod(Slope(ys), SumX(|ys|)), |ys| as real)
  }

  /** The slope really is the least-squares slope: with its intercept it has the smallest
      squared error of all lines. */
  lemma SlopeIsOptimal(ys: seq<real>, a: real, b: real)
    requires |ys| >= 2
    ensures Err(ys, Intercept(ys), Slope(ys)) <= Err(ys, a, b)
  {
    hide Err, Gap, Bias, Moment, Intercept, Slope;
    var a0, b0 := Intercept(ys), Slope(ys);
    FitIsBalanced(ys);
    var p, q := a - a0, b - b0;
    ErrMoves(ys, a0, b0, p, q);
    Zero(p);
    Zero(q);
    assert a0 + p == a && b0 + q == b;
    GapNonNegative(|ys|, p, q);
  }

  /** The residuals of the fitted line sum to zero, weighted by position or not. */
  lemma FitIsBalanced(ys: seq<real>)
    requires |ys| >= 2
    ensures Bias(ys, Intercept(ys), Slope(ys)) == 0.0 && Moment(ys, Intercept(ys), Slope(ys)) == 0.0
  {
    hide SumY, SumXY, SumX, SumXX, Slope, Intercept;
    FitEquations(ys);
  }

  lemma FitEquations(ys: seq<real>)
    requires |ys| >= 2
    ensures SumY(ys) - |ys| as real * Intercept(ys) - Slope(ys) * SumX(|ys|) == 0.0
    ensures SumXY(ys) - Intercept(ys) * SumX(|ys|) - Slope(ys) * SumXX(|ys|) == 0.0
  {
    hide SumY, SumXY, SumX, SumXX, DenomOf, NumerOf, Ratio, Prod;
    var n := |ys|;
    DenomPositive(n);
    NormalEquations(n as real, SumX(n), SumXX(n), SumY(ys), SumXY(ys), Intercept(ys), Slope(ys));
  }

  lemma NormalEquations(n: real, sx: real, sxx: real, sy: real, sxy: real, a: real, b: real)
    requires n > 0.0 && DenomOf(n, sx, sxx) > 0.0
    requires b == Ratio(NumerOf(n, sx, sy, sxy), DenomOf(n, sx, sxx)) && a == Ratio(sy - Prod(b, sx), n)
    ensures sy - n * a - b * sx == 0.0
    ensures sxy - a * sx - b * sxx == 0.0
  {
    assert n * a == sy - b * sx;
    assert b * (n * sxx - sx * sx) == n * sxy - sx * sy;
    var e := sxy - a * sx - b * sxx;
    assert n * e == n * sxy - n * a * sx - b * (n * sxx);
    assert n * a * sx == (sy - b * sx) * sx == sy * sx - b * (sx * sx);
    assert b * (n * sxx - sx * sx) == b * (n * sxx) - b * (sx * sx);
    assert n * e == 0.0;
  }

  /** A line that every sample lies on leaves no residual. */
  lemma {:induction false} LineIsBalanced(ys: seq<real>, a: real, b: real)
    requires OnLine(ys, a, b)
    ensures Bias(ys, a, b) == 0.0 && Moment(ys, a, b) == 0.0
  {
    if ys != [] {
      LineIsBalanced(ys[..|ys| - 1], a, b);
      LineStep(ys, a, b);
    }
  }

  lemma LineStep(ys: seq<real>, a: real, b: real)
    requires ys != [] && OnLine(ys, a, b)
    requires Bias(ys[..|ys| - 1], a, b) == 0.0 && Moment(ys[..|ys| - 1], a, b) == 0.0
    ensures Bias(ys, a, b) == 0.0 && Moment(ys, a, b) == 0.0
  {
    hide Bias, Moment;
    BiasStep(ys, a, b);
    Zero((|ys| - 1) as real);
  }

  /** Samples on a line give exactly the slope of that line. */
  lemma SlopeOfLine(ys: seq<real>, a: real, b: real)
    requires |ys| >= 2 && OnLine(ys, a, b)
    ensures Slope(ys) == b
  {
    hide SumX, SumXX, SumY, SumXY, OnLine;
    LineIsBalanced(ys, a, b);
    DenomPositive(|ys|);
    LineAlgebra(|ys| as real, SumX(|ys|), SumXX(|ys|), a, b);
    Cancel(b, Denom(|ys|));
  }
}
