/** What the kinematic tracker forecasts: its derivatives over whole runs, when it warns before
    the limit is reached, and how far its projection is from the truth. */
module Forecasts {
  import opened Ewma
  import opened Forecaster
  import opened LeastSquares

  /** The value `x` samples into a parabola. */
  function Parabola(a: real, b: real, c: real, x: real): real { a + b * x + c * x * x }

  // ------------------------------------------------------------------------ trip rule

  /** A reading by itself. A tracker that has seen a sample before and finds the value rising
      faster and faster extrapolates with constant acceleration, and faults when that
      reaches the limit from at least three tenths of it; otherwise the projection is the
      smoothed value, and the limit itself decides. */
  ghost predicate Rule(cfg: Config, havePrev: bool, r: Reading) {
    var h := cfg.horizon;
    if havePrev && r.velocity > 0.0 && r.acceleration > cfg.accThreshold
    then
      && r.projected == r.ewma + r.velocity * h + r.acceleration * h * h / 2.0
      && (r.fault <==> r.projected >= cfg.hardDrop && r.ewma >= 3.0 * cfg.hardDrop / 10.0)
    else r.projected == r.ewma && (r.fault <==> r.ewma >= cfg.hardDrop)
  }

  lemma HalfAcceleration(acc: real, h: real)
    ensures 0.5 * acc * h * h == acc * h * h / 2.0
  {}

  lemma ReadingRule(cfg: Config, k: Tracker, raw: real, now: int)
    ensures Rule(cfg, k.havePrev, Observation(cfg, k, raw, now).1)
  {
    hide Fold, Speed, Interval, Ratio;
    HalfAcceleration(Observation(cfg, k, raw, now).1.acceleration, cfg.horizon);
  }

  lemma HavePrev(cfg: Config, xs: seq<Sample>)
    ensures Track(cfg, xs).havePrev <==> xs != []
  {
    hide Fold, Speed, Interval, Ratio, Trip;
  }

  /** The rule over runs: only the first sample of a run has nothing before it. */
  lemma RunRule(cfg: Config, xs: seq<Sample>)
    requires xs != []
    ensures Rule(cfg, |xs| > 1, LastReading(cfg, xs))
  {
    hide Fold, Speed, Interval, Ratio, Trip, Rule, Observation, Track;
    var front, x := xs[..|xs| - 1], xs[|xs| - 1];
    HavePrev(cfg, front);
    ReadingRule(cfg, Track(cfg, front), x.raw, x.now);
  }

  /** Early warning, exactly: while the smoothed value is still below the limit, a run faults if
      and only if it is rising faster and faster, is at three tenths of the limit or above,
      and its projection over the horizon reaches the limit. */
  lemma EarlyWarning(cfg: Config, xs: seq<Sample>)
    requires xs != [] && LastReading(cfg, xs).ewma < cfg.hardDrop
    ensures var r, h := LastReading(cfg, xs), cfg.horizon;
            r.fault <==>
              && |xs| > 1 && r.velocity > 0.0 && r.acceleration > cfg.accThreshold
              && r.ewma >= 3.0 * cfg.hardDrop / 10.0
              && r.ewma + r.velocity * h + r.acceleration * h * h / 2.0 >= cfg.hardDrop
  {
    hide LastReading;
    RunRule(cfg, xs);
  }

  // ---------------------------------------------------------------------- derivatives

  /** The time step the tracker works with: the seconds between two clock readings, or the
      configured interval, or one second. */
  ghost predicate IsGap(cfg: Config, ns: int, dt: real) {
    if ns > 0 then dt * 1_000_000_000.0 == ns as real
    else if cfg.sampleInterval > 0.0 then dt == cfg.sampleInterval
    else dt == 1.0
  }

  lemma GapIs(cfg: Config, lastAt: int, now: int)
    ensures IsGap(cfg, now - lastAt, Interval(cfg, lastAt, now))
  {}

  lemma GapUnique(cfg: Config, ns: int, dt: real, dt': real)
    requires IsGap(cfg, ns, dt) && IsGap(cfg, ns, dt')
    ensures dt == dt'
  {}

  lemma RatioTimes(a: real, b: real)
    requires b != 0.0
    ensures Ratio(a, b) * b == a
  {}

  /** What the tracker remembers is its last reading. */
  lemma Remembers(cfg: Config, xs: seq<Sample>)
    requires xs != []
    ensures var k, r := Track(cfg, xs), LastReading(cfg, xs);
            k.prevEwma == r.ewma && k.prevVel == r.velocity && k.lastAt == xs[|xs| - 1].now && k.havePrev
  {
    hide Fold, Speed, Interval, Ratio, Trip;
  }

  lemma FirstReading(cfg: Config, x: Sample)
    ensures LastReading(cfg, [x]).ewma == x.raw && LastReading(cfg, [x]).velocity == 0.0 == LastReading(cfg, [x]).acceleration
  {
    assert [x][..0] == [];
  }

  /** The velocity comes from the ring once it is in use and holds three samples. */
  predicate FromRing(cfg: Config, xs: seq<Sample>) { cfg.useRingLS && cfg.window > 2 && |xs| > 2 }

  lemma RingLength(cfg: Config, xs: seq<Sample>)
    ensures |Window(Raws(xs), ClampCap(cfg.window))| >= 3 <==> cfg.window > 2 && |xs| > 2
  {}

  /** Over any run, without the ring: the velocity is the change of the smoothed value over the
      time step, and the acceleration always the change of the velocity over it. */
  lemma Derivatives(cfg: Config, xs: seq<Sample>, dt: real)
    requires |xs| > 1 && IsGap(cfg, xs[|xs| - 1].now - xs[|xs| - 2].now, dt)
    ensures var r, q := LastReading(cfg, xs), LastReading(cfg, xs[..|xs| - 1]);
            && (!FromRing(cfg, xs) ==> r.velocity * dt == r.ewma - q.ewma)
            && r.acceleration * dt == r.velocity - q.velocity
  {
    hide Fold, Trip, Ratio, Interval, Track, IsGap, Window, Velocity;
    var front, x := xs[..|xs| - 1], xs[|xs| - 1];
    var k := Track(cfg, front);
    Remembers(cfg, front);
    var e := Interval(cfg, k.lastAt, x.now);
    GapIs(cfg, k.lastAt, x.now);
    GapUnique(cfg, x.now - k.lastAt, dt, e);
    var r, q := LastReading(cfg, xs), LastReading(cfg, front);
    RatioTimes(r.velocity - q.velocity, e);
    RatioTimes(r.ewma - q.ewma, e);
    RunSamples(cfg, xs);
    RingLength(cfg, xs);
  }

  lemma RunSamples(cfg: Config, xs: seq<Sample>)
    requires xs != []
    ensures Track(cfg, xs[..|xs| - 1]).samples + [xs[|xs| - 1].raw] == Raws(xs)
  {
    hide Track;
    TrackAverages(cfg, xs[..|xs| - 1]);
    assert Raws(xs) == Raws(xs[..|xs| - 1]) + [xs[|xs| - 1].raw];
  }

  /** With the ring: if the last samples it holds lie on a line that rises by `b` from one to the
      next, the velocity is `b` over the time step, whatever the smoothing makes of them. */
  lemma RingVelocity(cfg: Config, xs: seq<Sample>, dt: real, a: real, b: real)
    requires FromRing(cfg, xs) && IsGap(cfg, xs[|xs| - 1].now - xs[|xs| - 2].now, dt)
    requires OnLine(Window(Raws(xs), ClampCap(cfg.window)), a, b)
    ensures LastReading(cfg, xs).velocity * dt == b
  {
    hide Fold, Trip, Ratio, Interval, Track, IsGap, Window, Velocity, OnLine;
    var front, x := xs[..|xs| - 1], xs[|xs| - 1];
    var k := Track(cfg, front);
    Remembers(cfg, front);
    var e := Interval(cfg, k.lastAt, x.now);
    GapIs(cfg, k.lastAt, x.now);
    GapUnique(cfg, x.now - k.lastAt, dt, e);
    RunSamples(cfg, xs);
    RingLength(cfg, xs);
    VelocityOfLine(Window(Raws(xs), ClampCap(cfg.window)), a, b, e);
    assert b / e * e == b;
  }

  // --------------------------------------------------------------- how good a forecast is

  /** Samples of a parabola, one a second, tracked without smoothing and without the ring. */
  ghost predicate OnParabola(cfg: Config, xs: seq<Sample>, a: real, b: real, c: real) {
    && cfg.alpha == 1.0 && !cfg.useRingLS
    && (forall i :: 0 <= i < |xs| ==> xs[i].raw == Parabola(a, b, c, i as real))
    && (forall i :: 0 < i < |xs| ==> xs[i].now - xs[i - 1].now == 1_000_000_000)
  }

  lemma Unsmoothed(cfg: Config, xs: seq<Sample>)
    requires cfg.alpha == 1.0 && xs != []
    ensures LastReading(cfg, xs).ewma == xs[|xs| - 1].raw
  {
    hide Speed, Interval, Ratio, Trip, Track;
    FoldOne(Track(cfg, xs[..|xs| - 1]).avg, xs[|xs| - 1].raw);
  }

  lemma FoldOne(a: Avg, x: real)
    ensures Fold(ClampAlpha(1.0), a, x) == Avg(x, true)
  {}

  lemma ParabolaStep(a: real, b: real, c: real, x: real)
    ensures Parabola(a, b, c, x) - Parabola(a, b, c, x - 1.0) == b + c * (2.0 * x - 1.0)
  {}

  lemma OnParabolaFront(cfg: Config, xs: seq<Sample>, a: real, b: real, c: real)
    requires OnParabola(cfg, xs, a, b, c) && xs != []
    ensures OnParabola(cfg, xs[..|xs| - 1], a, b, c)
  {
    hide Parabola;
  }

  lemma ParabolaVelocity(cfg: Config, xs: seq<Sample>, a: real, b: real, c: real)
    requires OnParabola(cfg, xs, a, b, c) && |xs| > 1
    ensures LastReading(cfg, xs).velocity == b + c * (2.0 * (|xs| - 1) as real - 1.0)
  {
    hide LastReading, Parabola;
    var n := |xs| - 1;
    Derivatives(cfg, xs, 1.0);
    Unsmoothed(cfg, xs);
    Unsmoothed(cfg, xs[..n]);
    assert (n - 1) as real == n as real - 1.0;
    ParabolaStep(a, b, c, n as real);
  }

  lemma ParabolaAcceleration(cfg: Config, xs: seq<Sample>, a: real, b: real, c: real)
    requires OnParabola(cfg, xs, a, b, c) && |xs| > 2
    ensures LastReading(cfg, xs).acceleration == 2.0 * c
  {
    hide LastReading, Parabola;
    var n := |xs| - 1;
    Derivatives(cfg, xs, 1.0);
    OnParabolaFront(cfg, xs, a, b, c);
    ParabolaVelocity(cfg, xs, a, b, c);
    ParabolaVelocity(cfg, xs[..n], a, b, c);
    assert (n - 1) as real == n as real - 1.0;
    SlopeStep(b, c, n as real);
  }

  lemma SlopeStep(b: real, c: real, n: real)
    ensures (b + c * (2.0 * n - 1.0)) - (b + c * (2.0 * (n - 1.0) - 1.0)) == 2.0 * c
  {}

  lemma Extrapolate(a: real, b: real, c: real, n: real, h: real)
    ensures Parabola(a, b, c, n) + (b + c * (2.0 * n - 1.0)) * h + 2.0 * c * h * h / 2.0 == Parabola(a, b, c, n + h) - c * h
  {
    var x := n * h;
    assert (n + h) * (n + h) == n * n + 2.0 * x + h * h;
    assert c * (n + h) * (n + h) == c * ((n + h) * (n + h));
    assert (b + c * (2.0 * n - 1.0)) * h == b * h + 2.0 * (c * x) - c * h;
  }

  /** The error of the forecast: on a parabola that rises faster and faster the projection is the
      value the parabola really has a horizon later, less its curvature times the horizon.
      The tracker faults exactly when that underestimate reaches the limit, so on such a run
      it is never wrong about the limit being reached. */
  lemma ForecastError(cfg: Config, xs: seq<Sample>, a: real, b: real, c: real)
    requires OnParabola(cfg, xs, a, b, c) && |xs| > 2
    requires b + c * (2.0 * (|xs| - 1) as real - 1.0) > 0.0 && 2.0 * c > cfg.accThreshold
    ensures var r, n, h := LastReading(cfg, xs), (|xs| - 1) as real, cfg.horizon;
            && r.projected == Parabola(a, b, c, n + h) - c * h
            && (r.fault <==> Parabola(a, b, c, n + h) - c * h >= cfg.hardDrop && Parabola(a, b, c, n) >= 3.0 * cfg.hardDrop / 10.0)
            && (r.fault && cfg.accThreshold >= 0.0 && h >= 0.0 ==> Parabola(a, b, c, n + h) >= cfg.hardDrop)
  {
    hide LastReading, Parabola;
    var r, n, h := LastReading(cfg, xs), (|xs| - 1) as real, cfg.horizon;
    ParabolaVelocity(cfg, xs, a, b, c);
    ParabolaAcceleration(cfg, xs, a, b, c);
    Unsmoothed(cfg, xs);
    RunRule(cfg, xs);
    Extrapolate(a, b, c, n, h);
    if cfg.accThreshold >= 0.0 && h >= 0.0 {
      NonNegative(c, h);
    }
  }

  /** An instance of the early warning: two samples at a fifth and two fifths of the limit, a
      second apart, project to nearly four times the limit five seconds ahead. */
  lemma WarnsBeforeTheLimit()
    ensures var cfg := Config(1.0, 8, 5.0, 0.1, 0.001, 1.0, false);
            var r := LastReading(cfg, [Sample(0.02, 0), Sample(0.04, 1_000_000_000)]);
            r.fault && r.ewma == 0.04 && r.projected == 0.39
  {
    var cfg := Config(1.0, 8, 5.0, 0.1, 0.001, 1.0, false);
    var xs := [Sample(0.02, 0), Sample(0.04, 1_000_000_000)];
    assert xs[..1] == [xs[0]];
    hide LastReading;
    FirstReading(cfg, xs[0]);
    Unsmoothed(cfg, xs);
    Derivatives(cfg, xs, 1.0);
    RunRule(cfg, xs);
  }
}
