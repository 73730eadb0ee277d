/** The sample ring and the kinematic tracker of the forecaster. */
module Forecaster {
  import opened Ewma
  import opened LeastSquares

  const MAX_RING_CAP := 16

  function ClampCap(n: int): (c: nat)
    ensures 2 <= c <= MAX_RING_CAP && (2 <= n <= MAX_RING_CAP ==> c == n)
    ensures n < 2 ==> c == 2
    ensures n > MAX_RING_CAP ==> c == MAX_RING_CAP
  {
    if n < 2 then 2 else if n > MAX_RING_CAP then MAX_RING_CAP else n
  }

  /** The last `cap` samples, or all of them when there are fewer. */
  function Window(samples: seq<real>, cap: nat): seq<real> {
    if |samples| <= cap then samples else samples[|samples| - cap..]
  }

  /** Slope of the window per second; a non-positive interval counts as one second. */
  function Velocity(ys: seq<real>, interval: real): real {
    if |ys| < 2 then 0.0 else Ratio(Slope(ys), if interval <= 0.0 then 1.0 else interval)
  }

  lemma ModWrap(a: nat, cap: nat)
    requires 0 < cap && a < 2 * cap
    ensures a % cap == if a < cap then a else a - cap
  {}

  lemma SumsEmpty(w: seq<real>)
    ensures SumX(0) == SumXX(0) == SumY(w[..0]) == SumXY(w[..0]) == 0.0
  {}

  lemma SumsStep(w: seq<real>, i: nat)
    requires i < |w|
    ensures SumX(i + 1) == SumX(i) + i as real && SumXX(i + 1) == SumXX(i) + Prod(i as real, i as real)
    ensures SumY(w[..i + 1]) == SumY(w[..i]) + w[i] && SumXY(w[..i + 1]) == SumXY(w[..i]) + Prod(i as real, w[i])
  {
    assert w[..i + 1][..i] == w[..i];
  }

  lemma ZeroOver(d: real)
    requires d != 0.0
    ensures Ratio(0.0, d) == 0.0
  {}

  /** The slots of a ring against everything pushed into it: before the ring has filled up
      the samples sit in order from slot 0; from then on the last `|slots|` of them start at
      the next slot to be written and wrap around. */
  ghost predicate Holds(slots: seq<real>, len: nat, head: nat, pushed: seq<real>) {
    && head < |slots| && len <= |slots|
    && (len < |slots| ==> head == len && pushed == slots[..len])
    && (len == |slots| ==> |slots| <= |pushed| && pushed[|pushed| - |slots|..] == slots[head..] + slots[..head])
  }

  lemma HoldsAfterPush(slots: seq<real>, len: nat, head: nat, pushed: seq<real>, v: real)
    requires Holds(slots, len, head, pushed)
    ensures Holds(slots[head := v], if len < |slots| then len + 1 else len, if head + 1 == |slots| then 0 else head + 1, pushed + [v])
  {
    var now, all, n := slots[head := v], pushed + [v], |slots|;
    assert now[head + 1..] == slots[head + 1..] && now[..head + 1] == slots[..head] + [v];
    if len == n {
      assert all[|all| - n..] == pushed[|pushed| - n..][1..] + [v];
      assert (slots[head..] + slots[..head])[1..] == slots[head + 1..] + slots[..head];
    } else if len + 1 == n {
      assert all[|all| - n..] == all && now[0..] + now[..0] == now;
    }
  }

  class Ring {
    const buf: array<real>
    const cap: nat
    var len: nat
    var head: nat
    ghost var pushed: seq<real>

    ghost predicate Valid()
      reads this, buf
    {
      && buf.Length == MAX_RING_CAP && 2 <= cap <= MAX_RING_CAP
      && Holds(buf[..cap], len, head, pushed)
    }

    constructor (n: int)
      ensures Valid() && fresh(buf) && cap == ClampCap(n) && pushed == []
    {
      buf := new real[MAX_RING_CAP](_ => 0.0);
      cap := ClampCap(n);
      len, head, pushed := 0, 0, [];
    }

    method Push(v: real)
      requires Valid()
      modifies this, buf
      ensures Valid() && pushed == old(pushed) + [v]
    {
      HoldsAfterPush(buf[..cap], len, head, pushed, v);
      ghost var slots := buf[..cap][head := v];
      ModWrap(head + 1, cap);
      assert head < cap;
      hide Holds;
      buf[head] := v;
      assert buf[..cap] == slots;
      head := (head + 1) % cap;
      if len < cap {
        len := len + 1;
      }
      pushed := pushed + [v];
    }

    lemma WindowLength()
      requires Valid()
      ensures |Window(pushed, cap)| == len
    {}

    /** The sample at position `i` of the window, read through the wrapped buffer. */
    method At(i: nat) returns (y: real)
      requires Valid() && i < len
      ensures |Window(pushed, cap)| == len && y == Window(pushed, cap)[i]
    {
      var start := if len == cap then head else 0;
      ModWrap(start + i, cap);
      y := buf[(start + i) % cap];
      ghost var slots := buf[..cap];
      assert y == slots[(start + i) % cap];
      if len == cap {
        assert Window(pushed, cap) == pushed[|pushed| - cap..];
        assert y == (slots[head..] + slots[..head])[i];
      }
    }

    method Snapshot(dst: array<real>) returns (n: nat)
      requires Valid() && dst != buf
      modifies dst
      ensures Valid() && n <= dst.Length && n <= |Window(pushed, cap)|
      ensures n == dst.Length || n == |Window(pushed, cap)|
      ensures dst[..n] == Window(pushed, cap)[..n]
      ensures forall i :: n <= i < dst.Length ==> dst[i] == old(dst[i])
    {
      WindowLength();
      hide Valid, Window;
      n := if len > dst.Length then dst.Length else len;
      for i := 0 to n
        invariant Valid()
        invariant dst[..i] == Window(pushed, cap)[..i]
        invariant forall j :: i <= j < dst.Length ==> dst[j] == old(dst[j])
      {
        var y := At(i);
        dst[i] := y;
      }
    }

    /** The accumulating loop of VelocityLS. */
    method Sums() returns (sumX: real, sumY: real, sumXY: real, sumXX: real)
      requires Valid()
      ensures sumX == SumX(len) && sumXX == SumXX(len)
      ensures sumY == SumY(Window(pushed, cap)) && sumXY == SumXY(Window(pushed, cap))
    {
      WindowLength();
      hide Valid, Window, SumX, SumXX, SumY, SumXY, Prod;
      sumX, sumY, sumXY, sumXX := 0.0, 0.0, 0.0, 0.0;
      ghost var w := Window(pushed, cap);
      SumsEmpty(w);
      for i := 0 to len
        invariant sumX == SumX(i) && sumXX == SumXX(i) && sumY == SumY(w[..i]) && sumXY == SumXY(w[..i])
      {
        var x := i as real;
        var y := At(i);
        SumsStep(w, i);
        sumX, sumY, sumXY, sumXX := sumX + x, sumY + y, sumXY + Prod(x, y), sumXX + Prod(x, x);
      }
      assert w[..len] == w;
    }

    method VelocityLS(interval: real) returns (v: real)
      requires Valid()
      ensures v == Velocity(Window(pushed, cap), interval)
    {
      WindowLength();
      hide Valid, Window, SumX, SumXX, SumY, SumXY, DenomOf, NumerOf, Ratio;
      var n := len;
      if n < 2 {
        return 0.0;
      }
      var sumX, sumY, sumXY, sumXX := Sums();
      var denom := DenomOf(n as real, sumX, sumXX);
      if denom == 0.0 {
        ZeroOver(if interval <= 0.0 then 1.0 else interval);
        return 0.0;
      }
      var slope := Ratio(NumerOf(n as real, sumX, sumY, sumXY), denom);
      v := Ratio(slope, if interval <= 0.0 then 1.0 else interval);
    }
  }

  /** A window that lies on a line moves at exactly that line's slope. */
  lemma VelocityOfLine(ys: seq<real>, a: real, b: real, interval: real)
    requires |ys| >= 2 && OnLine(ys, a, b) && interval > 0.0
    ensures Velocity(ys, interval) == b / interval
  {
    SlopeOfLine(ys, a, b);
  }

  // --------------------------------------------------------------------- the tracker

  /** Horizon and sample interval are in seconds; clock readings are in nanoseconds. */
  datatype Config = Config(alpha: real, window: int, horizon: real, hardDrop: real, accThreshold: real,
                           sampleInterval: real, useRingLS: bool)

  /** Construction replaces every zero setting by its default. */
  function Defaulted(c: Config): Config {
    Config(if c.alpha == 0.0 then 0.3 else c.alpha, if c.window == 0 then 8 else c.window,
           if c.horizon == 0.0 then 5.0 else c.horizon, if c.hardDrop == 0.0 then 0.1 else c.hardDrop,
           if c.accThreshold == 0.0 then 0.001 else c.accThreshold,
           if c.sampleInterval == 0.0 then 1.0 else c.sampleInterval, c.useRingLS)
  }

  datatype Tracker = Tracker(samples: seq<real>, avg: Avg, prevEwma: real, prevVel: real, lastAt: int, havePrev: bool)

  datatype Reading = Reading(ewma: real, velocity: real, acceleration: real, projected: real, fault: bool)

  const NEW := Tracker([], Avg(0.0, false), 0.0, 0.0, 0, false)

  function Seconds(ns: int): real { ns as real / 1000000000.0 }

  function Interval(cfg: Config, lastAt: int, now: int): (dt: real)
    ensures dt > 0.0
  {
    var dt := Seconds(now - lastAt);
    if dt > 0.0 then dt else if cfg.sampleInterval > 0.0 then cfg.sampleInterval else 1.0
  }

  function Speed(cfg: Config, k: Tracker, samples: seq<real>, s: real, now: int): real {
    if !k.havePrev then 0.0
    else
      var dt := Interval(cfg, k.lastAt, now);
      var w := Window(samples, ClampCap(cfg.window));
      if cfg.useRingLS && |w| >= 3 then Velocity(w, dt) else Ratio(s - k.prevEwma, dt)
  }

  /** The projection over the horizon, and whether it trips. */
  function Trip(cfg: Config, rising: bool, s: real, vel: real, acc: real): (real, bool) {
    var h := cfg.horizon;
    if rising then
      var p := s + vel * h + 0.5 * acc * h * h;
      (p, p >= cfg.hardDrop && s >= cfg.hardDrop * 0.3)
    else (s, s >= cfg.hardDrop)
  }

  function Observation(cfg: Config, k: Tracker, raw: real, now: int): (Tracker, Reading) {
    var samples, avg := k.samples + [raw], Fold(ClampAlpha(cfg.alpha), k.avg, raw);
    var s := avg.value;
    var vel := Speed(cfg, k, samples, s, now);
    var acc := if k.havePrev then Ratio(vel - k.prevVel, Interval(cfg, k.lastAt, now)) else 0.0;
    var (projected, fault) := Trip(cfg, k.havePrev && vel > 0.0 && acc > cfg.accThreshold, s, vel, acc);
    (Tracker(samples, avg, s, vel, now, true), Reading(s, vel, acc, projected, fault))
  }

  class KinematicTracker {
    const cfg: Config
    const ring: Ring
    const ewma: Smoother
    var prevEwma: real
    var prevVel: real
    var havePrev: bool
    var lastAt: int

    ghost predicate Valid()
      reads this, ring, ring.buf, ewma
    {
      ring.Valid() && ring.cap == ClampCap(cfg.window) && ewma.alpha == ClampAlpha(cfg.alpha)
    }

    ghost function View(): Tracker
      reads this, ring, ewma
    {
      Tracker(ring.pushed, ewma.View(), prevEwma, prevVel, lastAt, havePrev)
    }

    constructor (cfg: Config)
      ensures Valid() && fresh(ring) && fresh(ring.buf) && fresh(ewma) && this.cfg == Defaulted(cfg) && View() == NEW
    {
      var c := Defaulted(cfg);
      this.cfg := c;
      var r := new Ring(c.window);
      var e := new Smoother(c.alpha);
      ring, ewma := r, e;
      prevEwma, prevVel, havePrev, lastAt := 0.0, 0.0, false, 0;
    }

    /** The time since the previous sample, or the configured interval, or a second. */
    method Elapsed(now: int) returns (dt: real)
      ensures dt == Interval(cfg, lastAt, now)
    {
      dt := Seconds(now - lastAt);
      if dt <= 0.0 {
        dt := cfg.sampleInterval;
        if dt <= 0.0 {
          dt := 1.0;
        }
      }
    }

    /** The velocity and acceleration part of Observe, after the sample has been taken in. */
    method Derivatives(s: real, now: int, ghost before: Tracker) returns (vel: real, acc: real)
      requires Valid()
      requires before.havePrev == havePrev && before.prevEwma == prevEwma && before.prevVel == prevVel && before.lastAt == lastAt
      ensures vel == Speed(cfg, before, ring.pushed, s, now)
      ensures acc == if havePrev then Ratio(vel - prevVel, Interval(cfg, lastAt, now)) else 0.0
    {
      ring.WindowLength();
      hide Velocity, Ratio, Interval, Window, Ring.Valid;
      vel, acc := 0.0, 0.0;
      if havePrev {
        var dt := Elapsed(now);
        if cfg.useRingLS && ring.len >= 3 {
          vel := ring.VelocityLS(dt);
        } else {
          vel := Ratio(s - prevEwma, dt);
        }
        acc := Ratio(vel - prevVel, dt);
      }
    }

    /** The projection part of Observe. */
    method Project(s: real, vel: real, acc: real) returns (projected: real, fault: bool)
      ensures var t := Trip(cfg, havePrev && vel > 0.0 && acc > cfg.accThreshold, s, vel, acc);
              projected == t.0 && fault == t.1
    {
      var h := cfg.horizon;
      projected, fault := s, false;
      if havePrev && vel > 0.0 && acc > cfg.accThreshold {
        projected := s + vel * h + 0.5 * acc * h * h;
        if projected >= cfg.hardDrop && s >= cfg.hardDrop * 0.3 {
          fault := true;
        }
      } else if s >= cfg.hardDrop {
        fault := true;
      }
    }

    method Observe(raw: real, now: int) returns (snap: Reading)
      requires Valid()
      modifies this, ring, ring.buf, ewma
      ensures Valid()
      ensures View() == Observation(cfg, old(View()), raw, now).0 && snap == Observation(cfg, old(View()), raw, now).1
    {
      hide Speed, Interval, Fold, Trip, Ratio, Ring.Valid;
      ring.Push(raw);
      var s := ewma.Update(raw);
      var vel, acc := Derivatives(s, now, old(View()));
      var projected, fault := Project(s, vel, acc);
      prevVel, prevEwma, lastAt, havePrev := vel, s, now, true;
      snap := Reading(s, vel, acc, projected, fault);
    }
  }

  // ------------------------------------------------------------------------ trip rule

  datatype Sample = Sample(raw: real, now: int)

  function Track(cfg: Config, xs: seq<Sample>): Tracker {
    if xs == [] then NEW else Observation(cfg, Track(cfg, xs[..|xs| - 1]), xs[|xs| - 1].raw, xs[|xs| - 1].now).0
  }

  function Raws(xs: seq<Sample>): (rs: seq<real>)
    ensures |rs| == |xs| && forall i :: 0 <= i < |xs| ==> rs[i] == xs[i].raw
  {
    seq(|xs|, i requires 0 <= i < |xs| => xs[i].raw)
  }

  lemma {:induction false} TrackAverages(cfg: Config, xs: seq<Sample>)
    ensures Track(cfg, xs).avg == FoldAll(ClampAlpha(cfg.alpha), Raws(xs))
    ensures Track(cfg, xs).samples == Raws(xs)
  {
    hide Fold, Speed, Trip, Interval, Ratio;
    if xs != [] {
      TrackAverages(cfg, xs[..|xs| - 1]);
      assert Raws(xs)[..|xs| - 1] == Raws(xs[..|xs| - 1]);
      assert Raws(xs) == Raws(xs[..|xs| - 1]) + [xs[|xs| - 1].raw];
    }
  }

  /** The last reading of a run. */
  function LastReading(cfg: Config, xs: seq<Sample>): Reading
    requires xs != []
  {
    Observation(cfg, Track(cfg, xs[..|xs| - 1]), xs[|xs| - 1].raw, xs[|xs| - 1].now).1
  }

  /** The smoothed value of a run lies within the samples of the run. */
  lemma SmoothedWithinSamples(cfg: Config, xs: seq<Sample>, lo: real, hi: real)
    requires xs != [] && forall i :: 0 <= i < |xs| ==> lo <= xs[i].raw <= hi
    ensures lo <= LastReading(cfg, xs).ewma <= hi
  {
    hide Fold, Speed, Trip, Interval, Ratio;
    TrackAverages(cfg, xs);
    AverageWithinSamples(ClampAlpha(cfg.alpha), Raws(xs), lo, hi);
  }

  function MaxRaw(xs: seq<Sample>): (m: real)
    requires xs != []
    ensures forall i :: 0 <= i < |xs| ==> xs[i].raw <= m
    ensures exists i :: 0 <= i < |xs| && xs[i].raw == m
  {
    var x := xs[|xs| - 1].raw;
    if |xs| == 1 then x
    else
      var rest := MaxRaw(xs[..|xs| - 1]);
      assert forall i :: 0 <= i < |xs| - 1 ==> xs[..|xs| - 1][i] == xs[i];
      if x > rest then x else rest
  }

  function MinRaw(xs: seq<Sample>): (m: real)
    requires xs != []
    ensures forall i :: 0 <= i < |xs| ==> m <= xs[i].raw
  {
    var x := xs[|xs| - 1].raw;
    if |xs| == 1 then x
    else
      var rest := MinRaw(xs[..|xs| - 1]);
      assert forall i :: 0 <= i < |xs| - 1 ==> xs[..|xs| - 1][i] == xs[i];
      if x < rest then x else rest
  }

  /** A run of small samples never trips, however they are spaced and however steep they look. */
  lemma QuietRunNeverTrips(cfg: Config, xs: seq<Sample>)
    requires cfg.hardDrop > 0.0 && xs != []
    requires forall i :: 0 <= i < |xs| ==> xs[i].raw < 0.3 * cfg.hardDrop
    ensures !LastReading(cfg, xs).fault
  {
    hide Fold, Speed, Interval, Track, Ratio;
    SmoothedWithinSamples(cfg, xs, MinRaw(xs), MaxRaw(xs));
  }

  /** Once the smoothed value reaches the limit, every step trips. */
  lemma HighValueAlwaysTrips(cfg: Config, k: Tracker, raw: real, now: int)
    requires cfg.hardDrop > 0.0 && cfg.horizon > 0.0 && cfg.accThreshold > 0.0
    requires Observation(cfg, k, raw, now).1.ewma >= cfg.hardDrop
    ensures Observation(cfg, k, raw, now).1.fault
  {
    hide Fold, Speed, Interval, Ratio;
    var r := Observation(cfg, k, raw, now).1;
    if r.velocity > 0.0 && r.acceleration > cfg.accThreshold {
      Positive(r.velocity, cfg.horizon);
      Positive(0.5 * r.acceleration, cfg.horizon);
      Positive(0.5 * r.acceleration * cfg.horizon, cfg.horizon);
    }
  }
}
