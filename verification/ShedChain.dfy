/** From projected utilisation to the drop threshold of each tier. */
module ShedChain {
  import opened TokenBucket
  import opened Mitigator

  const DEFAULT_RHO_TARGET := 0.7
  const LATENCY_EPSILON := 0.000000001

  function EffectiveTarget(rhoTarget: real): (t: real)
    ensures 0.0 < t < 1.0
    ensures 0.0 < rhoTarget < 1.0 ==> t == rhoTarget
    ensures !(0.0 < rhoTarget < 1.0) ==> t == 7.0 / 10.0
  {
    if rhoTarget <= 0.0 || rhoTarget >= 1.0 then DEFAULT_RHO_TARGET else rhoTarget
  }

  function OverloadFraction(rhoProj: real, rhoTarget: real): (o: real)
    ensures 0.0 <= o <= 1.0
    ensures o > 0.0 <==> rhoProj > EffectiveTarget(rhoTarget)
  {
    var t := EffectiveTarget(rhoTarget);
    if rhoProj <= t then 0.0
    else
      var o := Share(rhoProj - t, 1.0 - t);
      if o > 1.0 then 1.0 else o
  }

  function Share(a: real, b: real): (r: real)
    requires a > 0.0 && b > 0.0
    ensures r > 0.0
  {
    a / b
  }

  lemma ShareMono(a: real, a': real, b: real)
    requires 0.0 < a <= a' && b > 0.0
    ensures Share(a, b) <= Share(a', b)
  {}

  lemma OverloadMono(rho: real, rho': real, target: real)
    requires rho <= rho'
    ensures OverloadFraction(rho, target) <= OverloadFraction(rho', target)
  {
    hide Share;
    var t := EffectiveTarget(target);
    if rho > t {
      ShareMono(rho - t, rho' - t, 1.0 - t);
    }
  }

  /** The fraction by its value: linear between the target and full utilisation. */
  lemma OverloadValue(rho: real, target: real)
    ensures var t, o := EffectiveTarget(target), OverloadFraction(rho, target);
            && (rho <= t ==> o == 0.0)
            && (t < rho < 1.0 ==> Times(o, 1.0 - t) == rho - t)
            && (rho >= 1.0 ==> o == 1.0)
  {
    var t := EffectiveTarget(target);
    if rho > t {
      hide Share, Times;
      ShareTimes(rho - t, 1.0 - t);
      ShareAtMostOne(rho - t, 1.0 - t);
    }
  }

  lemma ShareTimes(a: real, b: real)
    requires a > 0.0 && b > 0.0
    ensures Times(Share(a, b), b) == a
  {}

  lemma ShareAtMostOne(a: real, b: real)
    requires a > 0.0 && b > 0.0
    ensures Share(a, b) > 1.0 <==> a > b
    ensures a == b ==> Share(a, b) == 1.0
  {
    ShareTimes(a, b);
    hide Share, Times;
    AboveOne(Share(a, b), b);
  }

  lemma AboveOne(r: real, b: real)
    requires b > 0.0
    ensures r > 1.0 <==> Times(r, b) > b
    ensures Times(r, b) == b ==> r == 1.0
  {
    assert (r - 1.0) * b == r * b - b;
    if r > 1.0 {
      TimesPositive(r - 1.0, b);
    } else if r < 1.0 {
      TimesPositive(1.0 - r, b);
    }
  }

  // ------------------------------------------------------------------------- shed rate

  function Pow(x: real, k: nat): real { if k == 0 then 1.0 else Times(Pow(x, k - 1), x) }

  function Times(x: real, y: real): real { x * y }

  /** How many factors the shed curve multiplies. */
  function Exponent(gamma: real): (k: nat)
    ensures k >= 1
    ensures gamma <= 0.0 ==> k == 2
    ensures 0.0 < gamma < 2.0 ==> k == 1
    ensures gamma >= 2.0 ==> k as real <= gamma < k as real + 1.0
  {
    var g := if gamma <= 0.0 then 2.0 else gamma;
    if g.Floor < 1 then 1 else g.Floor
  }

  function ToPpm(x: real): (p: nat)
    ensures p <= PPM_SCALE
  {
    if x <= 0.0 then 0 else if x * 1000000.0 > 1000000.0 then PPM_SCALE else (x * 1000000.0).Floor
  }

  function ShedPpm(overload: real, gamma: real): (p: nat)
    ensures p <= PPM_SCALE
  {
    if overload <= 0.0 then 0 else ToPpm(Pow(overload, Exponent(gamma)))
  }

  /** The multiplying loop. */
  method ComputeShedPpm(overload: real, gamma: real) returns (ppm: nat)
    ensures ppm == ShedPpm(overload, gamma)
  {
    hide Times;
    if overload <= 0.0 {
      return 0;
    }
    var g := if gamma <= 0.0 then 2.0 else gamma;
    var x := overload;
    var i := 1;
    PowOne(overload);
    while i < g.Floor
      invariant 1 <= i && (i <= g.Floor || i == 1)
      invariant x == Pow(overload, i)
    {
      x := Times(x, overload);
      i := i + 1;
    }
    assert i == Exponent(gamma);
    PowPositive(overload, i);
    var p := x * 1000000.0;
    if p > 1000000.0 {
      return PPM_SCALE;
    }
    ppm := p.Floor;
  }

  lemma PowOne(x: real)
    ensures Pow(x, 1) == x
  {
    assert Pow(x, 0) == 1.0;
  }

  lemma TimesMono(a: real, a': real, b: real, b': real)
    requires 0.0 <= a <= a' && 0.0 <= b <= b'
    ensures 0.0 <= Times(a, b) <= Times(a', b')
  {
    NonNeg(a, b);
    NonNeg(a' - a, b);
    NonNeg(a', b' - b);
  }

  lemma NonNeg(a: real, b: real)
    requires a >= 0.0 && b >= 0.0
    ensures a * b >= 0.0
  {}

  lemma {:induction false} PowPositive(x: real, k: nat)
    requires x > 0.0
    ensures Pow(x, k) > 0.0
  {
    if k > 0 {
      PowPositive(x, k - 1);
      TimesPositive(Pow(x, k - 1), x);
    }
  }

  lemma TimesPositive(a: real, b: real)
    requires a > 0.0 && b > 0.0
    ensures Times(a, b) > 0.0
  {}

  lemma {:induction false} PowMono(x: real, y: real, k: nat)
    requires 0.0 <= x <= y
    ensures 0.0 <= Pow(x, k) <= Pow(y, k)
  {
    hide Times;
    if k > 0 {
      PowMono(x, y, k - 1);
      TimesMono(Pow(x, k - 1), Pow(y, k - 1), x, y);
    }
  }

  lemma ToPpmMono(x: real, y: real)
    requires x <= y
    ensures ToPpm(x) <= ToPpm(y)
  {}

  lemma ShedMono(o: real, o': real, gamma: real)
    requires o <= o'
    ensures ShedPpm(o, gamma) <= ShedPpm(o', gamma)
  {
    hide Pow, ToPpm;
    if o > 0.0 {
      PowMono(o, o', Exponent(gamma));
      ToPpmMono(Pow(o, Exponent(gamma)), Pow(o', Exponent(gamma)));
    }
  }

  /** The rate by its value: the overload to the power of the exponent, in parts per million,
      rounded down; a full overload sheds everything whatever the exponent. */
  lemma ShedValue(overload: real, gamma: real)
    requires 0.0 < overload <= 1.0
    ensures var p, y := ShedPpm(overload, gamma) as real, Pow(overload, Exponent(gamma)) * 1_000_000.0;
            p <= y < p + 1.0
    ensures overload == 1.0 ==> ShedPpm(overload, gamma) == 1_000_000
  {
    hide Exponent, Pow;
    var k := Exponent(gamma);
    PowMono(overload, 1.0, k);
    PowPositive(overload, k);
    PowOfOne(k);
  }

  lemma {:induction false} PowOfOne(k: nat)
    ensures Pow(1.0, k) == 1.0
  {
    if k > 0 { PowOfOne(k - 1); }
  }

  // ----------------------------------------------------------------------------- fusion

  datatype Latency = Latency(fault: bool, projected: real, ewma: real)

  /** The overload a latency fault stands for. A zero denominator gives an infinite ratio of
      the projection's sign, or no number at all, which never replaces the traffic value. */
  function LatencyOverload(lat: Latency): (o: real)
    ensures 0.0 <= o <= 1.0
  {
    var d := lat.ewma + LATENCY_EPSILON;
    if d == 0.0 then if lat.projected > 0.0 then 1.0 else 0.0
    else OverloadFraction(lat.projected / d, 1.0)
  }

  function Fused(lat: Latency, traffic: real): real {
    if !lat.fault then traffic
    else
      var l := LatencyOverload(lat);
      var o := if l > traffic then l else traffic;
      if o < 0.5 then 0.5 else o
  }

  lemma FusedMono(lat: Latency, o: real, o': real)
    requires o <= o'
    ensures Fused(lat, o) <= Fused(lat, o')
    ensures 0.0 <= o <= 1.0 ==> 0.0 <= Fused(lat, o) <= 1.0
    ensures o <= Fused(lat, o)
  {}

  /** The fused overload on a latency fault, by its value: the largest of a half, the traffic's
      own overload, and what the ratio `x` of projected to smoothed latency stands for. The
      target of one that is passed for that ratio is out of range, so the default of seven
      tenths is in force: a ratio of one already counts as a full overload. */
  lemma FusedValue(lat: Latency, traffic: real, x: real)
    requires lat.fault && lat.ewma >= 0.0 && x * (lat.ewma + LATENCY_EPSILON) == lat.projected
    ensures var f := Fused(lat, traffic);
            && f >= 0.5 && f >= traffic
            && (x >= 1.0 ==> f >= 1.0) && (7.0 / 10.0 < x < 1.0 ==> f * 3.0 >= 10.0 * x - 7.0)
            && (f == 0.5 || f == traffic || (x >= 1.0 && f == 1.0) || (7.0 / 10.0 < x < 1.0 && f * 3.0 == 10.0 * x - 7.0))
  {
    hide OverloadFraction;
    var d := lat.ewma + LATENCY_EPSILON;
    DivideOut(lat.projected, d, x);
    OverloadValue(x, 1.0);
  }

  lemma DivideOut(a: real, d: real, x: real)
    requires d != 0.0 && x * d == a
    ensures a / d == x
  {}

  /** Without a latency fault the traffic decides alone. */
  lemma NoLatencyFault(lat: Latency, traffic: real)
    requires !lat.fault
    ensures Fused(lat, traffic) == traffic
  {}

  /** A latency fault projected at least 10^-9 above the smoothed latency sheds everything, for
      every exponent and whatever the traffic. */
  lemma LatencyFaultShedsAll(lat: Latency, traffic: real, gamma: real)
    requires lat.fault && lat.ewma >= 0.0 && lat.projected >= lat.ewma + LATENCY_EPSILON && traffic <= 1.0
    ensures ShedPpm(Fused(lat, traffic), gamma) == 1_000_000
  {
    hide Fused, ShedPpm;
    var d := lat.ewma + LATENCY_EPSILON;
    var x := lat.projected / d;
    QuotientAtLeastOne(lat.projected, d);
    FusedValue(lat, traffic, x);
    ShedValue(1.0, gamma);
  }

  lemma QuotientAtLeastOne(a: real, d: real)
    requires d > 0.0 && a >= d
    ensures a / d >= 1.0 && a / d * d == a
  {}

  // --------------------------------------------------------------------------- feedback

  datatype XdpStats = XdpStats(pass: U64, drop: U64)

  /** Drops overshoot what the target allows. */
  predicate Overshoots(target: nat, st: XdpStats) {
    var total := Wrap(st.pass + st.drop);
    total >= 100 && st.drop as real / total as real > target as real / 1000000.0 * 1.2
  }

  /** The lower clamp at half the target is never reached: nine tenths, rounded down, is not
      below half, rounded down. */
  function Adjusted(target: nat, st: XdpStats): (p: nat)
    ensures target / 2 <= p <= target
  {
    if target == 0 || !Overshoots(target, st) then target
    else (target as real * 0.9).Floor
  }

  class ShedController {
    var lastPPM: nat

    constructor ()
      ensures lastPPM == 0
    {
      lastPPM := 0;
    }

    method Adjust(targetPPM: nat, stats: XdpStats) returns (ppm: nat)
      modifies this
      ensures ppm == Adjusted(targetPPM, stats) && lastPPM == ppm
    {
      if targetPPM == 0 {
        lastPPM := 0;
        return 0;
      }
      var total := Wrap(stats.pass + stats.drop);
      if total < 100 {
        lastPPM := targetPPM;
        return targetPPM;
      }
      var dropRate := stats.drop as real / total as real;
      var targetRate := targetPPM as real / 1000000.0;
      if dropRate > targetRate * 1.2 {
        var adj := (targetPPM as real * 0.9).Floor;
        if adj < targetPPM / 2 {
          assert false;
        }
        lastPPM := adj;
        return adj;
      }
      lastPPM := targetPPM;
      return targetPPM;
    }
  }

  /** Exactly when and by how much the rate is cut: at a hundred packets or more of which the
      dropped part exceeds the target by more than a fifth, to nine tenths rounded down. */
  lemma CutIff(target: nat, st: XdpStats)
    requires st.pass + st.drop < TWO64
    ensures var total, p := st.pass + st.drop, Adjusted(target, st);
            && (p < target <==> target > 0 && total >= 100 && st.drop * 10_000_000 > target * 12 * total)
            && (p < target ==> 10 * p <= 9 * target < 10 * p + 10)
            && (p >= target ==> p == target)
  {
    var total := st.pass + st.drop;
    WrapSmall(total);
    NineTenths(target);
    if total >= 100 {
      OvershootsIff(target, st, total);
    }
    hide Overshoots;
  }

  lemma NineTenths(target: nat)
    ensures var p := (target as real * 0.9).Floor;
            10 * p <= 9 * target < 10 * p + 10 && (target > 0 ==> p < target)
  {}

  lemma OvershootsIff(target: nat, st: XdpStats, total: nat)
    requires total == st.pass + st.drop < TWO64 && total >= 100
    ensures Overshoots(target, st) <==> st.drop * 10_000_000 > target * 12 * total
  {
    WrapSmall(total);
    var d, t, n := st.drop as real, total as real, target as real;
    Cross(d, t, n / 1000000.0 * 1.2);
    CrossScaled(d, t, n);
    assert (target * 12 * total) as real == n * 12.0 * t;
  }

  lemma Cross(d: real, t: real, q: real)
    requires t > 0.0
    ensures d / t > q <==> d > q * t
  {}

  lemma CrossScaled(d: real, t: real, n: real)
    ensures d > n / 1000000.0 * 1.2 * t <==> d * 10000000.0 > n * 12.0 * t
  {}

  lemma AdjustMono(t: nat, t': nat, st: XdpStats)
    requires t <= t'
    ensures Adjusted(t, st) <= Adjusted(t', st)
  {
    assert (t as real * 0.9).Floor <= (t' as real * 0.9).Floor;
    if t > 0 && Overshoots(t', st) {
      assert Overshoots(t, st);
    }
  }

  // --------------------------------------------------------------------- the whole chain

  /** Everything but the projection. */
  datatype Setting = Setting(rhoTarget: real, rhoNow: real, gamma: real, lat: Latency, stats: XdpStats)

  function FusedAt(x: Setting, rho: real): real { Fused(x.lat, OverloadFraction(rho, x.rhoTarget)) }

  function ShedAt(x: Setting, rho: real): (p: nat)
    ensures p <= PPM_SCALE
  {
    ShedPpm(FusedAt(x, rho), x.gamma)
  }

  function AdjustedAt(x: Setting, rho: real): (p: nat)
    ensures p <= PPM_SCALE
  {
    Adjusted(ShedAt(x, rho), x.stats)
  }

  /** With everything else fixed, a larger projection never lowers any stage of the chain, and
      each tier's drop threshold follows. */
  lemma ChainMonotone(x: Setting, rho: real, rho': real, p: Policy, tier: U8)
    requires rho <= rho'
    ensures 0.0 <= FusedAt(x, rho) <= FusedAt(x, rho') <= 1.0
    ensures ShedAt(x, rho) <= ShedAt(x, rho')
    ensures AdjustedAt(x, rho) <= AdjustedAt(x, rho')
    ensures TierDropPpm(p.(shedPpm := AdjustedAt(x, rho)), tier) <= TierDropPpm(p.(shedPpm := AdjustedAt(x, rho')), tier) <= PPM_SCALE
  {
    hide Adjusted, ShedPpm, Fused;
    var o, o' := OverloadFraction(rho, x.rhoTarget), OverloadFraction(rho', x.rhoTarget);
    OverloadMono(rho, rho', x.rhoTarget);
    FusedMono(x.lat, o, o');
    FusedMono(x.lat, o', o');
    ShedMono(FusedAt(x, rho), FusedAt(x, rho'), x.gamma);
    AdjustMono(ShedAt(x, rho), ShedAt(x, rho'), x.stats);
  }

  /** For one policy, more important tiers are never dropped more eagerly. */
  lemma TiersOrdered(p: Policy)
    ensures TierDropPpm(p, TIER_CRITICAL) <= TierDropPpm(p, TIER_STANDARD) <= TierDropPpm(p, TIER_BACKGROUND) <= p.shedPpm
  {}

  // -------------------------------------------------------------- what the policy map gets

  /** The fault flag at the end of a tick. */
  predicate FaultAt(x: Setting, rho: real) {
    x.lat.fault || (rho > x.rhoTarget && x.rhoNow > x.rhoTarget * 0.3)
  }

  /** Syncing the policy replaces a zero rate by a full shed when there is a fault. */
  predicate Overridden(x: Setting, rho: real) {
    AdjustedAt(x, rho) == 0 && FaultAt(x, rho)
  }

  function WrittenAt(x: Setting, rho: real): nat {
    if Overridden(x, rho) then PPM_SCALE else AdjustedAt(x, rho)
  }

  /** On a fault, of latency or of traffic projected past its target from above three tenths
      of it, the written rate is never zero; without one it is the computed rate. */
  lemma FaultNeverWritesZero(x: Setting, rho: real)
    ensures if x.lat.fault || (rho > x.rhoTarget && 10.0 * x.rhoNow > 3.0 * x.rhoTarget)
            then WrittenAt(x, rho) > 0 && (AdjustedAt(x, rho) > 0 ==> WrittenAt(x, rho) == AdjustedAt(x, rho))
            else WrittenAt(x, rho) == AdjustedAt(x, rho)
    ensures AdjustedAt(x, rho) == 0 && WrittenAt(x, rho) != 0 ==> WrittenAt(x, rho) == 1_000_000
  {
    hide AdjustedAt;
  }

  /** With that replacement the written rate is not monotone any more: it drops from `rho` to
      a larger `rho'` exactly when the replacement fires at `rho` while the rate computed at
      `rho'` is neither zero nor full. */
  lemma WrittenMonotoneIff(x: Setting, rho: real, rho': real)
    requires rho <= rho'
    ensures WrittenAt(x, rho) > WrittenAt(x, rho') <==> Overridden(x, rho) && 0 < AdjustedAt(x, rho') < PPM_SCALE
  {
    hide AdjustedAt;
    ChainMonotone(x, rho, rho', Policy(0, 0, 0, 0, 0, 0, 0, 0, 0, 0, 0, 0), 0);
  }

  /** A concrete drop: just over the target everything is shed, well over it a quarter. */
  lemma WrittenDrops()
    ensures var x := Setting(0.5, 0.5, 2.0, Latency(false, 0.0, 0.0), XdpStats(0, 0));
            WrittenAt(x, 0.5001) == PPM_SCALE && WrittenAt(x, 0.75) == 250000
  {
    hide Pow, Exponent, OverloadFraction, Overshoots, ShedPpm;
    SampleRates();
    QuietStats(0);
    QuietStats(250000);
  }

  lemma QuietStats(target: nat)
    ensures !Overshoots(target, XdpStats(0, 0))
  {}

  lemma SampleRates()
    ensures ShedPpm(OverloadFraction(0.5001, 0.5), 2.0) == 0
    ensures ShedPpm(OverloadFraction(0.75, 0.5), 2.0) == 250000
  {
    assert Exponent(2.0) == 2;
    assert OverloadFraction(0.5001, 0.5) == 0.0002;
    assert OverloadFraction(0.75, 0.5) == 0.5;
    PowOne(0.0002);
    PowOne(0.5);
  }
}
