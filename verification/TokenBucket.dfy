/** The per-(source, tier) token bucket of the XDP program, on wrapping 64-bit words, and
    what it admits over whole runs. */
module TokenBucket {

  const TWO32 := 0x1_0000_0000
  const TWO64 := 0x1_0000_0000_0000_0000
  const TWO61 := 0x2000_0000_0000_0000
  const SECOND := 1_000_000_000
  const PPM_SCALE := 1_000_000

  type U8 = x: int | 0 <= x < 256
  type U32 = x: int | 0 <= x < TWO32
  type U64 = x: int | 0 <= x < TWO64

  function Wrap(x: int): U64 { x % TWO64 }

  lemma WrapSmall(x: int)
    requires 0 <= x < TWO64
    ensures Wrap(x) == x
  {}

  datatype Bucket = Bucket(tokens: U64, last: U64)

  lemma MulMono(a: int, b: int, c: int)
    requires a <= b && 0 <= c
    ensures a * c <= b * c
  {}

  /** `n` seconds' worth of tokens. */
  function Worth(rate: nat, n: nat): (w: nat)
  {
    MulMono(0, n, rate);
    rate * n
  }

  lemma WorthMono(rate: nat, n: nat, m: nat)
    requires n <= m
    ensures Worth(rate, n) <= Worth(rate, m)
  {
    MulMono(n, m, rate);
  }

  lemma WorthOne(rate: nat)
    ensures Worth(rate, 1) == rate
  {}

  lemma WorthAdd(rate: nat, n: nat, m: nat)
    ensures Worth(rate, n + m) == Worth(rate, n) + Worth(rate, m)
  {}

  lemma DivBound(x: nat, y: nat)
    requires x <= y * PPM_SCALE
    ensures x / PPM_SCALE <= y
  {}

  lemma Scaled(m: U32, p: U32)
    ensures 0 <= m * p / PPM_SCALE < TWO64
    ensures p <= PPM_SCALE ==> m * p / PPM_SCALE <= m
  {
    MulMono(0, p, m);
    MulMono(p, TWO32, m);
    DivBound(m * p, m * TWO32);
    if p <= PPM_SCALE {
      MulMono(p, PPM_SCALE, m);
      DivBound(m * p, m);
    }
  }

  /** Tokens per second for a tier: `mu` scaled by the tier's share, never zero. */
  function RefillRate(mu: U32, tierPpm: U32): (rate: U64)
    ensures rate >= 1
    ensures tierPpm <= PPM_SCALE ==> rate < TWO32
  {
    var m := if mu == 0 then 10000 else mu;
    var p := if tierPpm == 0 then PPM_SCALE / 2 else tierPpm;
    Scaled(m, p);
    var rate := m * p / PPM_SCALE;
    if rate == 0 then 1 else rate
  }

  /** The rate by division: `rate` is the whole part of `mu` times the share over a million,
      with 10000 for a missing `mu` and a half for a missing share, and one instead of none. */
  lemma RefillRateIs(mu: U32, tierPpm: U32)
    ensures var m, p := if mu == 0 then 10000 else mu, if tierPpm == 0 then 500_000 else tierPpm;
            var rate := RefillRate(mu, tierPpm);
            if m * p < 1_000_000 then rate == 1 else rate * 1_000_000 <= m * p < rate * 1_000_000 + 1_000_000
  {
    var m, p := if mu == 0 then 10000 else mu, if tierPpm == 0 then 500_000 else tierPpm;
    MulMono(0, p, m);
    WholePart(m * p);
  }

  lemma WholePart(x: nat)
    ensures x / PPM_SCALE * PPM_SCALE <= x < x / PPM_SCALE * PPM_SCALE + PPM_SCALE
    ensures x / PPM_SCALE == 0 <==> x < PPM_SCALE
  {}

  /** Refill then spend, every step modulo 2^64 as in the C code. */
  function Consume(rate: U64, b: Bucket, now: U64, cost: U64): (Bucket, bool) {
    var elapsed := Wrap(now - b.last);
    var filled :=
      if elapsed > SECOND then
        var tokens := Wrap(b.tokens + Wrap(Worth(rate, elapsed / SECOND)));
        Bucket(if tokens > Wrap(Worth(rate, 10)) then Wrap(Worth(rate, 10)) else tokens, now)
      else b;
    if filled.tokens >= cost then (filled.(tokens := filled.tokens - cost), true) else (filled, false)
  }

  /** The same on unbounded integers. */
  function Refilled(rate: nat, b: Bucket, now: nat): (nat, nat)
    requires b.last <= now
  {
    var elapsed := now - b.last;
    if elapsed > SECOND then
      var tokens := b.tokens + Worth(rate, elapsed / SECOND);
      (if tokens > Worth(rate, 10) then Worth(rate, 10) else tokens, now)
    else (b.tokens, b.last)
  }

  /** The rate in force is at most `top`, the bucket is within ten seconds of `top`, the clock
      has not gone back and nothing is a lifetime apart. */
  ghost predicate InRange(top: nat, rate: U64, b: Bucket, now: U64) {
    rate <= top < TWO32 && b.tokens <= Worth(top, 10) && b.last <= now && now - b.last < TWO61
  }

  lemma WorthRate(rate: nat, top: nat, n: nat)
    requires rate <= top
    ensures Worth(rate, n) <= Worth(top, n)
  {
    MulMono(rate, top, n);
  }

  lemma RefillFits(top: nat, rate: U64, b: Bucket, now: U64)
    requires InRange(top, rate, b, now)
    ensures b.tokens + Worth(rate, (now - b.last) / SECOND) < TWO64 && Worth(rate, 10) < TWO64
  {
    var n := (now - b.last) / SECOND;
    assert n <= TWO61 / SECOND;
    MulMono(n, TWO61 / SECOND, rate);
    MulMono(rate, TWO32 - 1, TWO61 / SECOND);
  }

  /** In that range no 64-bit step wraps: the code computes what it would compute on
      unbounded integers, and ten seconds' worth of the highest rate is never exceeded. */
  lemma NoWrap(top: nat, rate: U64, b: Bucket, now: U64, cost: U64)
    requires InRange(top, rate, b, now)
    ensures var (b', ok) := Consume(rate, b, now, cost);
            var (tokens, last) := Refilled(rate, b, now);
            && (ok <==> tokens >= cost)
            && b'.last == last && b'.tokens == (if ok then tokens - cost else tokens)
            && b'.tokens <= tokens <= Worth(top, 10)
  {
    hide Worth, Wrap;
    RefillFits(top, rate, b, now);
    WorthRate(rate, top, 10);
    WrapSmall(now - b.last);
    WrapSmall(Worth(rate, 10));
    WrapSmall(Worth(rate, (now - b.last) / SECOND));
    WrapSmall(b.tokens + Worth(rate, (now - b.last) / SECOND));
  }

  /** The cap belongs to the policy in force. After a request it holds exactly when the
      request refilled the bucket, or what it left was within the cap already: whatever the
      bucket, the rate and the clock. */
  lemma CapHoldsIff(rate: U64, b: Bucket, now: U64, cost: U64)
    ensures Consume(rate, b, now, cost).0.tokens <= Worth(rate, 10) <==>
            Wrap(now - b.last) > SECOND || b.tokens - (if cost <= b.tokens then cost else 0) <= Worth(rate, 10)
  {
    hide Worth;
    WrapLe(Worth(rate, 10));
  }

  lemma WrapLe(x: nat)
    ensures Wrap(x) <= x
  {}

  /** A bucket filled at 100 tokens a second whose policy is lowered to one a second: it still
      holds 999 after the next packet, far above the new cap of ten. */
  lemma LoweredPolicyKeepsTokens()
    ensures var full := Bucket(Worth(100, 10), SECOND);
            Consume(1, full, SECOND + 1, 1) == (Bucket(999, SECOND), true) && Worth(1, 10) == 10
  {}

  // --------------------------------------------------------------------- whole runs

  /** One call: the rate the policy in force gives, the clock and the cost. */
  datatype Request = Request(rate: U64, now: U64, cost: U64)

  function After(b: Bucket, rs: seq<Request>): Bucket {
    if rs == [] then b
    else
      var r := rs[|rs| - 1];
      Consume(r.rate, After(b, rs[..|rs| - 1]), r.now, r.cost).0
  }

  /** The total cost of the requests that were granted. */
  function Spent(b: Bucket, rs: seq<Request>): nat {
    if rs == [] then 0
    else
      var front, r := rs[..|rs| - 1], rs[|rs| - 1];
      Spent(b, front) + (if Consume(r.rate, After(b, front), r.now, r.cost).1 then r.cost else 0)
  }

  /** Requests on a clock that never goes back, all within 2^61 ns after `start`, under any
      policies that never give more than `top`. */
  ghost predicate Clocked(top: nat, start: U64, rs: seq<Request>) {
    && (forall i :: 0 <= i < |rs| ==> rs[i].rate <= top && start <= rs[i].now < start + TWO61)
    && (forall i, j :: 0 <= i < j < |rs| ==> rs[i].now <= rs[j].now)
  }

  lemma DivAdd(a: nat, b: nat)
    ensures a / SECOND + b / SECOND <= (a + b) / SECOND
  {}

  /** Accounting since `t0`: what was spent plus what is left is covered by `base` buckets
      of one second and one more for every full second up to the last refill. */
  ghost predicate Covered(top: nat, base: nat, t0: nat, b: Bucket, spent: nat) {
    t0 <= b.last && spent + b.tokens <= Worth(top, base + (b.last - t0) / SECOND)
  }

  lemma CoveredStep(top: nat, base: nat, t0: nat, b: Bucket, spent: nat, rate: U64, now: U64, cost: U64)
    requires InRange(top, rate, b, now) && Covered(top, base, t0, b, spent)
    ensures var (b', ok) := Consume(rate, b, now, cost);
            Covered(top, base, t0, b', spent + (if ok then cost else 0))
  {
    hide Worth, Consume;
    NoWrap(top, rate, b, now, cost);
    var n, m := (b.last - t0) / SECOND, (now - b.last) / SECOND;
    DivAdd(b.last - t0, now - b.last);
    WorthRate(rate, top, m);
    WorthMono(top, base + n + m, base + (now - t0) / SECOND);
    WorthAdd(top, base + n, m);
  }

  /** The state after a run: capped, not newer than the last request, and covered. */
  lemma {:induction false} RunCovered(top: nat, base: nat, t0: nat, b: Bucket, start: U64, rs: seq<Request>)
    requires top < TWO32 && b.tokens <= Worth(top, 10) && start <= b.last && Clocked(top, start, rs)
    requires rs != [] ==> b.last <= rs[0].now
    requires Covered(top, base, t0, b, 0)
    ensures var b' := After(b, rs);
            && b'.tokens <= Worth(top, 10) && b.last <= b'.last
            && (if rs == [] then b' == b else b'.last <= rs[|rs| - 1].now)
            && Covered(top, base, t0, b', Spent(b, rs))
  {
    hide Worth, Consume;
    if rs != [] {
      var front, r := rs[..|rs| - 1], rs[|rs| - 1];
      RunCovered(top, base, t0, b, start, front);
      var f := After(b, front);
      assert front != [] ==> front[|front| - 1] == rs[|rs| - 2];
      NoWrap(top, r.rate, f, r.now, r.cost);
      CoveredStep(top, base, t0, f, Spent(b, front), r.rate, r.now, r.cost);
    }
  }

  /** A monotone clock, no eviction and any policy changes that keep the rate at or below
      `top`: since its creation at `t0` a bucket has never held more than ten seconds' worth
      of `top` and has granted at most one second's worth plus one for every full second
      since. */
  lemma SpentSinceCreation(top: nat, rate: U64, t0: U64, rs: seq<Request>)
    requires rate <= top < TWO32 && Clocked(top, t0, rs) && rs != []
    ensures After(Bucket(rate, t0), rs).tokens <= Worth(top, 10)
    ensures Spent(Bucket(rate, t0), rs) <= Worth(top, 1 + (rs[|rs| - 1].now - t0) / SECOND)
  {
    hide Worth, Consume, After, Spent;
    var b := Bucket(rate, t0);
    assert Worth(top, 1) == top by { WorthOne(top); }
    WorthMono(top, 1, 10);
    RunCovered(top, 1, t0, b, t0, rs);
    WorthMono(top, 1 + (After(b, rs).last - t0) / SECOND, 1 + (rs[|rs| - 1].now - t0) / SECOND);
  }

  // ---------------------------------------------------------------- any time window

  /** Accounting for a window that opens at `w`, whatever happened before: either the next
      request will refill first and nothing has been spent yet, or what was spent plus what
      is left is covered counting from one second before the window. */
  ghost predicate WindowOk(top: nat, w: nat, b: Bucket, spent: nat) {
    && b.tokens <= Worth(top, 10)
    && (if b.last + SECOND < w then spent == 0
        else spent + b.tokens <= Worth(top, 10 + (b.last + SECOND - w) / SECOND))
  }

  lemma WindowStep(top: nat, w: nat, b: Bucket, spent: nat, rate: U64, now: U64, cost: U64)
    requires InRange(top, rate, b, now) && w <= now && WindowOk(top, w, b, spent)
    ensures var (b', ok) := Consume(rate, b, now, cost);
            WindowOk(top, w, b', spent + (if ok then cost else 0))
  {
    hide Worth, Consume;
    NoWrap(top, rate, b, now, cost);
    if b.last + SECOND < w {
      WorthMono(top, 10, 10 + (now + SECOND - w) / SECOND);
    } else {
      var n, m := (b.last + SECOND - w) / SECOND, (now - b.last) / SECOND;
      DivAdd(b.last + SECOND - w, now - b.last);
      WorthRate(rate, top, m);
      WorthMono(top, 10 + n + m, 10 + (now + SECOND - w) / SECOND);
      WorthAdd(top, 10 + n, m);
    }
  }

  /** What a window's accounting says about the amount spent by time `t`. */
  lemma WindowBound(top: nat, w: nat, b: Bucket, spent: nat, t: nat)
    requires WindowOk(top, w, b, spent) && b.last <= t && w <= t
    ensures spent <= Worth(top, 11 + (t - w) / SECOND)
  {
    hide Worth;
    if b.last + SECOND >= w {
      assert (t + SECOND - w) / SECOND == (t - w) / SECOND + 1;
      assert (b.last + SECOND - w) / SECOND <= (t + SECOND - w) / SECOND;
      WorthMono(top, 10 + (b.last + SECOND - w) / SECOND, 11 + (t - w) / SECOND);
    }
  }

  lemma {:induction false} RunWindow(top: nat, w: nat, b: Bucket, rs: seq<Request>)
    requires top < TWO32 && Clocked(top, b.last, rs) && WindowOk(top, w, b, 0)
    requires forall i :: 0 <= i < |rs| ==> w <= rs[i].now
    ensures var b' := After(b, rs);
            && b.last <= b'.last && (if rs == [] then b' == b else b'.last <= rs[|rs| - 1].now)
            && WindowOk(top, w, b', Spent(b, rs))
  {
    hide Worth, Consume;
    if rs != [] {
      var front, r := rs[..|rs| - 1], rs[|rs| - 1];
      RunWindow(top, w, b, front);
      var f := After(b, front);
      assert front != [] ==> front[|front| - 1] == rs[|rs| - 2];
      NoWrap(top, r.rate, f, r.now, r.cost);
      WindowStep(top, w, f, Spent(b, front), r.rate, r.now, r.cost);
    }
  }

  /** In any window opening at `w`, from any bucket within ten seconds of `top` and under any
      policies at or below it, at most eleven seconds' worth plus one for every full second
      of the window is granted. */
  lemma SpentInWindow(top: nat, w: nat, b: Bucket, rs: seq<Request>)
    requires top < TWO32 && b.tokens <= Worth(top, 10) && b.last <= w
    requires Clocked(top, b.last, rs) && rs != [] && forall i :: 0 <= i < |rs| ==> w <= rs[i].now
    ensures Spent(b, rs) <= Worth(top, 11 + (rs[|rs| - 1].now - w) / SECOND)
  {
    hide Worth, Consume;
    WorthMono(top, 10, 10 + (if b.last + SECOND < w then 0 else (b.last + SECOND - w) / SECOND));
    RunWindow(top, w, b, rs);
    WindowBound(top, w, After(b, rs), Spent(b, rs), rs[|rs| - 1].now);
  }

  // ------------------------------------------------------------------- what is granted

  /** A packet is refused only by an empty bucket that was refilled within the last second. */
  lemma RefusedMeansEmpty(top: nat, rate: U64, b: Bucket, now: U64)
    requires InRange(top, rate, b, now) && rate >= 1
    ensures !Consume(rate, b, now, 1).1 <==> b.tokens == 0 && now - b.last <= SECOND
    ensures !Consume(rate, b, now, 1).1 ==> Consume(rate, b, now, 1).0 == b
  {
    hide Worth, Consume;
    NoWrap(top, rate, b, now, 1);
    WorthOne(rate);
    WorthMono(rate, 1, 10);
    if now - b.last > SECOND {
      WorthMono(rate, 1, (now - b.last) / SECOND);
    }
  }

  /** Requests under policies that give at least `low`, none of which finds its refill cut off
      by the cap. */
  ghost predicate NeverCapped(low: nat, b: Bucket, rs: seq<Request>) {
    rs != [] ==>
      var front, r := rs[..|rs| - 1], rs[|rs| - 1];
      var f := After(b, front);
      && NeverCapped(low, b, front)
      && low <= r.rate
      && (r.now - f.last > SECOND ==> f.tokens + Worth(r.rate, (r.now - f.last) / SECOND) <= Worth(r.rate, 10))
  }

  lemma WorthScale(rate: nat, n: nat, k: nat)
    ensures Worth(rate, k * n) == k * Worth(rate, n)
  {
    assert rate * (k * n) == k * (rate * n);
  }

  /** Fractions of a second are thrown away at a refill, but never more than half of it. */
  lemma RefillKeepsHalf(low: nat, rate: nat, elapsed: nat)
    requires low <= rate && elapsed > SECOND
    ensures Worth(low, elapsed) <= 2 * SECOND * Worth(rate, elapsed / SECOND)
  {
    hide Worth;
    var n := elapsed / SECOND;
    assert elapsed <= 2 * SECOND * n;
    WorthRate(low, rate, elapsed);
    WorthMono(rate, elapsed, 2 * SECOND * n);
    WorthScale(rate, n, 2 * SECOND);
  }

  /** What was granted plus what is left is at least what was there plus half of what the rate
      `low` promises for the time up to the last refill. */
  ghost predicate HalfKept(low: nat, b: Bucket, b': Bucket, spent: nat) {
    b.last <= b'.last && 2 * SECOND * (spent + b'.tokens) >= 2 * SECOND * b.tokens + Worth(low, b'.last - b.last)
  }

  lemma HalfStep(top: nat, low: nat, b: Bucket, f: Bucket, spent: nat, r: Request)
    requires InRange(top, r.rate, f, r.now) && HalfKept(low, b, f, spent) && low <= r.rate
    requires r.now - f.last > SECOND ==> f.tokens + Worth(r.rate, (r.now - f.last) / SECOND) <= Worth(r.rate, 10)
    ensures var (b', ok) := Consume(r.rate, f, r.now, r.cost);
            HalfKept(low, b, b', spent + (if ok then r.cost else 0))
  {
    hide Worth, Consume;
    NoWrap(top, r.rate, f, r.now, r.cost);
    if r.now - f.last > SECOND {
      RefillKeepsHalf(low, r.rate, r.now - f.last);
      WorthAdd(low, f.last - b.last, r.now - f.last);
    }
  }

  lemma HalfStart(low: nat, b: Bucket)
    ensures HalfKept(low, b, b, 0)
  {}

  lemma {:induction false} GrantsAtLeastHalf(top: nat, low: nat, b: Bucket, rs: seq<Request>)
    requires top < TWO32 && b.tokens <= Worth(top, 10) && Clocked(top, b.last, rs) && NeverCapped(low, b, rs)
    ensures var b' := After(b, rs);
            && b'.tokens <= Worth(top, 10) && b.last <= b'.last && (if rs == [] then b' == b else b'.last <= rs[|rs| - 1].now)
            && HalfKept(low, b, b', Spent(b, rs))
  {
    hide Worth, Consume, HalfKept;
    if rs == [] {
      HalfStart(low, b);
    } else {
      var front, r := rs[..|rs| - 1], rs[|rs| - 1];
      GrantsAtLeastHalf(top, low, b, front);
      var f := After(b, front);
      assert front != [] ==> front[|front| - 1] == rs[|rs| - 2];
      NoWrap(top, r.rate, f, r.now, r.cost);
      HalfStep(top, low, b, f, Spent(b, front), r);
    }
  }

  /** A source that is refused has had at least half of what its lowest rate promises for all
      but the last second: the bucket is not a trickle. */
  lemma RefusedHasHadHalf(top: nat, low: nat, b: Bucket, rs: seq<Request>, rate: U64, now: U64)
    requires top < TWO32 && b.tokens <= Worth(top, 10) && Clocked(top, b.last, rs) && NeverCapped(low, b, rs)
    requires 1 <= rate <= top && (if rs == [] then b.last <= now else rs[|rs| - 1].now <= now) && now - b.last < TWO61
    requires !Consume(rate, After(b, rs), now, 1).1
    ensures b.last <= After(b, rs).last && now - SECOND <= After(b, rs).last <= now
    ensures 2 * SECOND * Spent(b, rs) >= 2 * SECOND * b.tokens + Worth(low, After(b, rs).last - b.last)
  {
    hide Worth, Consume, After, Spent, NeverCapped;
    GrantsAtLeastHalf(top, low, b, rs);
    RefusedMeansEmpty(top, rate, After(b, rs), now);
  }

  /** The half is reached: a refill one nanosecond short of two seconds is worth one. */
  lemma HalfIsReached(rate: U64, t: U64)
    requires 1 <= rate < TWO32 && t < TWO61
    ensures Consume(rate, Bucket(0, t), t + 2 * SECOND - 1, 0).0.tokens == rate
  {
    hide Consume, Worth;
    NoWrap(rate, rate, Bucket(0, t), t + 2 * SECOND - 1, 0);
    WorthOne(rate);
    WorthMono(rate, 1, 10);
  }
}
