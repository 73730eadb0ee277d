/** The XDP program: verdicts, per-CPU accounting and what a full shed admits. Map lookups,
    the clock, the random draw and the parsed header are inputs of each packet. */
module Mitigator {
  import opened Options
  import opened TokenBucket

  const POLICY_V2 := 2
  const POLICY_V3 := 3
  const CAUSE_NETWORK := 1
  const CAUSE_MIXED := 4
  const TIER_CRITICAL := 0
  const TIER_STANDARD := 1
  const TIER_BACKGROUND := 2
  const TIER_COUNT := 3
  const ESC_SYN_PROXY := 2
  const ESC_SOURCE_BLOCK := 8
  const LAMBDA_RING_BATCH := 1024

  datatype Policy = Policy(
    version: U64, fault: U8, cause: U8, actuate: U8, shedPpm: U32, redirectIfindex: U32,
    refillPpm0: U32, refillPpm1: U32, refillPpm2: U32, refillPpm3: U32, mu: U32, escalate: U32)

  datatype Header = Header(src: U32, syn: bool)

  /** One packet with everything the program looks up for it. `slot` and `synSlot` say
      whether a bucket that has just been inserted can be found again. */
  datatype Packet = Packet(
    policy: Option<Policy>, header: Option<Header>, portTier: Option<U8>, vipTier: Option<U8>, blocked: bool,
    synNow: U64, synSlot: bool, now: U64, slot: bool, dev: Option<U32>, rnd: U32, ringOk: bool)

  datatype Key = Key(src: U32, tier: U8)

  datatype Verdict = Pass | Drop | Redirect

  datatype LambdaEvent = LambdaEvent(pkts: U32, syn: U32, pass: U32, drop: U32)

  type Buckets = map<Key, Bucket>

  datatype State = State(buckets: Buckets, pass: U64, drop: U64, redirect: U64, counter: U64, events: seq<LambdaEvent>)

  const FRESH := State(map[], 0, 0, 0, 0, [])

  // ------------------------------------------------------------------------ decisions

  predicate HasFlag(flags: U32, flag: U32)
    requires flag > 0
  {
    flags / flag % 2 == 1
  }

  function RateFor(p: Policy, tier: U8): U64 {
    RefillRate(p.mu,
               if tier == 0 then p.refillPpm0 else if tier == 1 then p.refillPpm1
               else if tier == 2 then p.refillPpm2 else if tier == 3 then p.refillPpm3 else PPM_SCALE)
  }

  function TierDropPpm(p: Policy, tier: U8): (ppm: U32)
    ensures ppm <= p.shedPpm
  {
    if p.version < POLICY_V2 || p.shedPpm == 0 then 0
    else if tier == TIER_CRITICAL then p.shedPpm / 20
    else if tier == TIER_STANDARD then p.shedPpm / 4
    else p.shedPpm
  }

  function TokenConsume(buckets: Buckets, p: Policy, key: Key, now: U64, slot: bool, cost: U64): (Buckets, bool) {
    var rate := RateFor(p, key.tier);
    if key !in buckets && !slot then (buckets, true)
    else
      var (b, ok) := Consume(rate, if key in buckets then buckets[key] else Bucket(rate, now), now, cost);
      (buckets[key := b], ok)
  }

  predicate Actuating(pkt: Packet) { pkt.policy.Some? && pkt.policy.value.actuate != 0 }

  function PacketTier(pkt: Packet): U8 {
    if pkt.header.None? then TIER_STANDARD
    else
      var port := if pkt.portTier.Some? then pkt.portTier.value else TIER_STANDARD;
      var vip := if pkt.vipTier.Some? then pkt.vipTier.value else TIER_COUNT;
      if vip < TIER_COUNT then vip else port
  }

  /** Shedding below version 3, and for packets that did not parse. */
  function Graduated(p: Policy, rnd: U32): Verdict {
    if p.version >= POLICY_V2 && p.shedPpm > 0 then
      if rnd % PPM_SCALE < p.shedPpm then Drop
      else if p.redirectIfindex > 0 then Redirect
      else Pass
    else if p.fault != 0 && (p.cause == CAUSE_NETWORK || p.cause == CAUSE_MIXED) then Drop
    else Pass
  }

  /** What happens to a packet that found no token. */
  function Overflow(p: Policy, tier: U8, dev: Option<U32>, rnd: U32): Verdict {
    var dropPpm := TierDropPpm(p, tier);
    if dropPpm > 0 && rnd % PPM_SCALE < dropPpm then
      if tier == TIER_CRITICAL && dev.Some? && dev.value > 0 then Redirect
      else if p.redirectIfindex > 0 && tier == TIER_CRITICAL then Redirect
      else Drop
    else Pass
  }

  predicate IsSyn(pkt: Packet) { pkt.header.Some? && pkt.header.value.syn }

  /** What the two escalations leave: a blocked source, or a SYN without a token, goes no
      further. */
  function Screened(buckets: Buckets, p: Policy, key: Key, pkt: Packet): (Buckets, bool) {
    if HasFlag(p.escalate, ESC_SOURCE_BLOCK) && pkt.blocked then (buckets, false)
    else if HasFlag(p.escalate, ESC_SYN_PROXY) && IsSyn(pkt) then TokenConsume(buckets, p, key, pkt.synNow, pkt.synSlot, 1)
    else (buckets, true)
  }

  function Decide(buckets: Buckets, p: Policy, pkt: Packet): (Buckets, Verdict) {
    if pkt.header.None? then (buckets, Graduated(p, pkt.rnd))
    else
      var key := Key(pkt.header.value.src, PacketTier(pkt));
      var (bs, goesOn) := Screened(buckets, p, key, pkt);
      if !goesOn then (bs, Drop)
      else if p.version >= POLICY_V3 then
        var (bs', ok) := TokenConsume(bs, p, key, pkt.now, pkt.slot, 1);
        (bs', if ok then Pass else Overflow(p, key.tier, pkt.dev, pkt.rnd))
      else (bs, Graduated(p, pkt.rnd))
  }

  // ----------------------------------------------------------------------- accounting

  /** What a verdict is owed, whatever path led to it: one more in its own counter, one more
      packet, and at the end of a batch an event that flags a pass or a drop. */
  function Account(s: State, v: Verdict, syn: bool, ringOk: bool): State {
    var counter := Wrap(s.counter + 1);
    var event := LambdaEvent(LAMBDA_RING_BATCH, if syn then 1 else 0, if v == Pass then 1 else 0, if v == Drop then 1 else 0);
    State(s.buckets,
          if v == Pass then Wrap(s.pass + 1) else s.pass,
          if v == Drop then Wrap(s.drop + 1) else s.drop,
          if v == Redirect then Wrap(s.redirect + 1) else s.redirect,
          counter,
          if counter % LAMBDA_RING_BATCH == 0 && ringOk then s.events + [event] else s.events)
  }

  /** The buckets and the verdict for a packet, with or without a policy that acts. */
  function Judge(buckets: Buckets, pkt: Packet): (Buckets, Verdict) {
    if Actuating(pkt) then Decide(buckets, pkt.policy.value, pkt) else (buckets, Pass)
  }

  /** The program's whole effect; `Cpu.OnPacket` shows that each of its return paths has it. */
  function Process(s: State, pkt: Packet): (State, Verdict) {
    var (bs, v) := Judge(s.buckets, pkt);
    (if Actuating(pkt) then Account(s.(buckets := bs), v, IsSyn(pkt), pkt.ringOk) else s, v)
  }

  function RunPackets(pkts: seq<Packet>): State {
    if pkts == [] then FRESH else Process(RunPackets(pkts[..|pkts| - 1]), pkts[|pkts| - 1]).0
  }

  /** How many packets of the run were judged `v` while the policy was actuating. */
  function Judged(pkts: seq<Packet>, v: Verdict): nat {
    if pkts == [] then 0
    else
      var front, pkt := pkts[..|pkts| - 1], pkts[|pkts| - 1];
      Judged(front, v) + (if Actuating(pkt) && Process(RunPackets(front), pkt).1 == v then 1 else 0)
  }

  function Seen(pkts: seq<Packet>): nat {
    if pkts == [] then 0 else Seen(pkts[..|pkts| - 1]) + (if Actuating(pkts[|pkts| - 1]) then 1 else 0)
  }

  lemma WrapNext(n: nat)
    ensures Wrap(Wrap(n) + 1) == Wrap(n + 1)
  {}

  lemma WrapBatch(n: nat)
    ensures Wrap(n) % LAMBDA_RING_BATCH == n % LAMBDA_RING_BATCH
  {
    assert n == n / TWO64 * TWO64 + n % TWO64;
    assert TWO64 == LAMBDA_RING_BATCH * 0x40_0000_0000_0000;
    var q := n / TWO64 * 0x40_0000_0000_0000;
    assert n == LAMBDA_RING_BATCH * q + Wrap(n);
  }

  /** Conservation over any packet run with any policy changes, on one CPU: every counter is
      the number of packets judged that way, the three verdicts together are the packets
      seen while actuating, the packet counter is that same number, and one ring event is
      emitted for every full batch as long as the ring has room. All counters are words, so
      all of this is modulo 2^64; the event count is exact because the batch divides 2^64. */
  lemma {:induction false} Conservation(pkts: seq<Packet>)
    ensures var s := RunPackets(pkts);
            && s.pass == Wrap(Judged(pkts, Pass)) && s.drop == Wrap(Judged(pkts, Drop)) && s.redirect == Wrap(Judged(pkts, Redirect))
            && Judged(pkts, Pass) + Judged(pkts, Drop) + Judged(pkts, Redirect) == Seen(pkts)
            && s.counter == Wrap(Seen(pkts))
            && |s.events| <= Seen(pkts) / LAMBDA_RING_BATCH
            && ((forall i :: 0 <= i < |pkts| ==> pkts[i].ringOk) ==> |s.events| == Seen(pkts) / LAMBDA_RING_BATCH)
  {
    hide Decide, Wrap, Process;
    if pkts != [] {
      var front, pkt := pkts[..|pkts| - 1], pkts[|pkts| - 1];
      Conservation(front);
      assert forall i :: 0 <= i < |front| ==> front[i] == pkts[i];
      OneVerdict(RunPackets(front), pkt);
      if Actuating(pkt) {
        WrapNext(Judged(front, Pass));
        WrapNext(Judged(front, Drop));
        WrapNext(Judged(front, Redirect));
        WrapNext(Seen(front));
        WrapBatch(Seen(front) + 1);
      }
    } else {
      WrapSmall(0);
    }
  }

  /** One packet moves exactly one of the three counters, the one of its verdict, and the
      packet counter with it. */
  lemma OneVerdict(s: State, pkt: Packet)
    ensures var (s', v) := Process(s, pkt);
            if !Actuating(pkt) then s' == s && v == Pass
            else
              && s'.pass == (if v == Pass then Wrap(s.pass + 1) else s.pass)
              && s'.drop == (if v == Drop then Wrap(s.drop + 1) else s.drop)
              && s'.redirect == (if v == Redirect then Wrap(s.redirect + 1) else s.redirect)
              && s'.counter == Wrap(s.counter + 1)
              && |s'.events| == |s.events| + (if s'.counter % 1024 == 0 && pkt.ringOk then 1 else 0)
              && s.events <= s'.events
              && (|s'.events| > |s.events| ==> Reports(s'.events[|s.events|], pkt, v))
  {
    hide Decide, Wrap;
  }

  /** A ring event stands for a whole batch and describes the packet that filled it. */
  predicate Reports(e: LambdaEvent, pkt: Packet, v: Verdict) {
    && e.pkts == 1024
    && e.syn == (if pkt.header.Some? && pkt.header.value.syn then 1 else 0)
    && e.pass == (if v == Pass then 1 else 0)
    && e.drop == (if v == Drop then 1 else 0)
  }

  /** Without wrap-around the counters are the plain numbers. */
  lemma ConservationExact(pkts: seq<Packet>)
    requires |pkts| < TWO64
    ensures var s := RunPackets(pkts);
            s.pass + s.drop + s.redirect == s.counter == Seen(pkts)
  {
    hide RunPackets, Wrap, Judged;
    Conservation(pkts);
    SeenBound(pkts);
    WrapSmall(Judged(pkts, Pass));
    WrapSmall(Judged(pkts, Drop));
    WrapSmall(Judged(pkts, Redirect));
    WrapSmall(Seen(pkts));
  }

  lemma {:induction false} SeenBound(pkts: seq<Packet>)
    ensures Seen(pkts) <= |pkts|
  {
    if pkts != [] { SeenBound(pkts[..|pkts| - 1]); }
  }

  // ------------------------------------------------------------- admission under full shed

  /** A version-3 policy that sheds everything it may. */
  predicate FullShed(p: Policy) {
    p.version >= POLICY_V3 && p.actuate != 0 && p.shedPpm >= PPM_SCALE
  }

  predicate For(pkt: Packet, key: Key) {
    pkt.header.Some? && pkt.header.value.src == key.src && PacketTier(pkt) == key.tier
  }

  /** Policies that may change from packet to packet, all of them full sheds and none giving
      the tier more than `top` a second; a clock that never goes back; no bucket lost. */
  ghost predicate ShedRun(top: nat, tier: U8, start: U64, pkts: seq<Packet>) {
    && (forall i :: 0 <= i < |pkts| ==>
          && pkts[i].policy.Some? && FullShed(pkts[i].policy.value) && RateFor(pkts[i].policy.value, tier) <= top
          && pkts[i].slot && pkts[i].synSlot
          && start <= pkts[i].synNow <= pkts[i].now < start + TWO61)
    && (forall i, j :: 0 <= i < j < |pkts| ==> pkts[i].now <= pkts[j].synNow)
  }

  function BucketsAfter(bs: Buckets, pkts: seq<Packet>): Buckets {
    if pkts == [] then bs else Judge(BucketsAfter(bs, pkts[..|pkts| - 1]), pkts[|pkts| - 1]).0
  }

  /** How many packets of `key` were passed. */
  function Passed(bs: Buckets, key: Key, pkts: seq<Packet>): nat {
    if pkts == [] then 0
    else
      var front, pkt := pkts[..|pkts| - 1], pkts[|pkts| - 1];
      Passed(bs, key, front) + (if For(pkt, key) && Judge(BucketsAfter(bs, front), pkt).1 == Pass then 1 else 0)
  }

  /** A window's accounting for a key that may not have a bucket yet. */
  ghost predicate KeyOk(bs: Buckets, top: nat, w: U64, now: U64, key: Key, passed: nat) {
    if key in bs
    then bs[key].last <= now && now - bs[key].last < TWO61 && WindowOk(top, w, bs[key], passed)
    else passed == 0
  }

  /** The accounting covers at least the packets passed so far. */
  ghost predicate Accounted(bs: Buckets, top: nat, w: U64, now: U64, key: Key, passed: nat) {
    exists n: nat :: n >= passed && KeyOk(bs, top, w, now, key, n)
  }

  lemma ConsumeKey(bs: Buckets, p: Policy, top: nat, w: U64, t: U64, key: Key, passed: nat, now: U64)
    requires RateFor(p, key.tier) <= top < TWO32 && w <= t <= now < t + TWO61
    requires KeyOk(bs, top, w, t, key, passed)
    requires key in bs ==> now - bs[key].last < TWO61
    ensures var (bs', ok) := TokenConsume(bs, p, key, now, true, 1);
            && KeyOk(bs', top, w, now, key, passed + (if ok then 1 else 0))
            && key in bs' && (if key in bs then bs[key].last <= bs'[key].last else bs'[key].last == now)
            && forall k :: k != key ==> (k in bs' <==> k in bs) && (k in bs ==> bs'[k] == bs[k])
  {
    hide Consume, Worth, RateFor;
    var rate := RateFor(p, key.tier);
    var b := if key in bs then bs[key] else Bucket(rate, now);
    assert WindowOk(top, w, b, passed) && InRange(top, rate, b, now) by {
      WorthOne(top);
      WorthMono(top, 1, 10);
      if key !in bs {
        WorthMono(top, 10, 10 + (b.last + SECOND - w) / SECOND);
      }
    }
    WindowStep(top, w, b, passed, rate, now, 1);
    NoWrap(top, rate, b, now, 1);
  }

  lemma OverflowDrops(p: Policy, tier: U8, dev: Option<U32>, rnd: U32)
    requires FullShed(p) && tier >= TIER_BACKGROUND
    ensures Overflow(p, tier, dev, rnd) == Drop
  {}

  /** Under a full shed a background packet is only passed against a token. */
  lemma DecideKey(bs: Buckets, p: Policy, top: nat, start: U64, w: U64, t: U64, key: Key, passed: nat, pkt: Packet)
    requires FullShed(p) && key.tier >= TIER_BACKGROUND && RateFor(p, key.tier) <= top < TWO32
    requires KeyOk(bs, top, w, t, key, passed) && pkt.slot && pkt.synSlot
    requires w <= t <= pkt.synNow <= pkt.now < start + TWO61 && start <= w
    requires key in bs ==> start <= bs[key].last
    ensures var (bs', v) := Decide(bs, p, pkt);
            && Accounted(bs', top, w, pkt.now, key, passed + (if For(pkt, key) && v == Pass then 1 else 0))
            && (key in bs' ==> start <= bs'[key].last)
  {
    hide Consume, Worth, WindowOk, RateFor;
    if For(pkt, key) && !(HasFlag(p.escalate, ESC_SOURCE_BLOCK) && pkt.blocked) {
      var bs1, n1, t1 := bs, passed, t;
      var synOk := true;
      if HasFlag(p.escalate, ESC_SYN_PROXY) && pkt.header.value.syn {
        ConsumeKey(bs, p, top, w, t, key, passed, pkt.synNow);
        var r := TokenConsume(bs, p, key, pkt.synNow, true, 1);
        bs1, synOk := r.0, r.1;
        n1, t1 := passed + (if synOk then 1 else 0), pkt.synNow;
      }
      if synOk {
        ConsumeKey(bs1, p, top, w, t1, key, n1, pkt.now);
        var ok := TokenConsume(bs1, p, key, pkt.now, true, 1).1;
        OverflowDrops(p, key.tier, pkt.dev, pkt.rnd);
        var n := n1 + (if ok then 1 else 0);
        assert KeyOk(Decide(bs, p, pkt).0, top, w, pkt.now, key, n);
      } else {
        assert Decide(bs, p, pkt) == (bs1, Drop);
        assert KeyOk(bs1, top, w, pkt.now, key, n1);
      }
    } else {
      OtherKey(bs, p, key, pkt);
      assert KeyOk(Decide(bs, p, pkt).0, top, w, pkt.now, key, passed);
    }
  }

  /** A packet for another key, or one that is blocked, leaves a key's bucket alone. */
  lemma OtherKey(bs: Buckets, p: Policy, key: Key, pkt: Packet)
    requires !For(pkt, key) || (HasFlag(p.escalate, ESC_SOURCE_BLOCK) && pkt.blocked)
    ensures var (bs', v) := Decide(bs, p, pkt);
            && (key in bs' <==> key in bs) && (key in bs ==> bs'[key] == bs[key])
            && (For(pkt, key) ==> v == Drop)
  {
    hide Consume;
  }

  /** The time of the last packet, or `w` when there is none. */
  function LastTime(w: U64, pkts: seq<Packet>): U64 {
    if pkts == [] then w else pkts[|pkts| - 1].now
  }

  /** A bucket, if there is one, was refilled since `start`, not after the window opened, and
      holds no more than ten seconds' worth. */
  ghost predicate Opens(bs: Buckets, top: nat, start: U64, w: U64, key: Key) {
    key in bs ==> start <= bs[key].last <= w && bs[key].tokens <= Worth(top, 10) && w - bs[key].last < TWO61
  }

  lemma {:induction false} RunKey(bs: Buckets, top: nat, start: U64, w: U64, key: Key, pkts: seq<Packet>)
    requires key.tier >= TIER_BACKGROUND && top < TWO32 && ShedRun(top, key.tier, start, pkts)
    requires start <= w && (pkts != [] ==> w <= pkts[0].synNow) && Opens(bs, top, start, w, key)
    ensures var bs' := BucketsAfter(bs, pkts);
            && Accounted(bs', top, w, LastTime(w, pkts), key, Passed(bs, key, pkts))
            && (key in bs' ==> start <= bs'[key].last)
  {
    hide Consume, Worth, Decide, RateFor;
    if pkts == [] {
      if key in bs {
        WorthMono(top, 10, 10 + (if bs[key].last + SECOND < w then 0 else (bs[key].last + SECOND - w) / SECOND));
      }
      assert KeyOk(bs, top, w, w, key, 0);
    } else {
      var front, pkt := pkts[..|pkts| - 1], pkts[|pkts| - 1];
      RunKey(bs, top, start, w, key, front);
      var t := LastTime(w, front);
      var n: nat :| n >= Passed(bs, key, front) && KeyOk(BucketsAfter(bs, front), top, w, t, key, n);
      DecideKey(BucketsAfter(bs, front), pkt.policy.value, top, start, w, t, key, n, pkt);
    }
  }

  /** Under full sheds the program passes, for one background source, no more packets in any
      window than its token bucket grants at the highest rate any of the policies gives:
      eleven seconds' worth plus one for every full second of the window, however many
      packets of however many sources arrive and however often the policy is rewritten. */
  lemma FullShedAdmission(bs: Buckets, top: nat, start: U64, w: U64, key: Key, pkts: seq<Packet>)
    requires key.tier >= TIER_BACKGROUND && top < TWO32 && ShedRun(top, key.tier, start, pkts)
    requires pkts != [] && start <= w <= pkts[0].synNow && Opens(bs, top, start, w, key)
    ensures Passed(bs, key, pkts) <= Worth(top, 11 + (pkts[|pkts| - 1].now - w) / SECOND)
  {
    hide Consume, Worth, Decide, BucketsAfter, Passed, ShedRun;
    RunKey(bs, top, start, w, key, pkts);
    var bs', t := BucketsAfter(bs, pkts), LastTime(w, pkts);
    ShedRunTime(top, key.tier, start, w, pkts);
    var n: nat :| n >= Passed(bs, key, pkts) && KeyOk(bs', top, w, t, key, n);
    if key in bs' {
      WindowBound(top, w, bs'[key], n, t);
    }
  }

  lemma ShedRunTime(top: nat, tier: U8, start: U64, w: U64, pkts: seq<Packet>)
    requires ShedRun(top, tier, start, pkts) && pkts != [] && w <= pkts[0].synNow
    ensures w <= LastTime(w, pkts)
  {
    hide RateFor;
    if |pkts| > 1 {
      assert pkts[0].now <= pkts[|pkts| - 1].synNow;
    }
  }

  // --------------------------------------------------------------------- the program

  class Cpu {
    var buckets: Buckets
    var pass: U64
    var drop: U64
    var redirect: U64
    var counter: U64
    var ring: seq<LambdaEvent>
    ghost var seen: seq<Packet>

    ghost function View(): State
      reads this
    {
      State(buckets, pass, drop, redirect, counter, ring)
    }

    /** The state is the one the packets seen so far lead to, so `Conservation` speaks about
        the counters of this object. */
    ghost predicate Valid()
      reads this
    {
      View() == RunPackets(seen)
    }

    constructor ()
      ensures Valid() && seen == [] && View() == FRESH
    {
      buckets, pass, drop, redirect, counter, ring := map[], 0, 0, 0, 0, [];
      seen := [];
    }

    method BumpStat(pass: U64, drop: U64, redir: U64)
      modifies this`pass, this`drop, this`redirect
      ensures this.pass == Wrap(old(this.pass) + pass)
      ensures this.drop == Wrap(old(this.drop) + drop)
      ensures redirect == Wrap(old(redirect) + redir)
    {
      if pass != 0 {
        this.pass := Wrap(this.pass + pass);
      }
      if drop != 0 {
        this.drop := Wrap(this.drop + drop);
      }
      if redir != 0 {
        redirect := Wrap(redirect + redir);
      }
    }

    method MaybeEmitLambda(syn: U32, pass: U32, drop: U32, ringOk: bool)
      modifies this`counter, this`ring
      ensures counter == Wrap(old(counter) + 1)
      ensures ring == if counter % LAMBDA_RING_BATCH == 0 && ringOk
                      then old(ring) + [LambdaEvent(LAMBDA_RING_BATCH, syn, pass, drop)] else old(ring)
    {
      counter := Wrap(counter + 1);
      if counter % LAMBDA_RING_BATCH != 0 {
        return;
      }
      if !ringOk {
        return;
      }
      ring := ring + [LambdaEvent(LAMBDA_RING_BATCH, syn, pass, drop)];
    }

    method ConsumeToken(p: Policy, key: Key, now: U64, slot: bool, cost: U64) returns (ok: bool)
      modifies this`buckets
      ensures (buckets, ok) == TokenConsume(old(buckets), p, key, now, slot, cost)
    {
      hide Worth, Wrap, RateFor;
      var rate := RateFor(p, key.tier);
      if key !in buckets {
        if !slot {
          return true;
        }
        buckets := buckets[key := Bucket(rate, now)];
      }
      var b := buckets[key];
      var elapsed := Wrap(now - b.last);
      if elapsed > SECOND {
        b := b.(tokens := Wrap(b.tokens + Wrap(Worth(rate, elapsed / SECOND))));
        if b.tokens > Wrap(Worth(rate, 10)) {
          b := b.(tokens := Wrap(Worth(rate, 10)));
        }
        b := b.(last := now);
      }
      ok := b.tokens >= cost;
      if ok {
        b := b.(tokens := b.tokens - cost);
      }
      buckets := buckets[key := b];
      assert buckets == old(buckets)[key := b];
    }

    /** The program, return path by return path, each with its own accounting calls: here up
        to the classification of the packet, then `Screen`, `TokenPath` and `ShedPath`. */
    method Mitigate(pkt: Packet) returns (v: Verdict)
      modifies this`buckets, this`pass, this`drop, this`redirect, this`counter, this`ring
      ensures (View(), v) == Process(old(View()), pkt)
    {
      hide TokenConsume, RateFor, Wrap, RunPackets, Overflow, Graduated, Account, Screened, HasFlag;
      if pkt.policy.None? || pkt.policy.value.actuate == 0 {
        return Pass;
      }
      var p := pkt.policy.value;
      if pkt.header.None? {
        v := ShedPath(p, pkt, 0);
        return;
      }
      var synBatch := if pkt.header.value.syn then 1 else 0;
      var tier := if pkt.portTier.Some? then pkt.portTier.value else TIER_STANDARD;
      var vt := if pkt.vipTier.Some? then pkt.vipTier.value else TIER_COUNT;
      if vt < TIER_COUNT {
        tier := vt;
      }
      var key := Key(pkt.header.value.src, tier);
      var stopped := Screen(p, key, pkt, synBatch);
      if stopped {
        return Drop;
      }
      if p.version >= POLICY_V3 {
        v := TokenPath(p, key, pkt, synBatch);
      } else {
        v := ShedPath(p, pkt, synBatch);
      }
    }

    /** The two escalations. */
    method Screen(p: Policy, key: Key, pkt: Packet, synBatch: U32) returns (stopped: bool)
      requires synBatch == if IsSyn(pkt) then 1 else 0
      modifies this`buckets, this`pass, this`drop, this`redirect, this`counter, this`ring
      ensures var (bs, ok) := Screened(old(buckets), p, key, pkt);
              && stopped == !ok
              && View() == if ok then old(View()).(buckets := bs)
                           else Account(old(View()).(buckets := bs), Drop, IsSyn(pkt), pkt.ringOk)
    {
      hide TokenConsume, RateFor, Wrap, RunPackets;
      WrapSmall(pass);
      WrapSmall(drop);
      WrapSmall(redirect);
      if HasFlag(p.escalate, ESC_SOURCE_BLOCK) {
        if pkt.blocked {
          BumpStat(0, 1, 0);
          MaybeEmitLambda(synBatch, 0, 1, pkt.ringOk);
          return true;
        }
      }
      if HasFlag(p.escalate, ESC_SYN_PROXY) && IsSyn(pkt) {
        var granted := ConsumeToken(p, key, pkt.synNow, pkt.synSlot, 1);
        if !granted {
          BumpStat(0, 1, 0);
          MaybeEmitLambda(synBatch, 0, 1, pkt.ringOk);
          return true;
        }
      }
      stopped := false;
    }

    /** From the version-3 branch on. */
    method TokenPath(p: Policy, key: Key, pkt: Packet, synBatch: U32) returns (v: Verdict)
      requires synBatch == if IsSyn(pkt) then 1 else 0
      modifies this`buckets, this`pass, this`drop, this`redirect, this`counter, this`ring
      ensures var (bs, ok) := TokenConsume(old(buckets), p, key, pkt.now, pkt.slot, 1);
              && v == (if ok then Pass else Overflow(p, key.tier, pkt.dev, pkt.rnd))
              && View() == Account(old(View()).(buckets := bs), v, IsSyn(pkt), pkt.ringOk)
    {
      hide TokenConsume, RateFor, Wrap, RunPackets;
      WrapSmall(pass);
      WrapSmall(drop);
      WrapSmall(redirect);
      var ok := ConsumeToken(p, key, pkt.now, pkt.slot, 1);
      if ok {
        BumpStat(1, 0, 0);
        MaybeEmitLambda(synBatch, 1, 0, pkt.ringOk);
        return Pass;
      }
      var dropPpm := TierDropPpm(p, key.tier);
      if dropPpm > 0 {
        if pkt.rnd % PPM_SCALE < dropPpm {
          if key.tier == TIER_CRITICAL && pkt.dev.Some? && pkt.dev.value > 0 {
            BumpStat(0, 0, 1);
            MaybeEmitLambda(synBatch, 0, 0, pkt.ringOk);
            return Redirect;
          }
          if p.redirectIfindex > 0 && key.tier == TIER_CRITICAL {
            BumpStat(0, 0, 1);
            MaybeEmitLambda(synBatch, 0, 0, pkt.ringOk);
            return Redirect;
          }
          BumpStat(0, 1, 0);
          MaybeEmitLambda(synBatch, 0, 1, pkt.ringOk);
          return Drop;
        }
      }
      BumpStat(1, 0, 0);
      MaybeEmitLambda(synBatch, 1, 0, pkt.ringOk);
      v := Pass;
    }

    /** Graduated shedding, and the binary drop of older policies. */
    method ShedPath(p: Policy, pkt: Packet, synBatch: U32) returns (v: Verdict)
      requires synBatch == if IsSyn(pkt) then 1 else 0
      modifies this`pass, this`drop, this`redirect, this`counter, this`ring
      ensures v == Graduated(p, pkt.rnd)
      ensures View() == Account(old(View()), v, IsSyn(pkt), pkt.ringOk)
    {
      hide Wrap, RunPackets;
      WrapSmall(pass);
      WrapSmall(drop);
      WrapSmall(redirect);
      if p.version >= POLICY_V2 && p.shedPpm > 0 {
        if pkt.rnd % PPM_SCALE < p.shedPpm {
          BumpStat(0, 1, 0);
          MaybeEmitLambda(synBatch, 0, 1, pkt.ringOk);
          return Drop;
        }
        if p.redirectIfindex > 0 {
          BumpStat(0, 0, 1);
          MaybeEmitLambda(synBatch, 0, 0, pkt.ringOk);
          return Redirect;
        }
        BumpStat(1, 0, 0);
        MaybeEmitLambda(synBatch, 1, 0, pkt.ringOk);
        return Pass;
      }
      if p.fault != 0 && (p.cause == CAUSE_NETWORK || p.cause == CAUSE_MIXED) {
        BumpStat(0, 1, 0);
        MaybeEmitLambda(synBatch, 0, 1, pkt.ringOk);
        return Drop;
      }
      BumpStat(1, 0, 0);
      MaybeEmitLambda(synBatch, 1, 0, pkt.ringOk);
      v := Pass;
    }

    /** One packet after all the packets before it: the real counters are what conservation
        says about the whole run. */
    method OnPacket(pkt: Packet) returns (v: Verdict)
      requires Valid()
      modifies this
      ensures Valid() && seen == old(seen) + [pkt] && (View(), v) == Process(old(View()), pkt)
      ensures pass == Wrap(Judged(seen, Pass)) && drop == Wrap(Judged(seen, Drop)) && redirect == Wrap(Judged(seen, Redirect))
      ensures counter == Wrap(Judged(seen, Pass) + Judged(seen, Drop) + Judged(seen, Redirect))
    {
      hide Process, Judged, Wrap;
      v := Mitigate(pkt);
      seen := seen + [pkt];
      assert seen[..|seen| - 1] == old(seen);
      Conservation(seen);
    }
  }
}
