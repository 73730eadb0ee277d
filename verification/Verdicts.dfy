/** What the XDP program decides, stated about its judgement as a whole: who is stopped, how
    many of the million random draws drop a packet, and what the others do. */
module Verdicts {
  import opened Mitigator
  import opened Options
  import opened TokenBucket

  /** The tier of a parsed packet: a tier of the source address wins over that of the port, and
      without either the packet is standard. */
  predicate IsTier(pkt: Packet, t: U8) {
    if pkt.vipTier.Some? && pkt.vipTier.value < 3 then t == pkt.vipTier.value
    else if pkt.portTier.Some? then t == pkt.portTier.value
    else t == 1
  }

  /** The packet is a SYN and SYNs need a token of their own (bit 1 of the flags). */
  predicate SynGated(pkt: Packet)
    requires pkt.policy.Some? && pkt.header.Some?
  {
    pkt.policy.value.escalate / 2 % 2 == 1 && pkt.header.value.syn
  }

  function SynToken(bs: Buckets, pkt: Packet, t: U8): (Buckets, bool)
    requires pkt.policy.Some? && pkt.header.Some?
  {
    TokenConsume(bs, pkt.policy.value, Key(pkt.header.value.src, t), pkt.synNow, pkt.synSlot, 1)
  }

  /** A blocked source (bit 3 of the flags), or a gated SYN that finds no token. */
  predicate Stopped(bs: Buckets, pkt: Packet, t: U8)
    requires pkt.policy.Some? && pkt.header.Some?
  {
    (pkt.policy.value.escalate / 8 % 2 == 1 && pkt.blocked) || (SynGated(pkt) && !SynToken(bs, pkt, t).1)
  }

  /** A packet under an acting policy that gets past the escalations, if it was parsed at all. */
  predicate GoesOn(bs: Buckets, pkt: Packet, t: U8) {
    Actuating(pkt) && (pkt.header.Some? ==> IsTier(pkt, t) && !Stopped(bs, pkt, t))
  }

  /** The draws, out of a million, that give the packet this verdict. */
  ghost function Draws(bs: Buckets, pkt: Packet, v: Verdict): set<nat> {
    set r: nat | r < 1_000_000 && Judge(bs, pkt.(rnd := r)).1 == v
  }

  function AtMostAll(n: nat): nat { if n < 1_000_000 then n else 1_000_000 }

  /** A set of draws that are exactly those below `n`. */
  lemma {:induction false} CountBelow(draws: set<nat>, n: nat)
    requires forall r: nat :: r in draws <==> r < n
    ensures |draws| == n
  {
    if n == 0 {
      assert draws == {};
    } else {
      CountBelow(draws - {n - 1}, n - 1);
    }
  }

  // --------------------------------------------------------------------- escalations

  /** An escalation that applies always drops. */
  lemma StoppedIsDropped(bs: Buckets, pkt: Packet, t: U8)
    requires Actuating(pkt) && pkt.header.Some? && IsTier(pkt, t) && Stopped(bs, pkt, t)
    ensures Judge(bs, pkt).1 == Drop
  {
    hide TokenConsume;
  }

  /** Without an acting policy everything passes and nothing is charged. */
  lemma NoPolicyPasses(bs: Buckets, pkt: Packet)
    requires pkt.policy.None? || pkt.policy.value.actuate == 0
    ensures Judge(bs, pkt) == (bs, Pass)
  {}

  /** Only the bucket of the packet's own source and tier is ever charged. */
  lemma OnlyOwnBucket(bs: Buckets, pkt: Packet, t: U8, key: Key)
    requires pkt.header.Some? ==> IsTier(pkt, t) && key != Key(pkt.header.value.src, t)
    ensures key in Judge(bs, pkt).0 <==> key in bs
    ensures key in bs ==> Judge(bs, pkt).0[key] == bs[key]
  {
    hide Consume, RateFor;
  }

  // ------------------------------------------------------------- graduated and binary shed

  /** A packet that no token path takes: an older policy, or a packet that did not parse. */
  predicate Graded(bs: Buckets, pkt: Packet, t: U8) {
    GoesOn(bs, pkt, t) && (pkt.policy.value.version < 3 || pkt.header.None?)
  }

  lemma GradedVerdict(bs: Buckets, pkt: Packet, t: U8)
    requires Graded(bs, pkt, t)
    ensures Judge(bs, pkt).1 == Graduated(pkt.policy.value, pkt.rnd)
  {
    hide TokenConsume, Graduated;
  }

  lemma DrawIsFree(bs: Buckets, pkt: Packet, t: U8, r: U32)
    requires Graded(bs, pkt, t)
    ensures Graded(bs, pkt.(rnd := r), t)
  {
    hide TokenConsume;
  }

  /** A positive rate under version 2 or later: of the million draws exactly `shedPpm`, or all,
      drop the packet; they are the lowest; and every other draw redirects it if there is a
      redirect interface and passes it if there is none. */
  lemma ShedShare(bs: Buckets, pkt: Packet, t: U8)
    requires Graded(bs, pkt, t) && pkt.policy.value.version >= 2 && pkt.policy.value.shedPpm > 0
    ensures |Draws(bs, pkt, Drop)| == AtMostAll(pkt.policy.value.shedPpm)
    ensures forall r: nat, r': nat :: r < r' && r' in Draws(bs, pkt, Drop) ==> r in Draws(bs, pkt, Drop)
    ensures forall r: nat :: r < 1_000_000 && r !in Draws(bs, pkt, Drop) ==>
              Judge(bs, pkt.(rnd := r)).1 == if pkt.policy.value.redirectIfindex > 0 then Redirect else Pass
    ensures Judge(bs, pkt).1 == Judge(bs, pkt.(rnd := pkt.rnd % 1_000_000)).1
  {
    assert pkt.policy.Some?;
    hide Judge, Graded;
    forall r: U32 ensures Judge(bs, pkt.(rnd := r)).1 == Graduated(pkt.policy.value, r) {
      DrawIsFree(bs, pkt, t, r);
      GradedVerdict(bs, pkt.(rnd := r), t);
    }
    assert pkt.(rnd := pkt.rnd) == pkt;
    CountBelow(Draws(bs, pkt, Drop), AtMostAll(pkt.policy.value.shedPpm));
  }

  /** A zero rate, or a version before 2: a drop exactly on a fault whose cause is the network
      (1) or mixed (4), and a pass otherwise, whatever the draw. */
  lemma BinaryDrop(bs: Buckets, pkt: Packet, t: U8)
    requires Graded(bs, pkt, t) && (pkt.policy.value.version < 2 || pkt.policy.value.shedPpm == 0)
    ensures var p := pkt.policy.value;
            Judge(bs, pkt).1 == if p.fault != 0 && (p.cause == 1 || p.cause == 4) then Drop else Pass
  {
    hide Judge, Graded;
    GradedVerdict(bs, pkt, t);
  }

  /** The same packet under a policy with another shed rate. */
  function WithShed(pkt: Packet, shed: U32): Packet
    requires pkt.policy.Some?
  {
    pkt.(policy := Some(pkt.policy.value.(shedPpm := shed)))
  }

  lemma RateIsFree(bs: Buckets, pkt: Packet, t: U8, shed: U32)
    requires Graded(bs, pkt, t)
    ensures Graded(bs, WithShed(pkt, shed), t)
  {
    hide Consume;
  }

  /** Raising the rate spares a packet that was dropped in exactly one case: the old rate was
      zero and the packet fell to the binary drop, which any positive rate replaces. */
  lemma RaisedRateSparesIff(bs: Buckets, pkt: Packet, t: U8, shed: U32)
    requires Graded(bs, pkt, t) && pkt.policy.value.version >= 2 && pkt.policy.value.shedPpm <= shed
    requires Judge(bs, pkt).1 == Drop
    ensures Judge(bs, WithShed(pkt, shed)).1 != Drop <==> pkt.policy.value.shedPpm == 0 && 0 < shed <= pkt.rnd % 1_000_000
  {
    assert pkt.policy.Some?;
    hide Judge, Graded;
    RateIsFree(bs, pkt, t, shed);
    GradedVerdict(bs, pkt, t);
    GradedVerdict(bs, WithShed(pkt, shed), t);
  }

  // ------------------------------------------------------------------------- token path

  /** A parsed packet under version 3 or later. */
  predicate Tokened(bs: Buckets, pkt: Packet, t: U8) {
    GoesOn(bs, pkt, t) && pkt.policy.value.version >= 3 && pkt.header.Some?
  }

  /** The packet's own token, taken after the one a gated SYN has already paid. */
  function OwnToken(bs: Buckets, pkt: Packet, t: U8): (Buckets, bool)
    requires Tokened(bs, pkt, t)
  {
    TokenConsume(if SynGated(pkt) then SynToken(bs, pkt, t).0 else bs,
                 pkt.policy.value, Key(pkt.header.value.src, t), pkt.now, pkt.slot, 1)
  }

  lemma TokenedVerdict(bs: Buckets, pkt: Packet, t: U8)
    requires Tokened(bs, pkt, t)
    ensures Judge(bs, pkt).0 == OwnToken(bs, pkt, t).0
    ensures Judge(bs, pkt).1 ==
            if OwnToken(bs, pkt, t).1 then Pass else Overflow(pkt.policy.value, t, pkt.dev, pkt.rnd)
  {
    hide TokenConsume, Overflow;
  }

  lemma TokenDrawIsFree(bs: Buckets, pkt: Packet, t: U8, r: U32)
    requires Tokened(bs, pkt, t)
    ensures Tokened(bs, pkt.(rnd := r), t) && OwnToken(bs, pkt.(rnd := r), t) == OwnToken(bs, pkt, t)
  {
    hide TokenConsume;
  }

  /** With a token a packet passes, whatever the rate. */
  lemma TokenPasses(bs: Buckets, pkt: Packet, t: U8)
    requires Tokened(bs, pkt, t) && OwnToken(bs, pkt, t).1
    ensures Judge(bs, pkt).1 == Pass
  {
    hide Judge, Tokened, OwnToken;
    TokenedVerdict(bs, pkt, t);
  }

  /** The share of the rate that a tier without a token is exposed to. */
  ghost predicate IsShare(t: U8, shed: U32, share: nat) {
    if t == 0 then 20 * share <= shed < 20 * share + 20
    else if t == 1 then 4 * share <= shed < 4 * share + 4
    else share == shed
  }

  /** Some interface to redirect to. */
  predicate CanRedirect(pkt: Packet)
    requires pkt.policy.Some?
  {
    (pkt.dev.Some? && pkt.dev.value > 0) || pkt.policy.value.redirectIfindex > 0
  }

  /** Without a token the critical tier is exposed to a twentieth of the rate and the standard
      tier to a quarter, both rounded down, and every other tier to all of it: that many of
      the million draws do not pass. They drop, except that the critical tier is redirected
      whenever there is somewhere to redirect it to. */
  lemma OverflowShare(bs: Buckets, pkt: Packet, t: U8, share: nat)
    requires Tokened(bs, pkt, t) && !OwnToken(bs, pkt, t).1 && IsShare(t, pkt.policy.value.shedPpm, share)
    ensures var away := if t == 0 && CanRedirect(pkt) then Redirect else Drop;
            && |Draws(bs, pkt, away)| == AtMostAll(share)
            && (forall r: nat :: r < 1_000_000 && r !in Draws(bs, pkt, away) ==> Judge(bs, pkt.(rnd := r)).1 == Pass)
            && (forall r: nat, r': nat :: r < r' && r' in Draws(bs, pkt, away) ==> r in Draws(bs, pkt, away))
  {
    hide Judge, Tokened, OwnToken;
    assert pkt.policy.Some? && pkt.policy.value.version >= 3 by { TokenedPolicy(bs, pkt, t); }
    var p, away := pkt.policy.value, if t == 0 && CanRedirect(pkt) then Redirect else Drop;
    assert share == TierDropPpm(p, t);
    forall r: U32 ensures Judge(bs, pkt.(rnd := r)).1 == if r % 1_000_000 < share then away else Pass {
      TokenDrawIsFree(bs, pkt, t, r);
      TokenedVerdict(bs, pkt.(rnd := r), t);
    }
    CountBelow(Draws(bs, pkt, away), AtMostAll(share));
  }

  lemma TokenedPolicy(bs: Buckets, pkt: Packet, t: U8)
    requires Tokened(bs, pkt, t)
    ensures pkt.policy.Some? && pkt.policy.value.version >= 3
  {
    hide TokenConsume;
  }

  // ------------------------------------------------------------------------ tier rates

  /** The part of `mu` a tier gets, in parts per million. */
  predicate IsTierPpm(p: Policy, t: U8, ppm: U32) {
    match t
    case 0 => ppm == p.refillPpm0
    case 1 => ppm == p.refillPpm1
    case 2 => ppm == p.refillPpm2
    case 3 => ppm == p.refillPpm3
    case _ => ppm == 1_000_000
  }

  /** The first packet of a source under version 3 passes, and leaves a bucket stamped with its
      time that holds one second of the tier's own rate, less the token it took. A source
      whose bucket cannot be stored passes uncharged. */
  lemma FirstPacket(bs: Buckets, pkt: Packet, t: U8, ppm: U32)
    requires Tokened(bs, pkt, t) && !SynGated(pkt) && Key(pkt.header.value.src, t) !in bs
    requires IsTierPpm(pkt.policy.value, t, ppm)
    ensures var (bs', v) := Judge(bs, pkt);
            var key := Key(pkt.header.value.src, t);
            && v == Pass
            && (if !pkt.slot then bs' == bs
                else bs' == bs[key := Bucket(RefillRate(pkt.policy.value.mu, ppm) - 1, pkt.now)])
  {
    hide RefillRate;
    var rate := RateFor(pkt.policy.value, t);
    assert rate == RefillRate(pkt.policy.value.mu, ppm);
    FreshConsume(rate, pkt.now);
    hide Consume;
    TokenedVerdict(bs, pkt, t);
  }

  lemma FreshConsume(rate: U64, now: U64)
    requires rate >= 1
    ensures Consume(rate, Bucket(rate, now), now, 1) == (Bucket(rate - 1, now), true)
  {}
}
