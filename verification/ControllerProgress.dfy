/** Back-pressure does not starve a reader: what one tick gives a client that is behind. */
module ControllerProgress {
  import opened ChangeLog
  import opened Controller
  import opened ControllerInvariant
  import opened ControllerTheorems
  import opened Options

  /** The revision up to which a client's stream has sent. */
  function SentUpTo(c: Client): nat { c.requested + |c.delivered| }

  /** A client left blocking has a full channel's worth more than it had sent at `base`. */
  ghost predicate AheadOf(c: Client, base: nat) {
    Active(c) && c.stream.Open? && c.phase == Blocking ==> c.revision >= base + CLIENT_BUFFER_SIZE
  }

  /** During one tick: `base[id]` is what client `id` had sent when the tick looked at the list. */
  ghost predicate TickProgress(s: Server, base: seq<nat>) {
    && |base| <= |s.clients|
    && (forall id :: 0 <= id < |base| ==> base[id] <= SentUpTo(s.clients[id]))
    && match s.pc
       case Syncing(todo, _, mark) => mark == |base| && forall id: nat :: id < mark && id !in todo ==> AheadOf(s.clients[id], base[id])
       case TickSynced(mark) => mark == |base| && forall id: nat :: id < mark ==> AheadOf(s.clients[id], base[id])
       case TickFlushed => false
       case Flushing(_, _, tick) => !tick
       case _ => true
  }

  function SentCounts(cs: seq<Client>): (base: seq<nat>)
    ensures |base| == |cs| && forall id :: 0 <= id < |cs| ==> base[id] == SentUpTo(cs[id])
  {
    seq(|cs|, id requires 0 <= id < |cs| => SentUpTo(cs[id]))
  }

  lemma TickProgressStarts(s: Server)
    requires Inv(s) && s.pc.TickFlushed?
    ensures TickProgress(DoAdvance(s), SentCounts(s.clients))
  {
    hide Segment, Replay;
    ReapOk(s.history, s.Drained(), s.snapRev, s.clients);
    var cs, todo := Reap(s.clients), Select(s.clients, {Stale, Blocking});
    forall id: nat | id < |cs| && id !in todo ensures AheadOf(cs[id], SentUpTo(s.clients[id])) {
      if Active(cs[id]) {
        assert Active(s.clients[id]);
      }
    }
  }

  /** Steps of other goroutines only add to what has been sent. */
  lemma OthersProgress(s: Server, base: seq<nat>, l: Label)
    requires Inv(s) && TickProgress(s, base) && !l.Advance? && !l.Tick? && !l.Drain?
    ensures TickProgress(Step(s, l), base)
  {
    hide Segment, Replay, Inv;
    var s' := Step(s, l);
    assert s'.pc == s.pc;
    forall id: nat | id < |base| ensures base[id] <= SentUpTo(s'.clients[id]) && (AheadOf(s.clients[id], base[id]) ==> AheadOf(s'.clients[id], base[id])) {
      OtherOnClient(s, l, id);
    }
  }

  lemma OtherOnClient(s: Server, l: Label, id: nat)
    requires id < |s.clients| && !l.Advance? && !l.Tick? && !l.Drain?
    ensures id < |Step(s, l).clients|
    ensures var c, c' := s.clients[id], Step(s, l).clients[id];
            && SentUpTo(c) <= SentUpTo(c') && c'.revision == c.revision && c'.phase == c.phase
            && (Active(c') ==> Active(c)) && (c'.stream.Open? ==> c.stream.Open?)
  {}

  lemma ControlProgress(s: Server, base: seq<nat>)
    requires Inv(s) && TickProgress(s, base)
    ensures TickProgress(DoAdvance(s), base)
  {
    hide Segment, Replay, FlushOne, SyncOne, CaughtUp;
    var s' := DoAdvance(s);
    forall id: nat | id < |base| ensures id < |s'.clients| && base[id] <= SentUpTo(s'.clients[id]) {
      AdvanceOnClient(s, id);
    }
    if base != [] {
      AdvanceOnClient(s, 0);
    }
    if s.pc.Syncing? {
      SyncProgress(s, base);
    } else if s.pc.Flushing? {
      FlushStaysOut(s);
    } else if s.pc.Compacted? {
      QueueStaysOut(s);
    }
  }

  lemma QueueStaysOut(s: Server)
    requires Inv(s) && s.pc.Compacted?
    ensures DoAdvance(s).pc.Idle? || (DoAdvance(s).pc.Flushing? && !DoAdvance(s).pc.tick)
  {
    hide Segment, Replay;
    ReapOk(s.history, s.Drained(), s.snapRev, s.clients);
  }

  lemma FlushStaysOut(s: Server)
    requires Inv(s) && s.pc.Flushing? && !s.pc.tick
    ensures FlushOne(s).pc.Idle? || (FlushOne(s).pc.Flushing? && !FlushOne(s).pc.tick)
  {
    hide Segment, Replay;
    FlushKeeps(s);
  }

  lemma SyncProgress(s: Server, base: seq<nat>)
    requires Inv(s) && s.pc.Syncing? && TickProgress(s, base)
    ensures SyncOne(s).pc.Syncing? || SyncOne(s).pc.TickSynced?
    ensures SyncOne(s).pc.mark == |base| && |SyncOne(s).clients| == |s.clients|
    ensures forall id: nat :: id < |base| && (SyncOne(s).pc.Syncing? ==> id !in SyncOne(s).pc.todo) ==> AheadOf(SyncOne(s).clients[id], base[id])
  {
    hide Segment, Replay, CaughtUp;
    var Syncing(todo, cur, mark) := s.pc;
    if todo != [] {
      var c := s.clients[todo[0]];
      assert ClientOk(s.history, s.Drained(), c);
      if cur.None? {
        NextIndexInSegment(s.history, s.snapRev, s.log, c.revision);
      } else {
        SegmentAt(s.history, s.snapRev, s.log, cur.value);
      }
      forall id: nat | id < |base| && id !in todo[1..] && id != todo[0] ensures id !in todo {
        assert todo == [todo[0]] + todo[1..];
      }
    }
  }

  lemma {:induction false} RunProgress(s: Server, base: seq<nat>, ls: seq<Label>)
    requires Inv(s) && TickProgress(s, base) && Tick !in ls
    ensures Inv(Run(s, ls)) && TickProgress(Run(s, ls), base)
  {
    hide Inv, TickProgress;
    if ls != [] {
      var front, l := ls[..|ls| - 1], ls[|ls| - 1];
      RunProgress(s, base, front);
      var t := Run(s, front);
      StepKeeps(t, l);
      if l.Advance? {
        ControlProgress(t, base);
      } else if l.Drain? {
        DrainProgress(t, base);
      } else {
        OthersProgress(t, base, l);
      }
    }
  }

  lemma DrainProgress(s: Server, base: seq<nat>)
    requires TickProgress(s, base)
    ensures TickProgress(DoDrain(s), base)
  {}

  /** Let `s` be the state in which a tick looks at the list, and `s'` the end of that tick,
      whatever the other goroutines did meanwhile. A client that was registered, is still
      active and asked for something logged then has everything logged, or a full channel
      more than it had sent before: a watcher that empties its channel between ticks moves
      on by at least 1024 entries every tick until it has caught up. */
  lemma LaggardsProgress(before: seq<Label>, during: seq<Label>, id: nat)
    requires Run(INITIAL, before).pc.TickFlushed? && Tick !in during
    requires id < |Run(INITIAL, before).clients|
    requires Run(INITIAL, before + [Advance] + during).pc.TickSynced?
    ensures var s, s' := Run(INITIAL, before), Run(INITIAL, before + [Advance] + during);
            && id < |s'.clients|
            && (Active(s'.clients[id]) && s'.clients[id].stream.Open? && s'.clients[id].requested <= s'.Drained() ==>
                  || s'.clients[id].revision == s'.Drained()
                  || s'.clients[id].revision >= SentUpTo(s.clients[id]) + CLIENT_BUFFER_SIZE)
  {
    hide Inv, Step;
    var s := Run(INITIAL, before);
    RunKeeps(before);
    RunConcat(INITIAL, before + [Advance], during);
    assert (before + [Advance])[..|before|] == before;
    var t := Run(INITIAL, before + [Advance]);
    assert t == Step(s, Advance);
    StepIsAdvance(s);
    TickProgressStarts(s);
    RunKeeps(before + [Advance]);
    RunProgress(t, SentCounts(s.clients), during);
    RunKeeps(before + [Advance] + during);
    var s' := Run(INITIAL, before + [Advance] + during);
    assert AheadOf(s'.clients[id], SentCounts(s.clients)[id]);
    CaughtUpAt(s', id);
  }

  lemma StepIsAdvance(s: Server)
    ensures Step(s, Advance) == DoAdvance(s)
  {}

  lemma CaughtUpAt(s: Server, id: nat)
    requires Inv(s) && s.pc.TickSynced? && id < s.pc.mark
    ensures CaughtUp(s.clients[id], s.Drained())
  {}
}
