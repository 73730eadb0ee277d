/** Back-pressure: which watchers the controller gives up on, when it does, and how much it
    keeps in hand. */
module ControllerBackpressure {
  import opened ChangeLog
  import opened Controller
  import opened ControllerInvariant
  import opened ControllerTheorems
  import opened Options

  // ------------------------------------------------------------------ who is closed

  lemma FlushClosesNobody(s: Server, id: nat)
    requires s.pc.Flushing? && id < |s.clients|
    ensures |FlushOne(s).clients| == |s.clients| && FlushOne(s).clients[id].closed == s.clients[id].closed
    ensures s.clients[id].phase != Blocking && FlushOne(s).clients[id].phase == Blocking ==> |s.clients[id].ch| >= 1024
  {}

  lemma SyncClosesNobody(s: Server, id: nat)
    requires s.pc.Syncing? && id < |s.clients|
    ensures |SyncOne(s).clients| == |s.clients| && SyncOne(s).clients[id].closed == s.clients[id].closed
    ensures s.clients[id].phase != Blocking && SyncOne(s).clients[id].phase == Blocking ==> |s.clients[id].ch| >= 1024
  {
    hide NextIndex;
  }

  /** One move of `syncControl`: it closes a client exactly when more than 10240 entries are
      retained after an append and the client is a listed, blocking one with 1024 entries
      buffered, and it calls a client blocking only if 1024 entries are buffered. */
  lemma AdvanceCloses(s: Server, id: nat)
    requires id < |s.clients|
    ensures id < |DoAdvance(s).clients|
    ensures !s.clients[id].closed ==>
              (DoAdvance(s).clients[id].closed <==>
               s.pc.Appended? && |s.log| > 10240 && s.clients[id].listed && s.clients[id].phase == Blocking && |s.clients[id].ch| >= 1024)
    ensures s.clients[id].phase != Blocking && DoAdvance(s).clients[id].phase == Blocking ==> |s.clients[id].ch| >= 1024
  {
    hide FlushOne, SyncOne, Compact, Select;
    if s.pc.Flushing? {
      FlushClosesNobody(s, id);
    } else if s.pc.Syncing? {
      SyncClosesNobody(s, id);
    } else {
      CompactLeavesClients(s);
    }
  }

  lemma CompactLeavesClients(s: Server)
    ensures Compact(s).clients == s.clients
  {}

  lemma ChannelBounded(s: Server, id: nat)
    requires Inv(s) && id < |s.clients|
    ensures |s.clients[id].ch| <= 1024
  {
    hide Replay, Segment;
    assert ClientOk(s.history, s.Drained(), s.clients[id]);
  }

  /** Who is closed, over every interleaving and every next step: an open client is closed
      exactly by the end of its own stream, or by the controller when an append leaves more
      than 10240 retained entries and the client is listed, blocking and has a full channel.
      In that step every such client is closed. */
  lemma ClosedIff(ls: seq<Label>, l: Label, id: nat)
    requires id < |Run(INITIAL, ls).clients| && !Run(INITIAL, ls).clients[id].closed
    ensures var s := Run(INITIAL, ls);
            var c := s.clients[id];
            && id < |Step(s, l).clients|
            && (Step(s, l).clients[id].closed <==>
                || (l == MarkClosed(id) && !c.stream.Ended?)
                || (l == Advance && s.pc.Appended? && |s.log| > 10240 && c.listed && c.phase == Blocking && |c.ch| == 1024))
  {
    hide Run, Inv, DoAdvance;
    RunKeeps(ls);
    var s := Run(INITIAL, ls);
    ChannelBounded(s, id);
    AdvanceCloses(s, id);
  }

  /** A client is called blocking only when a send finds 1024 entries in its channel. */
  lemma BlockingMeansFull(ls: seq<Label>, l: Label, id: nat)
    requires id < |Run(INITIAL, ls).clients| && Run(INITIAL, ls).clients[id].phase != Blocking
    ensures var s := Run(INITIAL, ls);
            && id < |Step(s, l).clients|
            && (Step(s, l).clients[id].phase == Blocking ==> l == Advance && |s.clients[id].ch| == 1024)
  {
    hide Run, Inv, DoAdvance;
    RunKeeps(ls);
    ChannelBounded(Run(INITIAL, ls), id);
    AdvanceCloses(Run(INITIAL, ls), id);
  }

  /** Client `id` exists after the first `n` steps. */
  ghost predicate Exists(ls: seq<Label>, n: nat, id: nat)
    requires n <= |ls|
  {
    id < |Run(INITIAL, ls[..n]).clients|
  }

  /** A watcher that reads: whenever the controller moves there is room in its channel, and
      its own stream does not end. */
  ghost predicate KeepsRoom(ls: seq<Label>, id: nat) {
    forall n: nat :: n < |ls| && Exists(ls, n, id) ==>
      ls[n] != MarkClosed(id) && (ls[n] == Advance ==> |Run(INITIAL, ls[..n]).clients[id].ch| < 1024)
  }

  lemma KeepsRoomFront(ls: seq<Label>, id: nat)
    requires ls != [] && KeepsRoom(ls, id)
    ensures KeepsRoom(ls[..|ls| - 1], id)
  {
    var front := ls[..|ls| - 1];
    forall n: nat | n < |front| && Exists(front, n, id)
      ensures front[n] != MarkClosed(id) && (front[n] == Advance ==> |Run(INITIAL, front[..n]).clients[id].ch| < 1024)
    {
      assert front[..n] == ls[..n];
      assert Exists(ls, n, id);
    }
  }

  lemma NewClientOpen(s: Server, l: Label, id: nat)
    requires id >= |s.clients| && id < |Step(s, l).clients|
    ensures !Step(s, l).clients[id].closed && Step(s, l).clients[id].phase == Stale
  {
    hide FlushOne, SyncOne, Compact, Select;
    if l.Advance? {
      CompactLeavesClients(s);
      if s.pc.Flushing? {
        FlushKeepsCount(s);
      } else if s.pc.Syncing? {
        SyncKeepsCount(s);
      }
    }
  }

  lemma FlushKeepsCount(s: Server)
    requires s.pc.Flushing?
    ensures |FlushOne(s).clients| == |s.clients|
  {}

  lemma SyncKeepsCount(s: Server)
    requires s.pc.Syncing?
    ensures |SyncOne(s).clients| == |s.clients|
  {
    hide NextIndex;
  }

  lemma {:induction false} ReaderStaysOpen(ls: seq<Label>, id: nat)
    requires id < |Run(INITIAL, ls).clients| && KeepsRoom(ls, id)
    ensures !Run(INITIAL, ls).clients[id].closed && Run(INITIAL, ls).clients[id].phase != Blocking
  {
    var front, l := ls[..|ls| - 1], ls[|ls| - 1];
    var s := Run(INITIAL, front);
    assert ls[..|ls| - 1] == front && Run(INITIAL, ls) == Step(s, l);
    hide Run, Step;
    if id < |s.clients| {
      KeepsRoomFront(ls, id);
      ReaderStaysOpen(front, id);
      assert Exists(ls, |ls| - 1, id);
      ClosedIff(front, l, id);
      BlockingMeansFull(front, l, id);
    } else {
      NewClientOpen(s, l, id);
    }
  }

  /** A watcher that reads is never given up: however long the run and whatever the others do,
      if its channel has room whenever the controller moves and its own stream has not
      ended, it is still in the list, open, and has never been marked. */
  lemma ReadersAreNeverClosed(ls: seq<Label>, id: nat)
    requires id < |Run(INITIAL, ls).clients| && KeepsRoom(ls, id)
    ensures var c := Run(INITIAL, ls).clients[id];
            !c.closed && c.listed && !c.chClosed && c.phase != Blocking && c.stream != Ended(DataLoss)
  {
    hide Run;
    ReaderStaysOpen(ls, id);
    RunKeeps(ls);
    OpenClient(Run(INITIAL, ls), id);
  }

  lemma OpenClient(s: Server, id: nat)
    requires Inv(s) && id < |s.clients| && !s.clients[id].closed
    ensures s.clients[id].listed && !s.clients[id].chClosed && s.clients[id].stream != Ended(DataLoss)
  {
    hide Replay, Segment;
    assert ClientOk(s.history, s.Drained(), s.clients[id]);
  }

  // ---------------------------------------------------------------- what is kept in hand

  /** How many entries wait for the up-to-date clients: at most 20 outside a flush, and a flush
      that no tick asked for starts at exactly 21. */
  ghost predicate PendingBounded(s: Server) {
    if s.pc.Flushing? then |s.pending| <= 21 && (!s.pc.tick ==> |s.pending| == 21)
    else |s.pending| <= 20
  }

  lemma FlushBounded(s: Server)
    requires s.pc.Flushing? && PendingBounded(s) && !FlushOne(s).pc.Panicked?
    ensures PendingBounded(FlushOne(s))
  {}

  lemma SyncBounded(s: Server)
    requires s.pc.Syncing? && PendingBounded(s)
    ensures PendingBounded(SyncOne(s))
  {
    hide NextIndex;
  }

  lemma StepBounded(s: Server, l: Label)
    requires PendingBounded(s) && !Step(s, l).pc.Panicked?
    ensures PendingBounded(Step(s, l))
  {
    hide FlushOne, SyncOne, Select, Replay, FoldCount, MinRevision;
    if l.Advance? {
      if s.pc.Flushing? {
        FlushBounded(s);
      } else if s.pc.Syncing? {
        SyncBounded(s);
      }
    }
  }

  /** Batching over every interleaving. */
  lemma {:induction false} BatchesAreSmall(ls: seq<Label>)
    ensures PendingBounded(Run(INITIAL, ls))
  {
    if ls != [] {
      BatchesAreSmall(ls[..|ls| - 1]);
      NeverPanics(ls);
      StepBounded(Run(INITIAL, ls[..|ls| - 1]), ls[|ls| - 1]);
    }
  }

  // -------------------------------------------------------------------- how streams end

  /** How a stream ends, over every interleaving and every next step: with DataLoss exactly when
      it finds its channel closed by the controller and read empty, and without an error
      exactly when its own context is done or its send failed. */
  lemma StreamEndsIff(ls: seq<Label>, l: Label, id: nat)
    requires id < |Run(INITIAL, ls).clients| && !Run(INITIAL, ls).clients[id].stream.Ended?
    ensures var s := Run(INITIAL, ls);
            var c := s.clients[id];
            && id < |Step(s, l).clients|
            && (Step(s, l).clients[id].stream == Ended(DataLoss) <==> l == Finish(id) && c.stream.Open? && c.ch == [] && c.chClosed)
            && (Step(s, l).clients[id].stream == Ended(Ok) <==> l == MarkClosed(id))
  {
    hide Run, DoAdvance;
    AdvanceEndsNobody(Run(INITIAL, ls), id);
  }

  lemma AdvanceEndsNobody(s: Server, id: nat)
    requires id < |s.clients|
    ensures id < |DoAdvance(s).clients| && DoAdvance(s).clients[id].stream == s.clients[id].stream
  {
    hide FlushOne, SyncOne, Compact, Select;
    if s.pc.Flushing? {
      FlushEndsNobody(s, id);
    } else if s.pc.Syncing? {
      SyncEndsNobody(s, id);
    } else {
      CompactLeavesClients(s);
    }
  }

  lemma FlushEndsNobody(s: Server, id: nat)
    requires s.pc.Flushing? && id < |s.clients|
    ensures id < |FlushOne(s).clients| && FlushOne(s).clients[id].stream == s.clients[id].stream
  {}

  lemma SyncEndsNobody(s: Server, id: nat)
    requires s.pc.Syncing? && id < |s.clients|
    ensures id < |SyncOne(s).clients| && SyncOne(s).clients[id].stream == s.clients[id].stream
  {
    hide NextIndex;
  }

  // ------------------------------------------------------------------------- promotion

  /** The revision that a client with everything has: during a flush it includes the batch. */
  function Newest(s: Server): nat { if s.pc.Flushing? then s.maxSynced + |s.pending| else s.maxSynced }

  /** A client that has been sent something and is not up to date is really behind. */
  ghost predicate BehindIfNot(newest: nat, c: Client) {
    c.phase != UpToDate && c.requested < c.revision ==> c.revision < newest
  }

  ghost predicate Promoted(s: Server) {
    forall id :: 0 <= id < |s.clients| ==> BehindIfNot(Newest(s), s.clients[id])
  }

  lemma FlushPromotes(s: Server)
    requires Inv(s) && s.pc.Flushing? && Promoted(s)
    ensures Promoted(FlushOne(s))
  {
    hide Replay, Segment, ClientOk, UpToDateOk;
    FlushKeepsCount(s);
    assert !FlushOne(s).pc.Panicked? by { FlushKeeps(s); }
    if s.pc.todo == [] {
      SegmentAt(s.history, s.maxSynced, s.pending, |s.pending| - 1);
    } else {
      FlushTodo(s);
      if s.pc.k < |s.pending| {
        SegmentAt(s.history, s.maxSynced, s.pending, s.pc.k);
      }
    }
  }

  /** The client a flush is about to serve is up to date and has had `k` entries of the batch. */
  lemma FlushTodo(s: Server)
    requires Inv(s) && s.pc.Flushing? && s.pc.todo != []
    ensures s.pc.todo[0] < |s.clients|
    ensures s.clients[s.pc.todo[0]].phase == UpToDate && s.clients[s.pc.todo[0]].revision == s.maxSynced + s.pc.k
  {
    hide Replay, Segment, ClientOk;
  }

  lemma SyncPromotes(s: Server)
    requires Inv(s) && s.pc.Syncing? && Promoted(s)
    ensures Promoted(SyncOne(s))
  {
    hide Replay, Segment, ClientOk, UpToDateOk, NextIndex;
    SyncKeepsCount(s);
    if s.pc.cur.Some? {
      SyncSendsNext(s);
      SyncRoom(s);
    }
  }

  /** While lagging clients are served, the log ends at the newest synced revision. */
  lemma SyncRoom(s: Server)
    requires Inv(s) && s.pc.Syncing? && s.pc.cur.Some?
    ensures s.pc.todo != [] && s.pc.todo[0] < |s.clients| && s.clients[s.pc.todo[0]].revision + 1 <= s.maxSynced
  {
    hide Replay, Segment, ClientOk, UpToDateOk;
  }

  lemma OthersPromote(s: Server, l: Label)
    requires Inv(s) && Promoted(s) && !l.Advance?
    ensures Promoted(Step(s, l))
  {
    hide Inv, Select;
    if l.Tick? {
      TickPromotes(s);
    }
  }

  /** A wider notion of newest only asks for less. */
  lemma TickPromotes(s: Server)
    requires Promoted(s)
    ensures Promoted(DoTick(s))
  {
    hide Select;
    var s' := DoTick(s);
    assert |s'.clients| == |s.clients| && (s.pc.Idle? ==> Newest(s) <= Newest(s'));
    forall id | 0 <= id < |s'.clients| ensures BehindIfNot(Newest(s'), s'.clients[id]) {
      assert BehindIfNot(Newest(s), s.clients[id]);
    }
  }

  lemma AdvancePromotes(s: Server)
    requires Inv(s) && Promoted(s)
    ensures Promoted(DoAdvance(s))
  {
    hide Inv, FlushOne, SyncOne, Compact, Select;
    if s.pc.Flushing? {
      FlushPromotes(s);
    } else if s.pc.Syncing? {
      SyncPromotes(s);
    } else {
      var s' := DoAdvance(s);
      CompactLeavesAlone(s);
      assert |s'.clients| == |s.clients| && Newest(s) <= Newest(s');
      forall id | 0 <= id < |s'.clients| ensures BehindIfNot(Newest(s'), s'.clients[id]) {
        assert BehindIfNot(Newest(s), s.clients[id]);
      }
    }
  }

  lemma CompactLeavesAlone(s: Server)
    ensures Compact(s).clients == s.clients && Compact(s).maxSynced == s.maxSynced && Compact(s).pending == s.pending
  {}

  lemma {:induction false} RunPromotes(ls: seq<Label>)
    ensures Promoted(Run(INITIAL, ls))
  {
    if ls != [] {
      var front, l := ls[..|ls| - 1], ls[|ls| - 1];
      RunPromotes(front);
      RunKeeps(front);
      hide Inv, Promoted;
      if l.Advance? {
        AdvancePromotes(Run(INITIAL, front));
      } else {
        OthersPromote(Run(INITIAL, front), l);
      }
    }
  }

  /** Promotion over every interleaving: outside a flush, a listed watcher that has been sent
      anything is up to date if and only if it has everything that was ever synced. From then
      on batches go straight to it, without waiting for a tick. */
  lemma UpToDateIff(ls: seq<Label>, id: nat)
    requires var s := Run(INITIAL, ls);
             !s.pc.Flushing? && id < |s.clients| && s.clients[id].listed && s.clients[id].requested < s.clients[id].revision
    ensures var s := Run(INITIAL, ls);
            s.clients[id].phase == UpToDate <==> s.clients[id].revision == s.maxSynced
  {
    hide Run;
    RunPromotes(ls);
    UpToDateMeansSynced(ls);
    assert BehindIfNot(Newest(Run(INITIAL, ls)), Run(INITIAL, ls).clients[id]);
  }
}
