/** What the invariant buys: the promises of the ipcache service over every interleaving
    of its goroutines, stated about `Run(INITIAL, ls)` for an arbitrary list of steps. */
module ControllerTheorems {
  import opened ChangeLog
  import opened Controller
  import opened ControllerInvariant
  import opened Options

  /** The explicit panic on a revision mismatch, a second close of a channel and a send
      on a closed channel never happen. */
  lemma NeverPanics(ls: seq<Label>)
    ensures !Run(INITIAL, ls).pc.Panicked?
  {
    RunKeeps(ls);
  }

  /** Why the mismatch check never fires and the branch for an entry newer than the
      newest synced one is dead: outside a flush every listed up-to-date client sits
      exactly at `maxSynced`, the pending entries are exactly the history after it, and
      when lagging clients are served the log does not reach past it. */
  lemma UpToDateMeansSynced(ls: seq<Label>)
    ensures var s := Run(INITIAL, ls);
            && (forall id :: 0 <= id < |s.clients| && s.clients[id].listed && s.clients[id].phase == UpToDate && !s.pc.Flushing?
                  ==> s.clients[id].revision == s.maxSynced)
            && s.maxSynced + |s.pending| <= s.Drained() <= |s.history|
            && s.pending == s.history[s.maxSynced..s.maxSynced + |s.pending|]
            && (s.pc.Idle? || s.pc.Flushing? ==> s.maxSynced + |s.pending| == s.Drained())
            && (s.pc.Syncing? ==> s.Drained() == s.maxSynced && forall i :: 0 <= i < |s.log| ==> s.log[i].revision <= s.maxSynced)
  {
    RunKeeps(ls);
    LogRevisions(Run(INITIAL, ls));
  }

  lemma ClientGapless(h: seq<Change>, d: nat, c: Client)
    requires ClientOk(h, d, c) && d <= |h| && c.stream.Open?
    ensures if c.requested <= |h|
            then c.requested <= c.revision <= |h| && c.delivered + c.ch == h[c.requested..c.revision]
            else c.revision == c.requested && c.delivered == c.ch == []
  {
    if c.requested <= |h| {
      var m := c.requested + |c.delivered|;
      assert h[c.requested..c.revision] == h[c.requested..m] + h[m..c.revision];
    }
  }

  /** What a watcher has been sent, followed by what waits in its channel, is the history
      after the revision it asked for up to its current revision: nothing missing,
      nothing twice, in order. */
  lemma GaplessDelivery(ls: seq<Label>, id: nat)
    requires id < |Run(INITIAL, ls).clients| && Run(INITIAL, ls).clients[id].stream.Open?
    ensures var s := Run(INITIAL, ls);
            var c := s.clients[id];
            if c.requested <= |s.history|
            then c.requested <= c.revision <= |s.history| && c.delivered + c.ch == s.history[c.requested..c.revision]
            else c.revision == c.requested && c.delivered == c.ch == []
  {
    hide Run;
    RunKeeps(ls);
    var s := Run(INITIAL, ls);
    assert ClientOk(s.history, s.Drained(), s.clients[id]);
    ClientGapless(s.history, s.Drained(), s.clients[id]);
  }

  /** Whatever happens to its stream, a watcher is never sent anything but a gap-free
      stretch of history starting at the revision it asked for. */
  lemma DeliveredIsHistory(ls: seq<Label>, id: nat)
    requires id < |Run(INITIAL, ls).clients|
    ensures var s := Run(INITIAL, ls);
            var c := s.clients[id];
            c.delivered != [] ==>
              && c.requested + |c.delivered| <= |s.history|
              && c.delivered == s.history[c.requested..c.requested + |c.delivered|]
  {
    RunKeeps(ls);
    var s := Run(INITIAL, ls);
    assert ClientOk(s.history, s.Drained(), s.clients[id]);
  }

  lemma StorageOf(s: Server)
    requires Inv(s)
    ensures s.snapRev <= s.Drained() <= |s.history|
    ensures s.snap == Replay(map[], s.history[..s.snapRev])
    ensures Replay(s.snap, s.log) == Replay(map[], s.history[..s.Drained()])
    ensures forall i :: 0 <= i < |s.log| ==> s.log[i].revision == s.snapRev + 1 + i
    ensures forall id :: 0 <= id < |s.clients| && Active(s.clients[id]) ==> s.snapRev <= s.clients[id].revision
  {
    hide Replay, Segment, ClientOk, PcOk, UpToDateOk;
    LogRevisions(s);
    FoldMeaning(s, |s.log|);
    assert s.log[..|s.log|] == s.log;
  }

  /** The snapshot is the replay of the history to its revision, snapshot and log together
      are the replay of everything drained, the log is numbered without a gap right after
      the snapshot, and no active watcher is below the snapshot. */
  lemma StorageMeaning(ls: seq<Label>)
    ensures var s := Run(INITIAL, ls);
            && s.snapRev <= s.Drained() <= |s.history|
            && s.snap == Replay(map[], s.history[..s.snapRev])
            && Replay(s.snap, s.log) == Replay(map[], s.history[..s.Drained()])
            && (forall i :: 0 <= i < |s.log| ==> s.log[i].revision == s.snapRev + 1 + i)
            && (forall id :: 0 <= id < |s.clients| && Active(s.clients[id]) ==> s.snapRev <= s.clients[id].revision)
  {
    hide Run, Inv;
    RunKeeps(ls);
    StorageOf(Run(INITIAL, ls));
  }

  /** After a tick, after slow clients have been closed, and after an append that leaves more
      than 1024 entries, the log keeps an entry only if some active watcher still sits
      exactly at the snapshot's revision; above 10240 entries slow clients are closed first. */
  lemma RetentionIsTight(ls: seq<Label>)
    requires var s := Run(INITIAL, ls);
             s.pc.SlowClosed? || s.pc.TickSynced? || (s.pc.Appended? && |s.log| > 1024)
    ensures var s, s' := Run(INITIAL, ls), Step(Run(INITIAL, ls), Advance);
            if s.pc.Appended? && |s.log| > 10240 then s'.pc == SlowClosed(s.pc.cl)
            else
              s'.log != [] ==> exists id :: 0 <= id < |s'.clients| && Active(s'.clients[id]) && s'.clients[id].revision == s'.snapRev
  {
    hide Run, Compact;
    RunKeeps(ls);
    CompactMeaning(Run(INITIAL, ls));
  }

  /** At the end of a tick, a client registered before the tick looked at the list that is
      still active and asked for something already logged either has everything logged
      so far or is marked blocking, and then it really is behind. */
  lemma CatchUp(ls: seq<Label>, id: nat)
    requires Run(INITIAL, ls).pc.TickSynced? && id < Run(INITIAL, ls).pc.mark
    ensures var s := Run(INITIAL, ls);
            && id < |s.clients|
            && (Active(s.clients[id]) && s.clients[id].requested <= s.Drained() ==>
                  && (s.clients[id].phase == Blocking || s.clients[id].revision == s.Drained())
                  && (s.clients[id].phase == Blocking ==> s.clients[id].revision < s.Drained()))
  {
    RunKeeps(ls);
    var s := Run(INITIAL, ls);
    assert CaughtUp(s.clients[id], s.Drained());
    assert ClientOk(s.history, s.Drained(), s.clients[id]);
  }

  /** A stream that ends because its channel was closed has first sent everything that was
      ever put into that channel. */
  lemma DrainedBeforeDataLoss(ls: seq<Label>, id: nat)
    requires id < |Run(INITIAL, ls).clients| && Run(INITIAL, ls).clients[id].stream == Ended(DataLoss)
    ensures var s := Run(INITIAL, ls);
            var c := s.clients[id];
            && c.chClosed && !c.listed && c.ch == []
            && (c.requested < c.revision ==> c.revision <= |s.history| && c.delivered == s.history[c.requested..c.revision])
  {
    RunKeeps(ls);
    var s := Run(INITIAL, ls);
    assert ClientOk(s.history, s.Drained(), s.clients[id]);
  }

  /** What any step may do to a client: a closed channel stays closed and only empties
      from the front, a client that left the list stays out, nothing already sent is
      taken back, and the history only grows. */
  lemma ChannelLifecycle(ls: seq<Label>, l: Label, id: nat)
    requires id < |Run(INITIAL, ls).clients|
    ensures var s := Run(INITIAL, ls);
            var s' := Step(s, l);
            && id < |s'.clients|
            && s.history <= s'.history
            && (var c, c' := s.clients[id], s'.clients[id];
                && c'.requested == c.requested && c.revision <= c'.revision
                && c.delivered <= c'.delivered
                && (c.closed ==> c'.closed)
                && (c.chClosed ==> c'.chClosed && !c'.listed && (c'.ch == c.ch || (c.ch != [] && c'.ch == c.ch[1..])))
                && (!c.chClosed && c'.chClosed ==> c.listed && c.closed && c'.ch == c.ch))
  {
    hide Inv;
    RunKeeps(ls);
    StepOnClient(Run(INITIAL, ls), l, id);
  }

  lemma StepOnClient(s: Server, l: Label, id: nat)
    requires Inv(s) && id < |s.clients|
    ensures id < |Step(s, l).clients| && s.history <= Step(s, l).history
    ensures var c, c' := s.clients[id], Step(s, l).clients[id];
            && c'.requested == c.requested && c.revision <= c'.revision
            && c'.delivered == (if l == Take(id) && c.stream.Open? && c.ch != [] then c.delivered + [c.ch[0]] else c.delivered)
            && (c.closed ==> c'.closed)
            && (c.chClosed ==> c'.chClosed && !c'.listed && (c'.ch == c.ch || (c.ch != [] && c'.ch == c.ch[1..])))
            && (!c.chClosed && c'.chClosed ==> c.listed && c.closed && c'.ch == c.ch)
  {
    hide Segment, Replay, Inv, DoAdvance;
    ListedIffOpen(s, id);
    if l.Advance? {
      AdvanceOnClient(s, id);
    } else if l.Tick? {
      TickOnClient(s, id);
    }
  }

  lemma TickOnClient(s: Server, id: nat)
    requires Inv(s) && id < |s.clients|
    ensures |DoTick(s).clients| == |s.clients| && DoTick(s).history == s.history
    ensures ControlChange(s.clients[id], DoTick(s).clients[id])
  {
    hide Inv;
    ListedIffOpen(s, id);
  }

  /** What `syncControl` may do to a client in one of its own steps. */
  ghost predicate ControlChange(c: Client, c': Client) {
    && c'.requested == c.requested && c.revision <= c'.revision && c'.delivered == c.delivered
    && (c.closed ==> c'.closed)
    && (c.chClosed ==> c'.chClosed && !c'.listed && c'.ch == c.ch)
    && (!c.chClosed && c'.chClosed ==> c.listed && c.closed && c'.ch == c.ch)
  }

  lemma ListedIffOpen(s: Server, id: nat)
    requires Inv(s) && id < |s.clients|
    ensures s.clients[id].listed <==> !s.clients[id].chClosed
    ensures !s.clients[id].listed ==> s.clients[id].closed
  {
    hide Replay, Segment, PcOk, UpToDateOk, LogOk;
    assert ClientOk(s.history, s.Drained(), s.clients[id]);
  }

  lemma FlushOnClient(s: Server, id: nat)
    requires Inv(s) && id < |s.clients| && s.pc.Flushing?
    ensures |FlushOne(s).clients| == |s.clients| && FlushOne(s).history == s.history
    ensures ControlChange(s.clients[id], FlushOne(s).clients[id])
  {
    hide Replay, Segment, ClientOk;
    ListedIffOpen(s, id);
    if s.pc.todo != [] && s.pc.k < |s.pending| {
      SegmentAt(s.history, s.maxSynced, s.pending, s.pc.k);
    }
  }

  lemma SyncOnClient(s: Server, id: nat)
    requires Inv(s) && id < |s.clients| && s.pc.Syncing?
    ensures |SyncOne(s).clients| == |s.clients| && SyncOne(s).history == s.history
    ensures ControlChange(s.clients[id], SyncOne(s).clients[id])
  {
    hide Replay, Segment, CaughtUp, ClientOk, UpToDateOk;
    ListedIffOpen(s, id);
    if s.pc.todo != [] {
      ListedIffOpen(s, s.pc.todo[0]);
    }
    if s.pc.cur.Some? {
      SyncSendsNext(s);
    }
  }

  lemma SyncSendsNext(s: Server)
    requires Inv(s) && s.pc.Syncing? && s.pc.cur.Some?
    ensures s.pc.todo != [] && s.pc.todo[0] < |s.clients| && s.pc.cur.value < |s.log|
    ensures s.log[s.pc.cur.value].revision == s.clients[s.pc.todo[0]].revision + 1
  {
    hide Replay, CaughtUp, ClientOk;
    SegmentAt(s.history, s.snapRev, s.log, s.pc.cur.value);
  }

  lemma AdvanceOnClient(s: Server, id: nat)
    requires Inv(s) && id < |s.clients|
    ensures |DoAdvance(s).clients| == |s.clients| && DoAdvance(s).history == s.history
    ensures ControlChange(s.clients[id], DoAdvance(s).clients[id])
  {
    hide Replay, Segment, FlushOne, SyncOne;
    assert ClientOk(s.history, s.Drained(), s.clients[id]);
    if s.pc.Flushing? {
      FlushOnClient(s, id);
    } else if s.pc.Syncing? {
      SyncOnClient(s, id);
    }
  }

  // ---------------------------------------------------------------------- progress

  /** How many parts of the current case `syncControl` still has to go through. */
  ghost function Stage(pc: Pc): nat {
    match pc
    case Idle => 0
    case Panicked => 0
    case TickSynced(_) => 1
    case Syncing(_, _, _) => 2
    case TickFlushed => 3
    case Flushing(_, _, _) => 4
    case Compacted(_) => 5
    case SlowClosed(_) => 6
    case Appended(_) => 7
  }

  /** An upper bound on the channel operations left in the current part. */
  ghost function Work(s: Server): int {
    match s.pc
    case Flushing(todo, k, _) => |todo| * (|s.pending| + 1) - k
    case Syncing(todo, cur, _) => |todo| * (|s.log| + 2) - (if cur.Some? then cur.value + 1 else 0)
    case _ => 0
  }

  /** No watcher can stall `syncControl`: in every reachable state each of its own steps
      leaves strictly less to do, and no other goroutine adds to it, so it is back in its
      select after a bounded number of its own steps whatever the watchers do. */
  lemma ControlNeverStalls(ls: seq<Label>, l: Label)
    ensures var s := Run(INITIAL, ls);
            var s' := Step(s, l);
            && Work(s) >= 0
            && (l == Advance && !s.pc.Idle? ==> LessWork(s, s'))
            && (l != Advance && !s.pc.Idle? ==> s'.pc == s.pc && Work(s') == Work(s))
  {
    hide Inv, Step, Run;
    RunKeeps(ls);
    var s := Run(INITIAL, ls);
    WorkNonNegative(s);
    if l == Advance {
      if !s.pc.Idle? {
        AdvanceWorks(s);
        AdvanceIsStep(s);
      }
    } else if !s.pc.Idle? {
      OthersAddNoWork(s, l);
    }
  }

  lemma AdvanceIsStep(s: Server)
    ensures Step(s, Advance) == DoAdvance(s)
  {}

  lemma OthersAddNoWork(s: Server, l: Label)
    requires l != Advance && !s.pc.Idle?
    ensures Step(s, l).pc == s.pc && Work(Step(s, l)) == Work(s)
  {
    assert Step(s, l).pending == s.pending && Step(s, l).log == s.log && Step(s, l).pc == s.pc;
  }

  lemma Times(a: nat, b: nat)
    requires a > 0
    ensures a * b == (a - 1) * b + b && (a - 1) * b >= 0
  {}

  lemma WorkNonNegative(s: Server)
    requires Inv(s)
    ensures Work(s) >= 0
  {
    hide ClientOk, Segment, Replay;
    if s.pc.Flushing? && s.pc.todo != [] {
      Times(|s.pc.todo|, |s.pending| + 1);
    } else if s.pc.Syncing? && s.pc.todo != [] {
      Times(|s.pc.todo|, |s.log| + 2);
    }
  }

  ghost predicate LessWork(s: Server, s': Server) {
    Stage(s'.pc) < Stage(s.pc) || (Stage(s'.pc) == Stage(s.pc) && Work(s') < Work(s))
  }

  lemma FlushWorks(s: Server)
    requires Inv(s) && s.pc.Flushing?
    ensures LessWork(s, FlushOne(s))
  {
    hide Segment, Replay;
    if s.pc.todo != [] {
      Times(|s.pc.todo|, |s.pending| + 1);
    }
  }

  lemma SyncWorks(s: Server)
    requires Inv(s) && s.pc.Syncing?
    ensures LessWork(s, SyncOne(s))
  {
    hide Segment, Replay, ClientOk;
    if s.pc.todo != [] {
      Times(|s.pc.todo|, |s.log| + 2);
    }
  }

  lemma AdvanceWorks(s: Server)
    requires Inv(s) && !s.pc.Idle?
    ensures LessWork(s, DoAdvance(s))
  {
    hide Segment, Replay, ClientOk, FlushOne, SyncOne;
    if s.pc.Flushing? {
      FlushWorks(s);
    } else if s.pc.Syncing? {
      SyncWorks(s);
    } else if s.pc.TickFlushed? || s.pc.Compacted? {
      ReapOk(s.history, s.Drained(), s.snapRev, s.clients);
    }
  }
}
