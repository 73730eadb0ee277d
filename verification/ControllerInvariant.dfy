/** What every reachable state of the controller satisfies. */
module ControllerInvariant {
  import opened ChangeLog
  import opened Controller
  import opened Options

  // -------------------------------------------------------------------- definitions

  /** One watcher against the history `h`, of which `d` changes have been drained.
      The buffered entries are the stretch of history that ends at the client's
      revision; the delivered ones are the stretch that starts at the requested
      revision; while the stream runs the two meet. */
  ghost predicate ClientOk(h: seq<Change>, d: nat, c: Client) {
    && c.requested <= c.revision
    && (c.requested < c.revision ==> c.revision <= d)
    && |c.ch| <= CLIENT_BUFFER_SIZE
    && c.requested + |c.delivered| + |c.ch| <= c.revision
    && Segment(h, c.requested, c.delivered)
    && Segment(h, c.revision - |c.ch|, c.ch)
    && (c.stream.Open? ==> c.requested + |c.delivered| + |c.ch| == c.revision)
    && (c.stream == Ended(DataLoss) ==> c.chClosed && c.requested + |c.delivered| == c.revision)
    && (c.listed <==> !c.chClosed)
    && (!c.listed ==> c.closed)
    && (c.stream == Ended(Ok) ==> c.closed)
    && (c.phase == Blocking ==> c.revision < d)
  }

  ghost predicate LogOk(s: Server) {
    && Numbered(s.history)
    && s.counter == |s.history|
    && s.Drained() + |s.logChan| + (if s.inflight.Some? then 1 else 0) == |s.history|
    && Segment(s.history, s.Drained(), s.logChan)
    && (s.inflight.Some? ==> s.inflight.value == s.history[|s.history| - 1])
    && |s.logChan| <= LOG_BUFFER_SIZE
    && Segment(s.history, s.snapRev, s.log)
    && s.snap == Replay(map[], s.history[..s.snapRev])
  }

  ghost predicate InDrain(pc: Pc) { pc.Appended? || pc.SlowClosed? || pc.Compacted? }

  /** The pending entries are exactly the drained history after `maxSynced`, except for
      an entry the drain in progress has not queued yet. */
  ghost predicate PendingOk(s: Server) {
    && Segment(s.history, s.maxSynced, s.pending)
    && s.Drained() == s.maxSynced + |s.pending| + (if InDrain(s.pc) then 1 else 0)
    && (InDrain(s.pc) ==> 0 < s.Drained() <= |s.history| && s.pc.cl == s.history[s.Drained() - 1])
    && (s.pc.Flushing? ==> s.pending != [])
    && (s.pc.TickFlushed? || s.pc.Syncing? || s.pc.TickSynced? ==> s.pending == [])
  }

  ghost predicate ClientsOk(h: seq<Change>, d: nat, snapRev: nat, cs: seq<Client>) {
    forall id :: 0 <= id < |cs| ==> ClientOk(h, d, cs[id]) && (Active(cs[id]) ==> snapRev <= cs[id].revision)
  }

  /** The revision an up-to-date client is expected to have. */
  ghost function Expected(pc: Pc, pending: nat, maxSynced: nat, id: nat): nat {
    if !pc.Flushing? then maxSynced
    else if id !in pc.todo then maxSynced + pending
    else if id == pc.todo[0] then maxSynced + pc.k
    else maxSynced
  }

  ghost predicate UpToDateOk(cs: seq<Client>, pc: Pc, pending: nat, maxSynced: nat) {
    forall id: nat :: id < |cs| && cs[id].listed && cs[id].phase == UpToDate ==>
                        cs[id].revision == Expected(pc, pending, maxSynced, id)
  }

  ghost predicate Ascending(ids: seq<nat>) {
    forall i, j :: 0 <= i < j < |ids| ==> ids[i] < ids[j]
  }

  /** After a tick has served client `c`: it has everything, or its channel was full. */
  ghost predicate CaughtUp(c: Client, d: nat) {
    Active(c) && c.requested <= d ==> c.revision == d || c.phase == Blocking
  }

  /** Clients waiting to be served are still listed and the log still reaches back to them. */
  ghost predicate TodoOk(cs: seq<Client>, todo: seq<nat>, snapRev: nat) {
    && Ascending(todo)
    && forall j :: 0 <= j < |todo| ==> todo[j] < |cs| && cs[todo[j]].listed && snapRev <= cs[todo[j]].revision
  }

  ghost predicate FlushOk(cs: seq<Client>, todo: seq<nat>, k: nat, pending: nat, snapRev: nat) {
    && TodoOk(cs, todo, snapRev)
    && (forall j :: 0 <= j < |todo| ==> cs[todo[j]].phase == UpToDate)
    && k <= (if todo == [] then 0 else pending)
  }

  ghost predicate SyncOk(cs: seq<Client>, todo: seq<nat>, cur: Option<nat>, mark: nat, snapRev: nat, logLen: nat) {
    && TodoOk(cs, todo, snapRev)
    && mark <= |cs|
    && (forall j :: 0 <= j < |todo| ==> todo[j] < mark && cs[todo[j]].phase != UpToDate)
    && (cur.Some? ==> todo != [] && cur.value < logLen && snapRev + cur.value == cs[todo[0]].revision)
    && (forall id: nat :: id < mark && id !in todo ==> CaughtUp(cs[id], snapRev + logLen))
  }

  ghost predicate TickOk(cs: seq<Client>, mark: nat, d: nat) {
    mark <= |cs| && forall id: nat :: id < mark ==> CaughtUp(cs[id], d)
  }

  ghost predicate PcOk(cs: seq<Client>, pc: Pc, pending: nat, snapRev: nat, logLen: nat) {
    match pc
    case Panicked => false
    case Flushing(todo, k, _) => FlushOk(cs, todo, k, pending, snapRev)
    case Syncing(todo, cur, mark) => SyncOk(cs, todo, cur, mark, snapRev, logLen)
    case TickSynced(mark) => TickOk(cs, mark, snapRev + logLen)
    case _ => true
  }

  ghost predicate Inv(s: Server) {
    && LogOk(s)
    && PendingOk(s)
    && ClientsOk(s.history, s.Drained(), s.snapRev, s.clients)
    && UpToDateOk(s.clients, s.pc, |s.pending|, s.maxSynced)
    && PcOk(s.clients, s.pc, |s.pending|, s.snapRev, |s.log|)
  }

  // ------------------------------------------------------------- small facts

  lemma ClientGrows(h: seq<Change>, x: Change, d: nat, d': nat, c: Client)
    requires ClientOk(h, d, c) && d <= d'
    ensures ClientOk(h + [x], d', c)
  {
    SegmentGrows(h, x, c.requested, c.delivered);
    SegmentGrows(h, x, c.revision - |c.ch|, c.ch);
  }

  lemma ClientLater(h: seq<Change>, d: nat, d': nat, c: Client)
    requires ClientOk(h, d, c) && d <= d'
    ensures ClientOk(h, d', c)
  {}

  lemma SentInOrder(h: seq<Change>, c: Client)
    requires c.revision < |h| && |c.ch| <= c.revision && Segment(h, c.revision - |c.ch|, c.ch)
    ensures Segment(h, c.revision - |c.ch|, c.ch + [h[c.revision]])
  {
    var x := h[c.revision];
    if c.ch == [] {
      assert c.ch + [x] == [x] == h[c.revision..c.revision + 1];
    } else {
      SegmentAppend(h, c.revision - |c.ch|, c.ch);
    }
  }

  /** Sending the change right after a client's revision keeps the client in order. */
  lemma SentOk(h: seq<Change>, d: nat, c: Client, phase: Phase)
    requires Numbered(h) && d <= |h| && ClientOk(h, d, c) && c.revision < d && HasRoom(c) && !c.chClosed
    requires phase == Blocking ==> c.revision + 1 < d
    ensures ClientOk(h, d, Sent(c, h[c.revision]).(phase := phase))
  {
    hide Segment;
    SentInOrder(h, c);
  }

  lemma TakenIsNextInOrder(h: seq<Change>, c: Client)
    requires c.ch != [] && c.requested + |c.delivered| + |c.ch| == c.revision
    requires Segment(h, c.requested, c.delivered) && Segment(h, c.revision - |c.ch|, c.ch)
    ensures Segment(h, c.requested, c.delivered + [c.ch[0]])
  {
    SegmentAt(h, c.revision - |c.ch|, c.ch, 0);
    SegmentAppend(h, c.requested, c.delivered);
  }

  lemma TakenOk(h: seq<Change>, d: nat, c: Client)
    requires d <= |h| && ClientOk(h, d, c) && c.stream.Open? && c.ch != []
    ensures ClientOk(h, d, c.(ch := c.ch[1..], delivered := c.delivered + [c.ch[0]]))
    ensures ClientOk(h, d, c.(ch := c.ch[1..], stream := Broken))
  {
    hide Segment;
    var a := c.revision - |c.ch|;
    SegmentDrop(h, a, c.ch, 1);
    TakenIsNextInOrder(h, c);
  }

  // -------------------------------------------------------- steps of other goroutines

  lemma LogLength(s: Server)
    requires LogOk(s)
    ensures s.Drained() <= |s.history| == s.counter
  {
    hide Segment, Replay;
  }

  lemma AssignLogOk(s: Server, op: Op, entry: Entry)
    requires LogOk(s) && s.inflight.None?
    ensures LogOk(DoAssign(s, op, entry))
  {
    hide Segment, Replay;
    var c := Change(s.counter + 1, op, entry);
    SegmentGrows(s.history, c, s.Drained(), s.logChan);
    SegmentGrows(s.history, c, s.snapRev, s.log);
    assert (s.history + [c])[..s.snapRev] == s.history[..s.snapRev];
  }

  lemma AssignKeeps(s: Server, op: Op, entry: Entry)
    requires Inv(s)
    ensures Inv(DoAssign(s, op, entry))
  {
    hide ClientOk, Segment, Replay, PcOk, UpToDateOk, ClientsOk, LogOk, Numbered;
    var s' := DoAssign(s, op, entry);
    if s' != s {
      var c := Change(s.counter + 1, op, entry);
      AssignLogOk(s, op, entry);
      SegmentGrows(s.history, c, s.maxSynced, s.pending);
      ClientsGrow(s.history, c, s.Drained(), s.snapRev, s.clients);
      LogLength(s);
    }
  }

  lemma ClientsGrow(h: seq<Change>, x: Change, d: nat, snapRev: nat, cs: seq<Client>)
    requires ClientsOk(h, d, snapRev, cs)
    ensures ClientsOk(h + [x], d, snapRev, cs)
  {
    hide ClientOk;
    forall id | 0 <= id < |cs| ensures ClientOk(h + [x], d, cs[id]) {
      ClientGrows(h, x, d, d, cs[id]);
    }
  }

  lemma PushKeeps(s: Server)
    requires Inv(s)
    ensures Inv(DoPush(s))
  {
    hide ClientOk, Segment, Replay, PcOk, UpToDateOk, ClientsOk, Numbered;
    var s' := DoPush(s);
    if s' != s {
      SegmentAppend(s.history, s.Drained(), s.logChan);
    }
  }

  lemma NewClientOk(h: seq<Change>, d: nat, requested: nat)
    ensures ClientOk(h, d, NewClient(requested))
  {}

  lemma RegisterKeeps(s: Server, requested: nat)
    requires Inv(s)
    ensures Inv(DoRegister(s, requested))
  {
    hide ClientOk, Segment, Replay;
    var s' := DoRegister(s, requested);
    if s' != s {
      NewClientOk(s.history, s.Drained(), requested);
      assert forall id :: 0 <= id < |s.clients| ==> s'.clients[id] == s.clients[id];
      assert s'.clients[|s.clients|] == NewClient(requested);
    }
  }

  /** Replacing one client by another that only other goroutines could have changed. */
  ghost predicate SameControl(c: Client, c': Client) {
    && c'.requested == c.requested && c'.revision == c.revision && c'.phase == c.phase
    && c'.listed == c.listed && (c.closed ==> c'.closed)
  }

  lemma SameControlKeepsPc(cs: seq<Client>, cs': seq<Client>, pc: Pc, pending: nat, maxSynced: nat, snapRev: nat, logLen: nat)
    requires |cs'| == |cs| && forall i :: 0 <= i < |cs| ==> SameControl(cs[i], cs'[i])
    requires UpToDateOk(cs, pc, pending, maxSynced) && PcOk(cs, pc, pending, snapRev, logLen)
    ensures UpToDateOk(cs', pc, pending, maxSynced) && PcOk(cs', pc, pending, snapRev, logLen)
  {}

  lemma PutKeeps(s: Server, id: nat, c': Client)
    requires Inv(s) && id < |s.clients|
    requires SameControl(s.clients[id], c') && ClientOk(s.history, s.Drained(), c')
    ensures Inv(s.Put(id, c'))
  {
    hide ClientOk, Segment, Replay, PcOk, UpToDateOk;
    var cs, cs' := s.clients, s.clients[id := c'];
    assert ClientsOk(s.history, s.Drained(), s.snapRev, cs');
    assert SameControl(c', c');
    assert forall i :: 0 <= i < |cs| ==> SameControl(cs[i], cs'[i]);
    SameControlKeepsPc(cs, cs', s.pc, |s.pending|, s.maxSynced, s.snapRev, |s.log|);
  }

  lemma WatcherKeeps(s: Server, l: Label)
    requires Inv(s) && (l.Take? || l.TakeFail? || l.MarkClosed? || l.Finish?)
    ensures Inv(Step(s, l))
  {
    hide Segment, Replay, PcOk, UpToDateOk;
    if Step(s, l) != s {
      var c := s.clients[l.id];
      match l
      case Take(id) =>
        TakenOk(s.history, s.Drained(), c);
        PutKeeps(s, id, c.(ch := c.ch[1..], delivered := c.delivered + [c.ch[0]]));
      case TakeFail(id) =>
        TakenOk(s.history, s.Drained(), c);
        PutKeeps(s, id, c.(ch := c.ch[1..], stream := Broken));
      case MarkClosed(id) =>
        PutKeeps(s, id, c.(closed := true, stream := Ended(Ok)));
      case Finish(id) =>
        PutKeeps(s, id, c.(stream := Ended(DataLoss)));
    }
  }

  // ------------------------------------------------------------ draining and compaction

  lemma DrainKeeps(s: Server)
    requires Inv(s)
    ensures Inv(DoDrain(s))
  {
    hide ClientOk, Replay;
    var s' := DoDrain(s);
    if s' != s {
      SegmentAt(s.history, s.Drained(), s.logChan, 0);
      SegmentAppend(s.history, s.snapRev, s.log);
      SegmentDrop(s.history, s.Drained(), s.logChan, 1);
      forall id | 0 <= id < |s.clients| ensures ClientOk(s.history, s'.Drained(), s.clients[id]) {
        ClientLater(s.history, s.Drained(), s'.Drained(), s.clients[id]);
      }
    }
  }

  /** Folding the first `k` log entries into the snapshot. */
  lemma FoldMeaning(s: Server, k: nat)
    requires LogOk(s) && k <= |s.log|
    ensures Replay(s.snap, s.log[..k]) == Replay(map[], s.history[..s.snapRev + k])
    ensures Replay(Replay(s.snap, s.log[..k]), s.log[k..]) == Replay(s.snap, s.log)
    ensures Segment(s.history, s.snapRev + k, s.log[k..])
  {
    hide Replay;
    var a := s.snapRev;
    assert s.log[..k] == s.history[a..a + k];
    assert s.history[..a + k] == s.history[..a] + s.history[a..a + k];
    ReplayConcat(map[], s.history[..a], s.history[a..a + k]);
    assert s.log == s.log[..k] + s.log[k..];
    ReplayConcat(s.snap, s.log[..k], s.log[k..]);
    SegmentDrop(s.history, a, s.log, k);
  }

  /** Compaction folds the log up to the lowest revision anyone still needs: the snapshot
      is again the replay of the history to its revision, nothing that was retained is
      lost, what is left in the log is above that lowest revision, and no active client
      is left behind. Entries stay in the log only while some active client sits exactly at
      the snapshot's revision. */
  lemma CompactMeaning(s: Server)
    requires LogOk(s) && ClientsOk(s.history, s.Drained(), s.snapRev, s.clients)
    ensures LogOk(Compact(s)) && Compact(s).Drained() == s.Drained()
    ensures Compact(s) == s.(snap := Compact(s).snap, snapRev := Compact(s).snapRev, log := Compact(s).log)
    ensures ClientsOk(s.history, s.Drained(), Compact(s).snapRev, s.clients)
    ensures s.snapRev <= Compact(s).snapRev
    ensures Replay(Compact(s).snap, Compact(s).log) == Replay(s.snap, s.log)
    ensures forall i :: 0 <= i < |Compact(s).log| ==> Compact(s).log[i].revision > MinRevision(s.clients, s.counter)
    ensures Compact(s).log != [] ==>
              exists id :: 0 <= id < |s.clients| && Active(s.clients[id]) && s.clients[id].revision == Compact(s).snapRev
  {
    hide Replay, Segment, ClientOk, Compact, LogOk;
    CompactStorage(s);
    CompactOvertakesNobody(s);
  }

  /** What compaction does to snapshot and log. */
  lemma CompactStorage(s: Server)
    requires LogOk(s)
    ensures LogOk(Compact(s)) && Compact(s).Drained() == s.Drained()
    ensures Compact(s) == s.(snap := Compact(s).snap, snapRev := Compact(s).snapRev, log := Compact(s).log)
    ensures s.snapRev <= Compact(s).snapRev
    ensures Replay(Compact(s).snap, Compact(s).log) == Replay(s.snap, s.log)
  {
    hide Replay, Segment, MinRevision, HasActive;
    LogRevisions(s);
    var k := FoldCount(s.log, MinRevision(s.clients, s.counter));
    FoldMeaning(s, k);
  }

  /** Where compaction stops. */
  lemma CompactOvertakesNobody(s: Server)
    requires LogOk(s) && ClientsOk(s.history, s.Drained(), s.snapRev, s.clients)
    ensures ClientsOk(s.history, s.Drained(), Compact(s).snapRev, s.clients)
    ensures forall i :: 0 <= i < |Compact(s).log| ==> Compact(s).log[i].revision > MinRevision(s.clients, s.counter)
    ensures Compact(s).log != [] ==>
              exists id :: 0 <= id < |s.clients| && Active(s.clients[id]) && s.clients[id].revision == Compact(s).snapRev
  {
    hide Replay, Segment, ClientOk;
    var m := MinRevision(s.clients, s.counter);
    LogRevisions(s);
    CompactStorage(s);
    LogRevisions(Compact(s));
    if s.log != [] && !(!HasActive(s.clients) && m == s.snapRev) {
      assert Compact(s).snapRev == s.snapRev + FoldCount(s.log, m);
    }
  }

  /** The log is numbered without a gap, starting right after the snapshot. */
  lemma LogRevisions(s: Server)
    requires Numbered(s.history) && Segment(s.history, s.snapRev, s.log)
    ensures forall i :: 0 <= i < |s.log| ==> s.log[i].revision == s.snapRev + 1 + i
  {
    forall i | 0 <= i < |s.log| ensures s.log[i].revision == s.snapRev + 1 + i {
      SegmentAt(s.history, s.snapRev, s.log, i);
    }
  }

  lemma CompactKeeps(s: Server, pc: Pc)
    requires Inv(s) && ((s.pc.TickSynced? && pc == Idle) || (InDrain(s.pc) && pc == Compacted(s.pc.cl)))
    ensures Inv(Compact(s).(pc := pc))
  {
    hide ClientOk, Segment, Replay, CaughtUp, Compact;
    CompactMeaning(s);
  }

  lemma ClosedOk(h: seq<Change>, d: nat, c: Client)
    requires ClientOk(h, d, c)
    ensures ClientOk(h, d, c.(closed := true))
  {}

  lemma CloseSlowKeeps(s: Server)
    requires Inv(s) && s.pc.Appended?
    ensures Inv(s.(clients := CloseSlow(s.clients), pc := SlowClosed(s.pc.cl)))
  {
    hide ClientOk, Segment, Replay;
    var cs := CloseSlow(s.clients);
    forall id | 0 <= id < |cs| ensures ClientOk(s.history, s.Drained(), cs[id]) {
      ClosedOk(s.history, s.Drained(), s.clients[id]);
    }
  }

  // ------------------------------------------------------------- serving the clients

  lemma ReapOk(h: seq<Change>, d: nat, snapRev: nat, cs: seq<Client>)
    requires ClientsOk(h, d, snapRev, cs)
    ensures !DoubleClose(cs) && ClientsOk(h, d, snapRev, Reap(cs))
  {}

  lemma BeginFlushKeeps(s: Server, tick: bool)
    requires Inv(s) && s.pc.Idle? && s.pending != []
    ensures Inv(BeginFlush(s, tick))
  {
    hide ClientOk, Segment, Replay;
    ReapOk(s.history, s.Drained(), s.snapRev, s.clients);
    var cs, todo := Reap(s.clients), Select(s.clients, {UpToDate});
    assert TodoOk(cs, todo, s.snapRev);
    assert FlushOk(cs, todo, 0, |s.pending|, s.snapRev);
    forall id: nat | id < |cs| && cs[id].listed && cs[id].phase == UpToDate
      ensures cs[id].revision == s.maxSynced && id in todo {
      assert Active(s.clients[id]);
    }
  }

  lemma QueueKeeps(s: Server)
    requires Inv(s) && s.pc.Compacted?
    ensures Inv(DoAdvance(s))
  {
    hide Replay, ClientOk;
    var t := s.(pending := s.pending + [s.pc.cl], pc := Idle);
    SegmentAppend(s.history, s.maxSynced, s.pending);
    hide Segment;
    assert Inv(t);
    if |t.pending| > MAX_SYNC_BATCH_SIZE {
      BeginFlushKeeps(t, false);
      assert DoAdvance(s) == BeginFlush(t, false);
    }
  }

  lemma BeginSyncKeeps(s: Server)
    requires Inv(s) && s.pc.TickFlushed?
    ensures Inv(BeginSync(s))
  {
    hide ClientOk, Segment, Replay;
    ReapOk(s.history, s.Drained(), s.snapRev, s.clients);
    var cs, todo := Reap(s.clients), Select(s.clients, {Stale, Blocking});
    assert TodoOk(cs, todo, s.snapRev);
    forall id: nat | id < |cs| && id !in todo ensures CaughtUp(cs[id], s.Drained()) {
      if Active(cs[id]) {
        assert Active(s.clients[id]);
      }
    }
    assert SyncOk(cs, todo, None, |cs|, s.snapRev, |s.log|);
  }

  /** Moving past the first client of a work list after changing only that client. */
  lemma TodoTail(cs: seq<Client>, todo: seq<nat>, snapRev: nat, c': Client)
    requires TodoOk(cs, todo, snapRev) && todo != []
    ensures todo[0] !in todo[1..]
    ensures TodoOk(cs[todo[0] := c'], todo[1..], snapRev)
    ensures forall j :: 0 <= j < |todo| - 1 ==> cs[todo[0] := c'][todo[1..][j]] == cs[todo[1..][j]]
  {}

  lemma FlushDoneKeeps(s: Server)
    requires Inv(s) && s.pc.Flushing? && s.pc.todo == []
    ensures Inv(FlushOne(s))
  {
    hide Replay, ClientOk, Segment;
    SegmentAt(s.history, s.maxSynced, s.pending, |s.pending| - 1);
    SegmentNone(s.history, s.Drained());
  }

  lemma SegmentNone(h: seq<Change>, a: int)
    ensures Segment(h, a, [])
  {}

  lemma FlushNextKeeps(s: Server, c': Client)
    requires Inv(s) && s.pc.Flushing? && s.pc.todo != []
    requires ClientOk(s.history, s.Drained(), c') && (Active(c') ==> s.snapRev <= c'.revision)
    requires c'.phase == UpToDate ==> c'.revision == s.maxSynced + |s.pending|
    ensures Inv(s.Put(s.pc.todo[0], c').(pc := Flushing(s.pc.todo[1..], 0, s.pc.tick)))
  {
    hide ClientOk, Segment, Replay;
    var Flushing(todo, k, tick) := s.pc;
    TodoTail(s.clients, todo, s.snapRev, c');
    var cs := s.clients[todo[0] := c'];
    assert ClientsOk(s.history, s.Drained(), s.snapRev, cs);
    assert FlushOk(cs, todo[1..], 0, |s.pending|, s.snapRev);
    forall id: nat | id < |cs| && cs[id].listed && cs[id].phase == UpToDate
      ensures cs[id].revision == Expected(Flushing(todo[1..], 0, tick), |s.pending|, s.maxSynced, id) {
      if id != todo[0] {
        assert id in todo <==> id in todo[1..];
      }
    }
  }

  lemma FlushSendKeeps(s: Server)
    requires Inv(s) && s.pc.Flushing? && s.pc.todo != [] && s.pc.k < |s.pending| && HasRoom(s.clients[s.pc.todo[0]])
    ensures Inv(FlushOne(s))
  {
    hide Replay, Segment;
    var Flushing(todo, k, tick) := s.pc;
    var c := s.clients[todo[0]];
    assert c.revision == s.maxSynced + k;
    SegmentAt(s.history, s.maxSynced, s.pending, k);
    SentOk(s.history, s.Drained(), c, UpToDate);
    var c' := Sent(c, s.pending[k]);
    assert c' == c'.(phase := UpToDate);
    FlushSentKeeps(s, c');
  }

  lemma FlushSentKeeps(s: Server, c': Client)
    requires Inv(s) && s.pc.Flushing? && s.pc.todo != [] && s.pc.k < |s.pending|
    requires var c := s.clients[s.pc.todo[0]];
             ClientOk(s.history, s.Drained(), c') && c'.revision == c.revision + 1 && c'.phase == UpToDate && c'.listed
    ensures Inv(s.Put(s.pc.todo[0], c').(pc := Flushing(s.pc.todo, s.pc.k + 1, s.pc.tick)))
  {
    hide Replay, Segment, ClientOk;
    var Flushing(todo, k, tick) := s.pc;
    var cs := s.clients[todo[0] := c'];
    assert ClientsOk(s.history, s.Drained(), s.snapRev, cs);
    assert TodoOk(cs, todo, s.snapRev);
    assert UpToDateOk(cs, Flushing(todo, k + 1, tick), |s.pending|, s.maxSynced);
  }

  lemma FlushKeeps(s: Server)
    requires Inv(s) && s.pc.Flushing?
    ensures Inv(FlushOne(s))
  {
    var Flushing(todo, k, tick) := s.pc;
    if todo == [] {
      FlushDoneKeeps(s);
    } else {
      var c := s.clients[todo[0]];
      assert c.revision == s.maxSynced + k;
      if k >= |s.pending| {
        FlushNextKeeps(s, c.(phase := UpToDate));
      } else if HasRoom(c) {
        FlushSendKeeps(s);
      } else {
        FlushNextKeeps(s, c.(phase := Blocking));
      }
    }
  }

  lemma SyncOkTail(cs: seq<Client>, todo: seq<nat>, cur: Option<nat>, mark: nat, snapRev: nat, logLen: nat, c': Client)
    requires SyncOk(cs, todo, cur, mark, snapRev, logLen) && todo != [] && CaughtUp(c', snapRev + logLen)
    ensures SyncOk(cs[todo[0] := c'], todo[1..], None, mark, snapRev, logLen)
  {
    hide CaughtUp;
    TodoTail(cs, todo, snapRev, c');
    var cs' := cs[todo[0] := c'];
    forall id: nat | id < mark && id !in todo[1..] ensures CaughtUp(cs'[id], snapRev + logLen) {
      if id != todo[0] {
        assert id !in todo;
      }
    }
  }

  lemma ClientsPut(h: seq<Change>, d: nat, snapRev: nat, cs: seq<Client>, i: nat, c': Client)
    requires ClientsOk(h, d, snapRev, cs) && i < |cs| && ClientOk(h, d, c') && (Active(c') ==> snapRev <= c'.revision)
    ensures ClientsOk(h, d, snapRev, cs[i := c'])
  {
    hide ClientOk;
  }

  lemma UpToDatePut(cs: seq<Client>, pc: Pc, pc': Pc, pending: nat, maxSynced: nat, i: nat, c': Client)
    requires UpToDateOk(cs, pc, pending, maxSynced) && !pc.Flushing? && !pc'.Flushing?
    requires i < |cs| && (c'.phase == UpToDate ==> c'.revision == maxSynced)
    ensures UpToDateOk(cs[i := c'], pc', pending, maxSynced)
  {}

  lemma SameLog(s: Server, cs: seq<Client>, pc: Pc)
    requires LogOk(s)
    ensures LogOk(s.(clients := cs, pc := pc))
  {}

  lemma SyncNextKeeps(s: Server, c': Client)
    requires Inv(s) && s.pc.Syncing? && s.pc.todo != []
    requires ClientOk(s.history, s.Drained(), c') && (Active(c') ==> s.snapRev <= c'.revision)
    requires c'.phase == UpToDate ==> c'.revision == s.maxSynced
    requires CaughtUp(c', s.Drained())
    ensures Inv(s.Put(s.pc.todo[0], c').(pc := Syncing(s.pc.todo[1..], None, s.pc.mark)))
  {
    hide ClientOk, Segment, Replay, CaughtUp, LogOk, ClientsOk, UpToDateOk;
    var Syncing(todo, cur, mark) := s.pc;
    ClientsPut(s.history, s.Drained(), s.snapRev, s.clients, todo[0], c');
    SyncOkTail(s.clients, todo, cur, mark, s.snapRev, |s.log|, c');
    UpToDatePut(s.clients, s.pc, Syncing(todo[1..], None, mark), |s.pending|, s.maxSynced, todo[0], c');
    SameLog(s, s.clients[todo[0] := c'], Syncing(todo[1..], None, mark));
    hide SyncOk;
  }

  lemma SyncSendKeeps(s: Server)
    requires Inv(s) && s.pc.Syncing? && s.pc.cur.Some? && HasRoom(s.clients[s.pc.todo[0]])
    ensures Inv(SyncOne(s))
  {
    hide Segment, Replay;
    var Syncing(todo, cur, mark) := s.pc;
    var pos, c, d := cur.value, s.clients[todo[0]], s.Drained();
    SegmentAt(s.history, s.snapRev, s.log, pos);
    var c' := Sent(c, s.log[pos]);
    if c.revision + 1 == s.maxSynced {
      SentOk(s.history, d, c, UpToDate);
      SyncNextKeeps(s, c'.(phase := UpToDate));
    } else {
      SentOk(s.history, d, c, c.phase);
      assert c' == c'.(phase := c.phase);
      var cs := s.clients[todo[0] := c'];
      assert ClientsOk(s.history, d, s.snapRev, cs);
      assert TodoOk(cs, todo, s.snapRev);
      assert SyncOk(cs, todo, Some(pos + 1), mark, s.snapRev, |s.log|);
    }
  }

  lemma SyncKeeps(s: Server)
    requires Inv(s) && s.pc.Syncing?
    ensures Inv(SyncOne(s))
  {
    hide Segment, Replay;
    var Syncing(todo, cur, mark) := s.pc;
    if todo != [] {
      var c := s.clients[todo[0]];
      if cur.None? {
        NextIndexInSegment(s.history, s.snapRev, s.log, c.revision);
        if c.revision >= s.Drained() {
          assert s.Put(todo[0], c) == s;
          SyncNextKeeps(s, c);
        }
      } else if HasRoom(c) {
        SyncSendKeeps(s);
      } else {
        SyncNextKeeps(s, c.(phase := Blocking));
      }
    }
  }

  // -------------------------------------------------------------------- whole runs

  lemma AdvanceKeeps(s: Server)
    requires Inv(s)
    ensures Inv(DoAdvance(s))
  {
    match s.pc
    case Idle =>
    case Panicked =>
    case Appended(cl) =>
      if |s.log| > MAX_RETAINED_LOG_ENTRIES { CloseSlowKeeps(s); }
      else if |s.log| > COMPACT_THRESHOLD { CompactKeeps(s, Compacted(cl)); }
    case SlowClosed(cl) => CompactKeeps(s, Compacted(cl));
    case Compacted(_) => QueueKeeps(s);
    case Flushing(_, _, _) => FlushKeeps(s);
    case TickFlushed => BeginSyncKeeps(s);
    case Syncing(_, _, _) => SyncKeeps(s);
    case TickSynced(_) => CompactKeeps(s, Idle);
  }

  lemma TickKeeps(s: Server)
    requires Inv(s)
    ensures Inv(DoTick(s))
  {
    if s.pc.Idle? && s.pending != [] {
      BeginFlushKeeps(s, true);
    }
  }

  lemma StepKeeps(s: Server, l: Label)
    requires Inv(s)
    ensures Inv(Step(s, l))
  {
    match l
    case Assign(op, entry) => AssignKeeps(s, op, entry);
    case Push => PushKeeps(s);
    case Register(requested) => RegisterKeeps(s, requested);
    case Take(_) => WatcherKeeps(s, l);
    case TakeFail(_) => WatcherKeeps(s, l);
    case MarkClosed(_) => WatcherKeeps(s, l);
    case Finish(_) => WatcherKeeps(s, l);
    case Drain => DrainKeeps(s);
    case Tick => TickKeeps(s);
    case Advance => AdvanceKeeps(s);
  }

  /** The invariant holds after every run from the initial state. */
  lemma {:induction false} RunKeeps(ls: seq<Label>)
    ensures Inv(Run(INITIAL, ls))
  {
    if ls != [] {
      RunKeeps(ls[..|ls| - 1]);
      StepKeeps(Run(INITIAL, ls[..|ls| - 1]), ls[|ls| - 1]);
    }
  }
}
