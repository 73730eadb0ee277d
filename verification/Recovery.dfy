/** The system can always recover: from every reachable state the agent can get hold of the
    whole current history by ordinary steps, without anything new being logged, a restart,
    or any watcher having to give up. */
module Recovery {
  import opened ChangeLog
  import opened Controller
  import opened ControllerInvariant
  import opened ControllerProgress
  import opened ControllerTheorems
  import opened Options
  import opened Replica
  import opened Replication

  /** Steps of `syncControl`, of the send that waits for the channel, of streams that take from
      their channels, and of the agent with its connection. */
  predicate Quiet(l: SysLabel) {
    match l
    case Serve(sl) => sl.Push? || sl.Drain? || sl.Tick? || sl.Advance? || sl.Take?
    case Restart => false
    case _ => true
  }

  predicate AllQuiet(ls: seq<SysLabel>) {
    forall i :: 0 <= i < |ls| ==> Quiet(ls[i])
  }

  ghost function From(s: System, ls: seq<SysLabel>): System {
    if ls == [] then s else SysStep(From(s, ls[..|ls| - 1]), ls[|ls| - 1])
  }

  ghost predicate Reach(s: System, t: System) {
    exists ls :: AllQuiet(ls) && From(s, ls) == t
  }

  lemma {:induction false} FromConcat(s: System, a: seq<SysLabel>, b: seq<SysLabel>)
    ensures From(s, a + b) == From(From(s, a), b)
  {
    if b == [] {
      assert a + b == a;
    } else {
      assert (a + b)[..|a + b| - 1] == a + b[..|b| - 1];
      FromConcat(s, a, b[..|b| - 1]);
    }
  }

  lemma {:induction false} RunFrom(ls: seq<SysLabel>, more: seq<SysLabel>)
    ensures SysRun(ls + more) == From(SysRun(ls), more)
  {
    if more == [] {
      assert ls + more == ls;
    } else {
      assert (ls + more)[..|ls + more| - 1] == ls + more[..|more| - 1];
      RunFrom(ls, more[..|more| - 1]);
    }
  }

  lemma ReachSelf(s: System)
    ensures Reach(s, s)
  {
    assert AllQuiet([]) && From(s, []) == s;
  }

  lemma ReachStep(s: System, l: SysLabel)
    requires Quiet(l)
    ensures Reach(s, SysStep(s, l))
  {
    hide SysStep;
    assert [l][..0] == [] && From(s, []) == s;
    assert AllQuiet([l]) && From(s, [l]) == SysStep(s, l);
  }

  lemma ReachTrans(s: System, t: System, u: System)
    requires Reach(s, t) && Reach(t, u)
    ensures Reach(s, u)
  {
    hide From;
    var a :| AllQuiet(a) && From(s, a) == t;
    var b :| AllQuiet(b) && From(t, b) == u;
    FromConcat(s, a, b);
    assert AllQuiet(a + b);
  }

  /** A quiet step keeps the invariant and logs nothing. */
  lemma QuietKeeps(s: System, l: SysLabel)
    requires SysInv(s) && Quiet(l)
    ensures SysInv(SysStep(s, l))
    ensures SysStep(s, l).past == s.past && SysStep(s, l).server.history == s.server.history
  {
    hide SysInv, DoAdvance;
    SysStepKeeps(s, l);
    if l == Serve(Advance) {
      InvOf(s);
      AdvanceHistory(s.server);
    }
  }

  lemma InvOf(s: System)
    requires SysInv(s)
    ensures Inv(s.server) && AgentOk(s)
  {}

  lemma {:induction false} FromKeeps(s: System, ls: seq<SysLabel>)
    requires SysInv(s) && AllQuiet(ls)
    ensures SysInv(From(s, ls)) && From(s, ls).past == s.past && From(s, ls).server.history == s.server.history
  {
    hide SysInv, SysStep, Quiet;
    if ls != [] {
      FromKeeps(s, ls[..|ls| - 1]);
      QuietKeeps(From(s, ls[..|ls| - 1]), ls[|ls| - 1]);
    }
  }

  lemma ReachKeeps(s: System, t: System)
    requires SysInv(s) && Reach(s, t)
    ensures SysInv(t) && t.past == s.past && t.server.history == s.server.history
  {
    hide SysInv, From, AllQuiet;
    var ls :| AllQuiet(ls) && From(s, ls) == t;
    FromKeeps(s, ls);
  }

  // --------------------------------------------------------------- back in the select

  /** The agent, the channel and what was drained are as they were. */
  ghost predicate SameOutside(s: System, t: System) {
    && t.agent == s.agent && t.server.logChan == s.server.logChan && t.server.inflight == s.server.inflight
    && t.server.Drained() == s.server.Drained()
  }

  lemma AdvanceOutside(s: System)
    requires SysInv(s)
    ensures SysStep(s, Serve(Advance)) == s.(server := DoAdvance(s.server))
    ensures SameOutside(s, SysStep(s, Serve(Advance)))
    ensures !s.server.pc.Idle? ==> LessWork(s.server, DoAdvance(s.server))
    ensures Work(s.server) >= 0
  {
    hide SysInv, Inv, LessWork, Work;
    InvOf(s);
    AdvanceHistory(s.server);
    WorkNonNegative(s.server);
    if !s.server.pc.Idle? {
      AdvanceWorks(s.server);
    }
    AdvanceChannel(s.server);
  }

  lemma AdvanceChannel(s: Server)
    ensures DoAdvance(s).logChan == s.logChan && DoAdvance(s).inflight == s.inflight
  {}

  lemma {:induction false} ToIdle(s: System) returns (t: System)
    requires SysInv(s)
    ensures Reach(s, t) && SysInv(t) && t.server.pc.Idle? && SameOutside(s, t)
    decreases Stage(s.server.pc), Work(s.server)
  {
    hide SysInv, Reach, SysStep, Work, Stage;
    if s.server.pc.Idle? {
      t := s;
      ReachSelf(s);
    } else {
      var u := SysStep(s, Serve(Advance));
      AdvanceOutside(s);
      QuietKeeps(s, Serve(Advance));
      ReachStep(s, Serve(Advance));
      t := ToIdle(u);
      ReachTrans(s, u, t);
    }
  }

  // ------------------------------------------------------------------- nothing undrained

  ghost predicate Settled(s: System) {
    s.server.pc.Idle? && s.server.Drained() == |s.server.history|
  }

  lemma Undrained(s: Server)
    requires Inv(s)
    ensures s.Drained() + |s.logChan| + (if s.inflight.Some? then 1 else 0) == |s.history|
  {}

  lemma PushOutside(s: System)
    requires s.server.inflight.Some? && s.server.logChan == []
    ensures var t := SysStep(s, Serve(Push));
            t.server.logChan != [] && t.server.pc == s.server.pc && t.server.Drained() == s.server.Drained() && t.server.history == s.server.history
  {}

  lemma DrainOutside(s: System)
    requires s.server.pc.Idle? && s.server.logChan != []
    ensures var t := SysStep(s, Serve(Drain));
            t.server.Drained() == s.server.Drained() + 1 && t.server.history == s.server.history
  {}

  lemma {:induction false} Settle(s: System) returns (t: System)
    requires SysInv(s)
    ensures Reach(s, t) && SysInv(t) && Settled(t)
    decreases |s.server.history| - s.server.Drained()
  {
    hide SysInv, Reach, SysStep;
    var u := ToIdle(s);
    ReachKeeps(s, u);
    Undrained(u.server) by { InvOf(u); }
    if u.server.Drained() == |u.server.history| {
      t := u;
    } else {
      var v := u;
      if u.server.logChan == [] {
        PushOutside(u);
        QuietKeeps(u, Serve(Push));
        ReachStep(u, Serve(Push));
        v := SysStep(u, Serve(Push));
        ReachTrans(s, u, v);
      }
      DrainOutside(v);
      QuietKeeps(v, Serve(Drain));
      ReachStep(v, Serve(Drain));
      var w := SysStep(v, Serve(Drain));
      ReachTrans(s, v, w);
      Undrained(w.server) by { InvOf(w); }
      t := Settle(w);
      ReachTrans(s, w, t);
    }
  }

  // ------------------------------------------------------------------ a stream that works

  /** The agent reads a stream whose client is active and whose goroutine is running. */
  ghost predicate Attached(s: System, id: nat) {
    && s.agent.conn.Watching? && s.agent.conn.id == Some(id)
    && id < |s.server.clients| && Active(s.server.clients[id]) && s.server.clients[id].stream.Open?
  }

  ghost predicate SameServer(s: System, t: System) {
    t.server == s.server && t.past == s.past
  }

  /** Every table can be listed. */
  lemma {:induction false} Listing(m: Table, keys: set<string>) returns (es: seq<Entry>)
    requires Keyed(m) && keys <= m.Keys
    ensures forall e :: e in es ==> e.ip in m && m[e.ip] == e
    ensures forall ip :: ip in keys ==> m[ip] in es
    decreases keys
  {
    if keys == {} {
      es := [];
    } else {
      var ip :| ip in keys;
      var rest := Listing(m, keys - {ip});
      es := rest + [m[ip]];
    }
  }

  lemma SnapshotKeyed(s: Server)
    requires Inv(s)
    ensures Keyed(s.snap)
  {
    hide Segment, ClientOk;
    ReplayKeys(s.history[..s.snapRev]);
  }

  ghost predicate MustList(a: Agent) {
    a.conn.Reconnecting? && (a.conn.relist || a.period == 0)
  }

  /** A stream that fails with DataLoss makes the agent list again. */
  lemma Disconnect(s: System) returns (t: System)
    requires SysInv(s) && s.agent.conn.Watching?
    ensures Reach(s, t) && t.server == s.server && MustList(t.agent)
  {
    hide Inv;
    ReachStep(s, StreamFails(DataLoss));
    t := SysStep(s, StreamFails(DataLoss));
  }

  /** From a listing to a stream that has just been opened. */
  lemma Reattach(s: System) returns (t: System, id: nat)
    requires SysInv(s) && MustList(s.agent) && Settled(s)
    ensures Reach(s, t) && SysInv(t) && Settled(t) && Attached(t, id)
  {
    hide Inv, Reach, From, FromInfos, ToInfos;
    InvOf(s);
    SnapshotKeyed(s.server);
    var es := Listing(s.server.snap, s.server.snap.Keys);
    assert Lists(es, s.server.snap);
    var u := SysStep(s, ListCache(es));
    assert u.agent.conn == Requesting(true) && u.agent.period == u.Period() && u.agent.revision == u.server.snapRev;
    ReachStep(s, ListCache(es));
    QuietKeeps(s, ListCache(es));
    ReachStep(u, Watch);
    QuietKeeps(u, Watch);
    t, id := SysStep(u, Watch), |u.server.clients|;
    ReachTrans(s, u, t);
  }

  /** From any connection state of the agent to one in which it must list. */
  lemma ToMustList(s: System) returns (t: System)
    requires SysInv(s) && Settled(s)
    ensures Reach(s, t) && SysInv(t) && Settled(t) && MustList(t.agent)
  {
    hide SysInv, Reach, From, Inv;
    InvOf(s);
    ReachSelf(s);
    var u := s;
    if s.agent.conn.Reconnecting? && !MustList(s.agent) {
      u := SysStep(s, SkipList);
      ReachStep(s, SkipList);
    }
    ReachKeeps(s, u);
    assert Settled(u) && (MustList(u.agent) || u.agent.conn.Requesting? || u.agent.conn.Watching?);
    t := FromRequest(u);
    ReachTrans(s, u, t);
  }

  lemma FromRequest(s: System) returns (t: System)
    requires SysInv(s) && Settled(s) && (MustList(s.agent) || s.agent.conn.Requesting? || s.agent.conn.Watching?)
    ensures Reach(s, t) && SysInv(t) && Settled(t) && MustList(t.agent)
  {
    hide SysInv, Reach, From, Inv;
    ReachSelf(s);
    var u := s;
    if s.agent.conn.Requesting? {
      u := SysStep(s, Watch);
      ReachStep(s, Watch);
    }
    ReachKeeps(s, u);
    assert Settled(u) && (MustList(u.agent) || u.agent.conn.Watching?);
    t := u;
    if u.agent.conn.Watching? {
      t := Disconnect(u);
      ReachTrans(s, u, t);
    }
    ReachKeeps(s, t);
  }

  /** A stream that works is kept; any other agent opens a new one. */
  lemma Attach(s: System) returns (t: System, id: nat)
    requires SysInv(s) && Settled(s)
    ensures Reach(s, t) && SysInv(t) && Settled(t) && Attached(t, id)
  {
    hide SysInv, Reach, From, Settled;
    if i: nat :| Attached(s, i) {
      t, id := s, i;
      ReachSelf(s);
    } else {
      var u := ToMustList(s);
      t, id := Reattach(u);
      ReachTrans(s, u, t);
    }
  }

  // ------------------------------------------------------------------ reading it empty

  ghost predicate Emptied(s: System, id: nat) {
    Attached(s, id) && s.agent.conn.wire == [] && s.server.clients[id].ch == []
  }

  /** Everything but the position of one stream is as it was. */
  ghost predicate SameButReading(s: System, t: System, id: nat)
    requires id < |s.server.clients|
  {
    && |t.server.clients| == |s.server.clients| && t.server.clients[id].revision == s.server.clients[id].revision
    && t.server.pc == s.server.pc && t.server.Drained() == s.server.Drained()
  }

  lemma {:induction false} TakeAll(s: System, id: nat) returns (t: System)
    requires SysInv(s) && Attached(s, id)
    ensures Reach(s, t) && SysInv(t) && Attached(t, id) && t.server.clients[id].ch == [] && SameButReading(s, t, id)
    decreases |s.server.clients[id].ch|
  {
    hide SysInv, Reach;
    if s.server.clients[id].ch == [] {
      t := s;
      ReachSelf(s);
    } else {
      var u := SysStep(s, Serve(Take(id)));
      ReachStep(s, Serve(Take(id)));
      QuietKeeps(s, Serve(Take(id)));
      t := TakeAll(u, id);
      ReachTrans(s, u, t);
    }
  }

  lemma {:induction false} ReceiveAll(s: System, id: nat) returns (t: System)
    requires SysInv(s) && Attached(s, id)
    ensures Reach(s, t) && SysInv(t) && Attached(t, id) && t.agent.conn.wire == [] && t.server == s.server
    decreases |s.agent.conn.wire|
  {
    hide SysInv, Reach;
    if s.agent.conn.wire == [] {
      t := s;
      ReachSelf(s);
    } else {
      var u := SysStep(s, Receive);
      ReachStep(s, Receive);
      QuietKeeps(s, Receive);
      assert !u.agent.conn.Crashed? by { InvOf(u); }
      t := ReceiveAll(u, id);
      ReachTrans(s, u, t);
    }
  }

  /** An emptied stream leaves the agent exactly where the controller has its client. */
  lemma EmptiedMeans(s: System, id: nat)
    requires SysInv(s) && Emptied(s, id)
    ensures s.agent.period == s.Period() && s.agent.revision == s.server.clients[id].revision == SentUpTo(s.server.clients[id])
    ensures s.agent.revision <= s.server.Drained() && s.server.clients[id].requested <= s.server.Drained()
  {
    hide Replay, Segment;
    assert ClientOk(s.server.history, s.server.Drained(), s.server.clients[id]);
  }

  lemma Empty(s: System, id: nat) returns (t: System)
    requires SysInv(s) && Attached(s, id)
    ensures Reach(s, t) && SysInv(t) && Emptied(t, id) && SameButReading(s, t, id)
  {
    hide SysInv, Reach;
    var u := TakeAll(s, id);
    t := ReceiveAll(u, id);
    ReachTrans(s, u, t);
  }

  // ------------------------------------------------------------------------- one tick

  /** The positions of `syncControl` inside a tick. */
  predicate InTick(pc: Pc) {
    (pc.Flushing? && pc.tick) || pc.TickFlushed? || pc.Syncing? || pc.TickSynced?
  }

  /** A client that works, as a tick leaves it. */
  ghost predicate Steady(c: Client, c': Client) {
    Active(c') && c'.stream.Open? && c'.requested == c.requested && c'.delivered == c.delivered
  }

  lemma FlushSteady(s: Server, id: nat)
    requires s.pc.Flushing? && !FlushOne(s).pc.Panicked?
    requires id < |s.clients| && Active(s.clients[id]) && s.clients[id].stream.Open?
    ensures |FlushOne(s).clients| == |s.clients| && Steady(s.clients[id], FlushOne(s).clients[id])
    ensures s.pc.tick ==> (FlushOne(s).pc.Flushing? && FlushOne(s).pc.tick) || FlushOne(s).pc.TickFlushed?
  {}

  lemma SyncSteady(s: Server, id: nat)
    requires s.pc.Syncing? && !SyncOne(s).pc.Panicked?
    requires id < |s.clients| && Active(s.clients[id]) && s.clients[id].stream.Open?
    ensures |SyncOne(s).clients| == |s.clients| && Steady(s.clients[id], SyncOne(s).clients[id])
    ensures SyncOne(s).pc.Syncing? || SyncOne(s).pc.TickSynced?
  {
    hide NextIndex;
  }

  /** Inside a tick nobody's stream is touched. */
  lemma TickSteady(s: Server, id: nat)
    requires Inv(s) && InTick(s.pc) && id < |s.clients| && Active(s.clients[id]) && s.clients[id].stream.Open?
    ensures |DoAdvance(s).clients| == |s.clients| && Steady(s.clients[id], DoAdvance(s).clients[id])
    ensures InTick(DoAdvance(s).pc) || DoAdvance(s).pc.Idle?
    ensures s.pc.TickSynced? <==> DoAdvance(s).pc.Idle?
  {
    hide Inv, FlushOne, SyncOne, Select;
    AdvanceKeeps(s);
    NoPanic(DoAdvance(s));
    if s.pc.Flushing? {
      FlushSteady(s, id);
    } else if s.pc.Syncing? {
      SyncSteady(s, id);
    }
  }

  /** A tick begins; nothing but the list of closed clients changes. */
  lemma TickBegins(s: System, id: nat)
    requires SysInv(s) && s.server.pc.Idle? && Attached(s, id)
    ensures var t := SysStep(s, Serve(Tick));
            && InTick(t.server.pc) && !t.server.pc.TickSynced? && !t.server.pc.Syncing?
            && t.agent == s.agent && |t.server.clients| == |s.server.clients|
            && Steady(s.server.clients[id], t.server.clients[id]) && t.server.Drained() == s.server.Drained()
  {
    hide Inv, Select;
    QuietKeeps(s, Serve(Tick));
    NoPanic(SysStep(s, Serve(Tick)).server) by { InvOf(SysStep(s, Serve(Tick))); }
  }

  lemma NoPanic(s: Server)
    requires Inv(s)
    ensures !s.pc.Panicked?
  {}

  lemma AdvanceInTick(s: System, id: nat) returns (t: System)
    requires SysInv(s) && InTick(s.server.pc) && Attached(s, id)
    ensures t == s.(server := DoAdvance(s.server)) && Reach(s, t) && SysInv(t) && SameOutside(s, t)
    ensures Attached(t, id) && Steady(s.server.clients[id], t.server.clients[id])
    ensures InTick(t.server.pc) || t.server.pc.Idle?
    ensures s.server.pc.TickSynced? <==> t.server.pc.Idle?
    ensures LessWork(s.server, t.server)
    ensures Work(s.server) >= 0
  {
    hide SysInv, Reach, DoAdvance, Inv, LessWork, Work;
    AdvanceOutside(s);
    QuietKeeps(s, Serve(Advance));
    ReachStep(s, Serve(Advance));
    InvOf(s);
    TickSteady(s.server, id);
    t := SysStep(s, Serve(Advance));
  }

  /** On to the point where the tick looks at the list of lagging clients. */
  lemma {:induction false} ToFlushed(s: System, id: nat) returns (t: System)
    requires SysInv(s) && InTick(s.server.pc) && !s.server.pc.Syncing? && !s.server.pc.TickSynced? && Attached(s, id)
    ensures Reach(s, t) && SysInv(t) && t.server.pc.TickFlushed? && SameOutside(s, t)
    ensures Attached(t, id) && Steady(s.server.clients[id], t.server.clients[id])
    decreases Stage(s.server.pc), Work(s.server)
  {
    hide SysInv, Reach, Work, DoAdvance;
    if s.server.pc.TickFlushed? {
      t := s;
      ReachSelf(s);
    } else {
      var u := AdvanceInTick(s, id);
      FlushLeadsOn(s.server);
      t := ToFlushed(u, id);
      ReachTrans(s, u, t);
    }
  }

  lemma FlushLeadsOn(s: Server)
    requires s.pc.Flushing? && s.pc.tick && InTick(DoAdvance(s).pc)
    ensures !DoAdvance(s).pc.Syncing? && !DoAdvance(s).pc.TickSynced?
  {}

  /** On to the end of serving them. */
  lemma {:induction false} ToSynced(s: System, id: nat, base: seq<nat>) returns (t: System)
    requires SysInv(s) && (s.server.pc.Syncing? || s.server.pc.TickSynced?) && Attached(s, id) && TickProgress(s.server, base)
    ensures Reach(s, t) && SysInv(t) && t.server.pc.TickSynced? && SameOutside(s, t)
    ensures Attached(t, id) && Steady(s.server.clients[id], t.server.clients[id]) && TickProgress(t.server, base)
    decreases Stage(s.server.pc), Work(s.server)
  {
    hide SysInv, Reach, Work, DoAdvance, TickProgress;
    if s.server.pc.TickSynced? {
      t := s;
      ReachSelf(s);
    } else {
      var u := AdvanceInTick(s, id);
      ControlProgress(s.server, base) by { InvOf(s); }
      SyncLeadsOn(s.server);
      t := ToSynced(u, id, base);
      ReachTrans(s, u, t);
    }
  }

  lemma SyncLeadsOn(s: Server)
    requires s.pc.Syncing? && InTick(DoAdvance(s).pc)
    ensures DoAdvance(s).pc.Syncing? || DoAdvance(s).pc.TickSynced?
  {}

  lemma BeginLeadsOn(s: Server)
    requires s.pc.TickFlushed? && InTick(DoAdvance(s).pc)
    ensures DoAdvance(s).pc.Syncing?
  {}

  /** At the end of a tick the client is beyond where its stream stood when the tick began, or
      has everything. */
  lemma TickGain(s: Server, id: nat, base: seq<nat>)
    requires Inv(s) && s.pc.TickSynced? && TickProgress(s, base) && id < |base|
    requires Active(s.clients[id]) && s.clients[id].stream.Open? && s.clients[id].requested <= s.Drained()
    ensures s.clients[id].revision == s.Drained() || s.clients[id].revision > base[id]
  {
    hide Replay, Segment, ClientOk;
    CaughtUpAt(s, id);
    assert AheadOf(s.clients[id], base[id]);
  }

  /** From the select through a whole tick: the client gains. */
  lemma TickGains(s: System, id: nat) returns (t: System)
    requires SysInv(s) && Settled(s) && Emptied(s, id)
    ensures Reach(s, t) && SysInv(t) && Attached(t, id) && Settled(t)
    ensures t.server.clients[id].revision == t.server.Drained() || t.server.clients[id].revision > s.agent.revision
  {
    hide SysInv, Reach, SysStep, DoAdvance, TickProgress, InTick;
    EmptiedMeans(s, id);
    TickBegins(s, id);
    QuietKeeps(s, Serve(Tick));
    ReachStep(s, Serve(Tick));
    var s1 := SysStep(s, Serve(Tick));
    var s2 := ToFlushed(s1, id);
    ReachTrans(s, s1, s2);
    assert InTick(s2.server.pc) by { FlushedInTick(s2.server.pc); }
    var s3 := AdvanceInTick(s2, id);
    ReachTrans(s, s2, s3);
    BeginLeadsOn(s2.server);
    var base := SentCounts(s2.server.clients);
    TickProgressStarts(s2.server) by { InvOf(s2); }
    var s4 := ToSynced(s3, id, base);
    ReachTrans(s, s3, s4);
    TickGain(s4.server, id, base) by { InvOf(s4); BaseLength(s4.server, base, s2.server.clients); }
    assert InTick(s4.server.pc) by { SyncedInTick(s4.server.pc); }
    t := AdvanceInTick(s4, id);
    ReachTrans(s, s4, t);
    ReachKeeps(s, t);
    SyncedKeepsRevision(s4.server, id);
  }

  lemma FlushedInTick(pc: Pc)
    requires pc.TickFlushed?
    ensures InTick(pc)
  {}

  lemma SyncedInTick(pc: Pc)
    requires pc.TickSynced?
    ensures InTick(pc)
  {}

  lemma BaseLength(s: Server, base: seq<nat>, cs: seq<Client>)
    requires TickProgress(s, base) && base == SentCounts(cs)
    ensures |base| == |cs|
  {}

  lemma SyncedKeepsRevision(s: Server, id: nat)
    requires s.pc.TickSynced? && id < |s.clients|
    ensures DoAdvance(s).clients == s.clients
  {}

  lemma Round(s: System, id: nat) returns (t: System)
    requires SysInv(s) && Settled(s) && Emptied(s, id)
    ensures Reach(s, t) && SysInv(t) && Settled(t) && Emptied(t, id)
    ensures t.agent.revision == |t.server.history| || t.agent.revision > s.agent.revision
  {
    hide SysInv, Reach;
    var u := TickGains(s, id);
    t := Empty(u, id);
    ReachTrans(s, u, t);
    ReachKeeps(u, t);
    EmptiedMeans(t, id);
  }

  lemma {:induction false} Rounds(s: System, id: nat) returns (t: System)
    requires SysInv(s) && Settled(s) && Emptied(s, id)
    ensures Reach(s, t) && SysInv(t) && Settled(t) && Emptied(t, id) && t.agent.revision == |t.server.history|
    decreases |s.server.history| - s.agent.revision
  {
    hide SysInv, Reach;
    EmptiedMeans(s, id);
    if s.agent.revision == |s.server.history| {
      t := s;
      ReachSelf(s);
    } else {
      var u := Round(s, id);
      EmptiedMeans(u, id);
      ReachKeeps(s, u);
      t := Rounds(u, id);
      ReachTrans(s, u, t);
    }
  }

  // ------------------------------------------------------------------------- the theorem

  /** The agent holds the whole history of the controller's current period, over a stream that
      works, and that history is the one `s` had. */
  ghost predicate Recovered(s: System, t: System) {
    && t.past == s.past && t.server.history == s.server.history
    && t.agent.period == t.Period() && t.agent.revision == |t.server.history|
    && t.agent.entries == Present(Replay(map[], t.server.history))
    && exists id :: Emptied(t, id)
  }

  lemma CanRecover(s: System) returns (t: System)
    requires SysInv(s)
    ensures Reach(s, t) && Recovered(s, t)
  {
    hide SysInv, Reach;
    var u := Settle(s);
    var v, id := Attach(u);
    ReachTrans(s, u, v);
    var w := Empty(v, id);
    ReachTrans(s, v, w);
    ReachKeeps(v, w);
    t := Rounds(w, id);
    ReachTrans(s, w, t);
    ReachKeeps(s, t);
    EmptiedMeans(t, id);
    HoldsHistory(t);
  }

  lemma HoldsHistory(s: System)
    requires SysInv(s) && s.agent.period == s.Period() && s.agent.revision == |s.server.history|
    ensures s.agent.entries == Present(Replay(map[], s.server.history))
  {
    assert s.server.history[..|s.server.history|] == s.server.history;
  }

  /** Recovery: whatever has happened, disconnects, closed streams, restarts and half-finished
      work of the controller included, there is a continuation of quiet steps after which
      the agent holds exactly the current history and is watching again. */
  lemma Recovery(ls: seq<SysLabel>)
    ensures exists more :: AllQuiet(more) && Recovered(SysRun(ls), SysRun(ls + more))
  {
    hide SysRun, SysInv, From, Recovered;
    SysRunKeeps(ls);
    var t := CanRecover(SysRun(ls));
    var more :| AllQuiet(more) && From(SysRun(ls), more) == t;
    RunFrom(ls, more);
    assert AllQuiet(more) && Recovered(SysRun(ls), SysRun(ls + more));
  }
}
