/** Controller, agent and the network between them. One agent is followed; every other
    watcher is one of the arbitrary registrations the controller already allows. */
module Replication {
  import opened ChangeLog
  import opened Controller
  import opened ControllerInvariant
  import opened ControllerTheorems
  import opened Options
  import opened Replica

  /** The agent's loop: about to connect, about to send its watch request, reading its
      stream (`wire` is what has been sent and not yet read; `id` is the controller's
      record of the stream, gone once the controller has restarted), or dead of a nil
      dereference. */
  datatype Conn =
    | Reconnecting(relist: bool)
    | Requesting(relist: bool)
    | Watching(id: Option<nat>, wire: seq<Change>)
    | Crashed

  /** Period 0 is the empty period of a cache that was never filled. */
  datatype Agent = Agent(period: nat, revision: nat, entries: Cache, conn: Conn)

  /** `past[p - 1]` is the history of the controller's finished period `p`. */
  datatype System = System(past: seq<seq<Change>>, server: Server, agent: Agent) {
    function Period(): nat { |past| + 1 }

    function History(p: nat): seq<Change> {
      if 1 <= p <= |past| then past[p - 1] else if p == Period() then server.history else []
    }
  }

  datatype SysLabel =
    | Serve(l: Label)                  // any step inside the controller
    | Restart                          // the controller comes back with a new period
    | ListCache(entries: seq<Entry>)   // the agent lists, in the order of the reply
    | SkipList                         // the agent keeps its cache and goes on to watch
    | Watch                            // the watch request reaches the controller
    | WatchFails                       // the request is lost
    | Receive                          // the agent reads and applies one response
    | StreamFails(code: Code)          // the agent's read fails

  const START := System([], INITIAL, Agent(0, 0, map[], Reconnecting(false)))

  predicate NeedsRelist(code: Code) { code == DataLoss || code == InvalidArgument }

  ghost function DoServe(s: System, l: Label): System {
    var s' := s.(server := Step(s.server, l));
    match s.agent.conn
    case Watching(Some(id), wire) =>
      if l == Take(id) && id < |s.server.clients| && s.server.clients[id].stream.Open? && s.server.clients[id].ch != []
      then s'.(agent := s.agent.(conn := Watching(Some(id), wire + [s.server.clients[id].ch[0]])))
      else s'
    case _ => s'
  }

  ghost function DoRestart(s: System): System {
    System(s.past + [s.server.history], INITIAL,
           if s.agent.conn.Watching? then s.agent.(conn := Watching(None, s.agent.conn.wire)) else s.agent)
  }

  /** The agent after connecting: with a fresh listing if it needs one. */
  function Connected(a: Agent, period: nat, revision: nat, entries: seq<Entry>): Agent
    requires a.conn.Reconnecting?
  {
    if a.conn.relist || a.period == 0 then Agent(period, revision, FromInfos(ToInfos(entries)), Requesting(true))
    else a.(conn := Requesting(false))
  }

  /** The agent after reading one response. A response without an owner kills it, unless its
      opcode is one that never looks at the owner. */
  function Received(a: Agent): Agent
    requires a.conn.Watching? && a.conn.wire != []
  {
    var c := a.conn.wire[0];
    match ToInfo(c.entry)
    case None =>
      if c.op == Invalid then a.(revision := c.revision, conn := Watching(a.conn.id, a.conn.wire[1..]))
      else a.(conn := Crashed)
    case Some(info) =>
      a.(revision := c.revision, entries := ApplyInfo(a.entries, c.op, info), conn := Watching(a.conn.id, a.conn.wire[1..]))
  }

  ghost function DoList(s: System, entries: seq<Entry>): System {
    if s.agent.conn.Reconnecting? && (s.agent.conn.relist || s.agent.period == 0) && Lists(entries, s.server.snap) then
      s.(agent := Connected(s.agent, s.Period(), s.server.snapRev, entries))
    else s
  }

  ghost function DoSkipList(s: System): System {
    if s.agent.conn.Reconnecting? && !s.agent.conn.relist && s.agent.period != 0 then
      s.(agent := Connected(s.agent, 0, 0, []))
    else s
  }

  /** A request for another period, or for a revision below the snapshot, is answered with
      a code that makes the agent list again. */
  ghost function DoWatch(s: System): System {
    if !s.agent.conn.Requesting? then s
    else if s.agent.period != s.Period() then
      s.(agent := s.agent.(conn := Reconnecting(NeedsRelist(InvalidArgument))))
    else if s.agent.revision < s.server.snapRev then
      s.(agent := s.agent.(conn := Reconnecting(NeedsRelist(DataLoss))))
    else
      s.(server := DoRegister(s.server, s.agent.revision),
         agent := s.agent.(conn := Watching(Some(|s.server.clients|), [])))
  }

  ghost function DoReceive(s: System): System {
    if s.agent.conn.Watching? && s.agent.conn.wire != [] then s.(agent := Received(s.agent))
    else s
  }

  ghost function SysStep(s: System, l: SysLabel): System {
    match l
    case Serve(sl) => DoServe(s, sl)
    case Restart => DoRestart(s)
    case ListCache(entries) => DoList(s, entries)
    case SkipList => DoSkipList(s)
    case Watch => DoWatch(s)
    case WatchFails =>
      if s.agent.conn.Requesting? then s.(agent := s.agent.(conn := Reconnecting(s.agent.conn.relist))) else s
    case Receive => DoReceive(s)
    case StreamFails(code) =>
      if s.agent.conn.Watching? then s.(agent := s.agent.(conn := Reconnecting(NeedsRelist(code)))) else s
  }

  ghost function SysRun(ls: seq<SysLabel>): System {
    if ls == [] then START else SysStep(SysRun(ls[..|ls| - 1]), ls[|ls| - 1])
  }

  // -------------------------------------------------------------------- invariant

  ghost predicate AllLoggable(h: seq<Change>) {
    forall i :: 0 <= i < |h| ==> Loggable(h[i].op, h[i].entry)
  }

  ghost predicate PastOk(past: seq<seq<Change>>) {
    forall p :: 0 <= p < |past| ==> Numbered(past[p]) && AllLoggable(past[p])
  }

  /** The agent's cache against the history of the period it belongs to. */
  ghost predicate CacheOk(h: seq<Change>, a: Agent) {
    && a.revision <= |h|
    && a.entries == Present(Replay(map[], h[..a.revision]))
    && (a.conn.Watching? ==> Segment(h, a.revision, a.conn.wire))
  }

  /** The stream the agent reads, as the controller sees it. */
  ghost predicate StreamOk(server: Server, a: Agent)
    requires a.conn.Watching? && a.conn.id.Some?
  {
    var id := a.conn.id.value;
    && id < |server.clients|
    && server.clients[id].requested + |server.clients[id].delivered| == a.revision + |a.conn.wire|
  }

  ghost predicate AgentOk(s: System) {
    var a := s.agent;
    && a.period <= s.Period()
    && !a.conn.Crashed?
    && (a.period == 0 ==> a.revision == 0 && a.entries == map[] && a.conn.Reconnecting?)
    && (a.period > 0 ==> CacheOk(s.History(a.period), a))
    && (a.period == s.Period() ==> a.revision + (if a.conn.Watching? then |a.conn.wire| else 0) <= s.server.Drained())
    && (a.conn.Watching? && a.conn.id.Some? ==> a.period == s.Period() && StreamOk(s.server, a))
  }

  ghost predicate SysInv(s: System) {
    Inv(s.server) && AllLoggable(s.server.history) && PastOk(s.past) && AgentOk(s)
  }

  lemma CacheGrows(h: seq<Change>, h': seq<Change>, a: Agent)
    requires CacheOk(h, a) && h <= h'
    ensures CacheOk(h', a)
  {
    assert h'[..a.revision] == h[..a.revision];
    if a.conn.Watching? && a.conn.wire != [] {
      assert h'[a.revision..a.revision + |a.conn.wire|] == h[a.revision..a.revision + |a.conn.wire|];
    }
  }

  /** A controller step only ever extends the history, and by one loggable change. */
  lemma HistoryGrows(s: Server, l: Label)
    requires Inv(s) && AllLoggable(s.history)
    ensures s.history <= Step(s, l).history && AllLoggable(Step(s, l).history)
    ensures s.Drained() <= Step(s, l).Drained()
  {
    hide ClientOk, Replay;
    if l.Advance? {
      AdvanceHistory(s);
    }
  }

  lemma FlushHistory(s: Server)
    requires s.pc.Flushing?
    ensures FlushOne(s).history == s.history && FlushOne(s).Drained() == s.Drained()
  {}

  lemma SyncHistory(s: Server)
    requires s.pc.Syncing?
    ensures SyncOne(s).history == s.history && SyncOne(s).Drained() == s.Drained()
  {
    hide NextIndex;
  }

  lemma AdvanceHistory(s: Server)
    requires Inv(s)
    ensures DoAdvance(s).history == s.history && DoAdvance(s).Drained() == s.Drained()
  {
    hide ClientOk, Replay, Segment, FlushOne, SyncOne, PcOk, UpToDateOk, Compact;
    if InDrain(s.pc) || s.pc.TickSynced? {
      CompactMeaning(s);
    } else if s.pc.Flushing? {
      FlushHistory(s);
    } else if s.pc.Syncing? {
      SyncHistory(s);
    }
  }

  lemma ServeKeeps(s: System, l: Label)
    requires SysInv(s)
    ensures SysInv(DoServe(s, l))
  {
    hide Inv, Step, Replay, CacheOk;
    var a := s.agent;
    var s' := DoServe(s, l);
    StepKeeps(s.server, l);
    HistoryGrows(s.server, l);
    if a.conn.Watching? && a.conn.id.Some? {
      WatchingServeKeeps(s, l);
    } else if a.period > 0 {
      assert s'.agent == a;
      if a.period == s.Period() {
        CacheGrows(s.server.history, s'.server.history, a);
      }
    }
  }

  lemma WatchingServeKeeps(s: System, l: Label)
    requires SysInv(s) && s.agent.conn.Watching? && s.agent.conn.id.Some?
    ensures AgentOk(DoServe(s, l))
  {
    hide Inv, Step, Replay;
    var a, s' := s.agent, DoServe(s, l);
    var id := a.conn.id.value;
    HistoryGrows(s.server, l);
    StepOnClient(s.server, l, id);
    CacheGrows(s.server.history, s'.server.history, a);
    if s'.agent != a {
      TakenIsNext(s.server, id);
      CacheGrows(s.server.history, s'.server.history, a);
      SegmentAppend(s'.server.history, a.revision, a.conn.wire);
    }
  }

  /** What a stream takes from its channel is the change after everything delivered. */
  lemma TakenIsNext(s: Server, id: nat)
    requires Inv(s) && id < |s.clients| && s.clients[id].stream.Open? && s.clients[id].ch != []
    ensures var c := s.clients[id];
            && c.requested + |c.delivered| < s.Drained() <= |s.history|
            && c.ch[0] == s.history[c.requested + |c.delivered|]
  {
    hide Replay;
    var c := s.clients[id];
    assert ClientOk(s.history, s.Drained(), c);
    SegmentAt(s.history, c.revision - |c.ch|, c.ch, 0);
  }

  lemma RestartKeeps(s: System)
    requires SysInv(s)
    ensures SysInv(DoRestart(s))
  {
    hide Replay, Segment, ClientOk;
    var s' := DoRestart(s);
    RunKeeps([]);
    assert s'.server == Run(INITIAL, []);
    assert s.agent.period > 0 ==> s'.History(s.agent.period) == s.History(s.agent.period);
  }

  lemma ListKeeps(s: System, entries: seq<Entry>)
    requires SysInv(s)
    ensures SysInv(DoList(s, entries))
  {
    hide Segment, ClientOk;
    if DoList(s, entries) != s {
      ReplayKeys(s.server.history[..s.server.snapRev]);
      ListRoundTrip(entries, s.server.snap);
    }
  }

  lemma WatchKeeps(s: System)
    requires SysInv(s)
    ensures SysInv(DoWatch(s))
  {
    hide Inv, Replay;
    if s.agent.conn.Requesting? && s.agent.period == s.Period() && s.agent.revision >= s.server.snapRev {
      RegisterKeeps(s.server, s.agent.revision);
    }
  }

  /** Reading the next change of the history moves the cache on by exactly that change. */
  lemma ReceivedNext(h: seq<Change>, a: Agent)
    requires Numbered(h) && AllLoggable(h) && CacheOk(h, a) && a.conn.Watching? && a.conn.wire != []
    ensures var a' := Received(a);
            && CacheOk(h, a') && a'.period == a.period && a'.revision == a.revision + 1
            && a'.conn == Watching(a.conn.id, a.conn.wire[1..])
  {
    hide Replay, Present;
    var c := a.conn.wire[0];
    SegmentAt(h, a.revision, a.conn.wire, 0);
    SegmentDrop(h, a.revision, a.conn.wire, 1);
    hide Segment;
    assert h[..a.revision + 1] == h[..a.revision] + [c];
    ReplayOne(map[], h[..a.revision], c);
    ApplyPresent(Replay(map[], h[..a.revision]), c);
  }

  lemma ReceiveKeeps(s: System)
    requires SysInv(s)
    ensures SysInv(DoReceive(s))
  {
    hide Inv, CacheOk, Received, Replay;
    var a := s.agent;
    if a.conn.Watching? && a.conn.wire != [] {
      CurrentNumbered(s.server);
      ReceivedNext(s.History(a.period), a);
    }
  }

  lemma CurrentNumbered(s: Server)
    requires Inv(s)
    ensures Numbered(s.history)
  {}

  lemma SysStepKeeps(s: System, l: SysLabel)
    requires SysInv(s)
    ensures SysInv(SysStep(s, l))
  {
    hide Inv, Replay;
    match l
    case Serve(sl) => ServeKeeps(s, sl);
    case Restart => RestartKeeps(s);
    case ListCache(entries) => ListKeeps(s, entries);
    case SkipList =>
    case Watch => WatchKeeps(s);
    case WatchFails =>
    case Receive => ReceiveKeeps(s);
    case StreamFails(_) =>
  }

  lemma {:induction false} SysRunKeeps(ls: seq<SysLabel>)
    ensures SysInv(SysRun(ls))
  {
    if ls == [] {
      RunKeeps([]);
      assert START.server == Run(INITIAL, []);
    } else {
      SysRunKeeps(ls[..|ls| - 1]);
      SysStepKeeps(SysRun(ls[..|ls| - 1]), ls[|ls| - 1]);
    }
  }

  // ---------------------------------------------------------------------- theorems

  /** Replica agreement: after any interleaving of changes, compactions, slow-client
      closes, disconnects, relists and controller restarts, what the agent holds is what
      replaying the history of its period up to its revision gives. */
  lemma ReplicaAgreement(ls: seq<SysLabel>)
    ensures var s := SysRun(ls);
            && s.agent.period <= s.Period()
            && s.agent.revision <= |s.History(s.agent.period)|
            && s.agent.entries == Present(Replay(map[], s.History(s.agent.period)[..s.agent.revision]))
  {
    SysRunKeeps(ls);
  }

  /** The agent's nil dereference and the controller's panics are both unreachable. */
  lemma NobodyCrashes(ls: seq<SysLabel>)
    ensures !SysRun(ls).agent.conn.Crashed? && !SysRun(ls).server.pc.Panicked?
  {
    SysRunKeeps(ls);
  }

  /** Responses are applied one revision at a time, so within a stream the replica only
      moves forward and skips nothing. */
  lemma ReceiveAdvancesByOne(ls: seq<SysLabel>)
    requires SysRun(ls).agent.conn.Watching? && SysRun(ls).agent.conn.wire != []
    ensures var a, a' := SysRun(ls).agent, SysRun(ls + [Receive]).agent;
            a'.period == a.period && a'.revision == a.revision + 1
  {
    hide Inv, Replay, CacheOk, Received;
    SysRunKeeps(ls);
    var s := SysRun(ls);
    assert (ls + [Receive])[..|ls|] == ls;
    CurrentNumbered(s.server);
    ReceivedNext(s.History(s.agent.period), s.agent);
  }

  lemma ServedByTick(s: Server, id: nat)
    requires Inv(s) && s.pc.TickSynced? && id < s.pc.mark && id < |s.clients|
    ensures var c := s.clients[id];
            && (Active(c) && c.requested <= s.Drained() ==> c.revision == s.Drained() || c.phase == Blocking)
            && (c.stream.Open? ==> c.requested + |c.delivered| + |c.ch| == c.revision)
            && s.Drained() + |s.logChan| + (if s.inflight.Some? then 1 else 0) == |s.history|
  {
    hide Replay, Segment;
    assert ClientOk(s.history, s.Drained(), s.clients[id]);
    assert CaughtUp(s.clients[id], s.Drained());
  }

  /** An agent that has read everything from its stream by the end of a tick, and is not
      blocked, holds everything the controller has logged; if the controller also has no
      change left to log, it holds the whole history. */
  lemma TickConvergence(ls: seq<SysLabel>, id: nat)
    requires var s := SysRun(ls);
             && s.server.pc.TickSynced? && id < s.server.pc.mark
             && s.agent.conn == Watching(Some(id), [])
             && id < |s.server.clients| && Active(s.server.clients[id]) && s.server.clients[id].stream.Open?
             && s.server.clients[id].phase != Blocking && s.server.clients[id].ch == []
    ensures var s := SysRun(ls);
            && s.agent.revision == s.server.Drained()
            && (s.server.logChan == [] && s.server.inflight.None? ==>
                  s.agent.entries == Present(Replay(map[], s.server.history)))
  {
    hide Replay, Segment, SysRun, Inv;
    SysRunKeeps(ls);
    var s := SysRun(ls);
    ServedByTick(s.server, id);
    assert s.server.history[..|s.server.history|] == s.server.history;
  }

  // ------------------------------------------------------------------------- the agent

  /** syncIPCache as an object: the process-wide cache and the state of the stream. */
  class AgentLoop {
    const holder: CacheHolder
    var conn: Conn

    ghost function View(): Agent
      reads this, holder
    {
      Agent(holder.period, holder.revision, holder.entries, conn)
    }

    constructor ()
      ensures View() == START.agent && fresh(holder)
    {
      holder := new CacheHolder();
      conn := Reconnecting(false);
    }

    /** One attempt of reconn up to the watch request it sends. The arguments are the reply a
        listing would get; `request` is what the agent asks to watch. */
    method Reconn(period: nat, revision: nat, entries: seq<Entry>) returns (request: (nat, nat))
      requires conn.Reconnecting?
      modifies this, holder
      ensures View() == Connected(old(View()), period, revision, entries)
      ensures request == (holder.period, holder.revision)
    {
      var relist := conn.relist;
      if holder.period == 0 {
        relist := true;
      }
      if relist {
        var infos := [];
        for i := 0 to |entries|
          invariant infos == ToInfos(entries[..i])
        {
          assert entries[..i + 1][..i] == entries[..i];
          var info := ToInfo(entries[i]);
          if info.Some? {
            infos := infos + [info.value];
          }
        }
        assert entries[..|entries|] == entries;
        holder.UpdateIPCache(period, revision, infos);
      }
      conn := Requesting(relist);
      request := (holder.period, holder.revision);
    }

    method OnResponse()
      requires conn.Watching? && conn.wire != []
      modifies this, holder
      ensures View() == Received(old(View()))
    {
      var c := conn.wire[0];
      var info := ToInfo(c.entry);
      if info.None? && c.op != Invalid {
        conn := Crashed;
        return;
      }
      conn := Watching(conn.id, conn.wire[1..]);
      if info.None? {
        holder.revision := c.revision;
      } else {
        holder.ApplyIPCacheChange(c.revision, c.op, info.value);
      }
    }

    method OnError(code: Code)
      requires conn.Watching?
      modifies this
      ensures View() == old(View()).(conn := Reconnecting(NeedsRelist(code)))
    {
      if code == DataLoss || code == InvalidArgument {
        conn := Reconnecting(true);
      } else {
        conn := Reconnecting(false);
      }
    }
  }
}
