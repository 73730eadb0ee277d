/** The controller side of ipcache replication as a transition system.

    One value of type `Server` is the shared state of the service together with the
    local variables and the position of the `syncControl` goroutine. Every label is one
    atomic block of one goroutine: a locked section, one channel operation, or one
    update of state that only `syncControl` touches. `Run` folds any list of labels, so a
    statement about `Run` is a statement about every interleaving. A label that is not
    enabled leaves the state alone. */
module Controller {
  import opened ChangeLog
  import opened Options

  datatype Phase = Stale | UpToDate | Blocking

  /** How a WatchCache call ends, as the caller sees it. */
  datatype Code = Ok | DataLoss | InvalidArgument | Unavailable

  /** The goroutine serving one WatchCache call: running, about to mark its client
      closed after a failed send, or returned. */
  datatype Stream = Open | Broken | Ended(code: Code)

  /** One watcher. `ch` is the buffered channel, `listed` says whether the client is
      still in the service's list, `delivered` is everything its stream has sent. */
  datatype Client = Client(
    requested: nat,
    revision: nat,
    closed: bool,
    phase: Phase,
    ch: seq<Change>,
    chClosed: bool,
    listed: bool,
    delivered: seq<Change>,
    stream: Stream)

  /** Where `syncControl` stands. */
  datatype Pc =
    | Idle
    | Appended(cl: Change)      // entry appended to the log, retention not yet checked
    | SlowClosed(cl: Change)    // slow clients closed, log not yet compacted
    | Compacted(cl: Change)     // ready to queue the entry for up-to-date clients
    | Flushing(todo: seq<nat>, k: nat, tick: bool)
    | TickFlushed               // pending entries flushed, lagging clients not yet served
    | Syncing(todo: seq<nat>, cur: Option<nat>, mark: nat)
    | TickSynced(mark: nat)     // lagging clients served, log not yet compacted
    | Panicked

  datatype Server = Server(
    history: seq<Change>,       // every change ever given a revision
    counter: nat,               // storage.revision
    inflight: Option<Change>,   // numbered, not yet accepted by logChan
    logChan: seq<Change>,
    snapRev: nat,
    snap: Table,
    log: seq<Change>,
    clients: seq<Client>,       // every client ever registered, in order
    pending: seq<Change>,
    maxSynced: nat,
    pc: Pc)
  {
    /** The number of changes `syncControl` has taken from the channel. */
    function Drained(): nat { snapRev + |log| }

    /** `clients[id]` replaced by `c`. */
    function Put(id: nat, c: Client): Server
      requires id < |clients|
    {
      this.(clients := clients[id := c])
    }
  }

  datatype Label =
    | Assign(op: Op, entry: Entry)   // logChange numbers one entry
    | Push                           // and hands it to logChan
    | Register(requested: nat)       // WatchCache enters its client in the list
    | Take(id: nat)                  // a stream takes an entry and sends it
    | TakeFail(id: nat)              // a stream takes an entry and fails to send it
    | MarkClosed(id: nat)            // a stream ends and marks its client closed
    | Finish(id: nat)                // a stream finds its channel closed and empty
    | Drain                          // syncControl takes an entry from logChan
    | Tick                           // syncControl's ticker fires
    | Advance                        // syncControl moves on inside the current case

  const INITIAL := Server([], 0, None, [], 0, map[], [], [], [], 0, Idle)

  // ---------------------------------------------------------------- other goroutines

  /** logChange is only ever given Set and Del of pod and node entries. */
  predicate Loggable(op: Op, entry: Entry) {
    op != Invalid && entry.meta != Unknown
  }

  function DoAssign(s: Server, op: Op, entry: Entry): Server {
    if s.inflight.None? && Loggable(op, entry) then
      var c := Change(s.counter + 1, op, entry);
      s.(history := s.history + [c], counter := s.counter + 1, inflight := Some(c))
    else s
  }

  function DoPush(s: Server): Server {
    if s.inflight.Some? && |s.logChan| < LOG_BUFFER_SIZE then
      s.(logChan := s.logChan + [s.inflight.value], inflight := None)
    else s
  }

  function NewClient(requested: nat): Client {
    Client(requested, requested, false, Stale, [], false, true, [], Open)
  }

  function DoRegister(s: Server, requested: nat): Server {
    if requested < s.snapRev then s else s.(clients := s.clients + [NewClient(requested)])
  }

  function DoTake(s: Server, id: nat): Server {
    if id < |s.clients| && s.clients[id].stream.Open? && s.clients[id].ch != [] then
      var c := s.clients[id];
      s.Put(id, c.(ch := c.ch[1..], delivered := c.delivered + [c.ch[0]]))
    else s
  }

  function DoTakeFail(s: Server, id: nat): Server {
    if id < |s.clients| && s.clients[id].stream.Open? && s.clients[id].ch != [] then
      var c := s.clients[id];
      s.Put(id, c.(ch := c.ch[1..], stream := Broken))
    else s
  }

  function DoMarkClosed(s: Server, id: nat): Server {
    if id < |s.clients| && !s.clients[id].stream.Ended? then
      s.Put(id, s.clients[id].(closed := true, stream := Ended(Ok)))
    else s
  }

  function DoFinish(s: Server, id: nat): Server {
    if id < |s.clients| && s.clients[id].stream.Open? && s.clients[id].ch == [] && s.clients[id].chClosed then
      s.Put(id, s.clients[id].(stream := Ended(DataLoss)))
    else s
  }

  // ------------------------------------------------- locked sections of syncControl

  predicate Active(c: Client) { c.listed && !c.closed }

  predicate HasActive(cs: seq<Client>) { exists id :: 0 <= id < |cs| && Active(cs[id]) }

  /** The lowest revision among `start` and the revisions of active clients. */
  function MinRevision(cs: seq<Client>, start: nat): (m: nat)
    ensures m <= start
    ensures forall id :: 0 <= id < |cs| && Active(cs[id]) ==> m <= cs[id].revision
    ensures m == start || exists id :: 0 <= id < |cs| && Active(cs[id]) && m == cs[id].revision
  {
    if cs == [] then start
    else
      var n := |cs| - 1;
      var rest := MinRevision(cs[..n], start);
      assert forall id :: 0 <= id < n ==> cs[..n][id] == cs[id];
      if Active(cs[n]) && cs[n].revision < rest then cs[n].revision else rest
  }

  /** How many leading log entries are at or below `m`. */
  function FoldCount(log: seq<Change>, m: nat): (k: nat)
    ensures k <= |log|
    ensures forall i :: 0 <= i < k ==> log[i].revision <= m
    ensures k < |log| ==> log[k].revision > m
  {
    if log == [] || log[0].revision > m then 0
    else
      assert forall i :: 1 <= i < |log| ==> log[i] == log[1..][i - 1];
      1 + FoldCount(log[1..], m)
  }

  function Compact(s: Server): Server {
    var m := MinRevision(s.clients, s.counter);
    if s.log == [] || (!HasActive(s.clients) && m == s.snapRev) then s
    else
      var k := FoldCount(s.log, m);
      s.(snap := Replay(s.snap, s.log[..k]),
         snapRev := if k > 0 then s.log[k - 1].revision else s.snapRev,
         log := s.log[k..])
  }

  predicate Slow(c: Client) {
    Active(c) && c.phase == Blocking && |c.ch| >= CLIENT_BUFFER_SIZE
  }

  function CloseSlow(cs: seq<Client>): (r: seq<Client>)
    ensures |r| == |cs|
    ensures forall id :: 0 <= id < |cs| ==> r[id] == if Slow(cs[id]) then cs[id].(closed := true) else cs[id]
  {
    seq(|cs|, id requires 0 <= id < |cs| => if Slow(cs[id]) then cs[id].(closed := true) else cs[id])
  }

  /** A listed client that has been closed leaves the list and its channel is closed. */
  predicate Reapable(c: Client) { c.listed && c.closed }

  function Reap(cs: seq<Client>): (r: seq<Client>)
    ensures |r| == |cs|
    ensures forall id :: 0 <= id < |cs| ==>
                           r[id] == if Reapable(cs[id]) then cs[id].(listed := false, chClosed := true) else cs[id]
  {
    seq(|cs|, id requires 0 <= id < |cs| =>
      if Reapable(cs[id]) then cs[id].(listed := false, chClosed := true) else cs[id])
  }

  /** Closing a closed channel is a panic. */
  predicate DoubleClose(cs: seq<Client>) {
    exists id :: 0 <= id < |cs| && Reapable(cs[id]) && cs[id].chClosed
  }

  /** The ids of active clients in one of the given phases, in list order. */
  function Select(cs: seq<Client>, phases: set<Phase>): (ids: seq<nat>)
    ensures forall j :: 0 <= j < |ids| ==> ids[j] < |cs| && Active(cs[ids[j]]) && cs[ids[j]].phase in phases
    ensures forall i, j :: 0 <= i < j < |ids| ==> ids[i] < ids[j]
    ensures forall id: nat :: id < |cs| && Active(cs[id]) && cs[id].phase in phases ==> id in ids
  {
    if cs == [] then []
    else
      var n := |cs| - 1;
      var front := Select(cs[..n], phases);
      assert forall id :: 0 <= id < n ==> cs[..n][id] == cs[id];
      if Active(cs[n]) && cs[n].phase in phases then front + [n] else front
  }

  function BeginFlush(s: Server, tick: bool): Server {
    if DoubleClose(s.clients) then s.(pc := Panicked)
    else s.(clients := Reap(s.clients), pc := Flushing(Select(s.clients, {UpToDate}), 0, tick))
  }

  function BeginSync(s: Server): Server {
    if DoubleClose(s.clients) then s.(pc := Panicked)
    else s.(clients := Reap(s.clients), pc := Syncing(Select(s.clients, {Stale, Blocking}), None, |s.clients|))
  }

  // ------------------------------------------------------------ channel operations

  /** One non-blocking send of `cl` to client `c`, when there is room. */
  function Sent(c: Client, cl: Change): Client {
    c.(ch := c.ch + [cl], revision := cl.revision)
  }

  predicate HasRoom(c: Client) { |c.ch| < CLIENT_BUFFER_SIZE }

  function FlushOne(s: Server): Server
    requires s.pc.Flushing?
  {
    var Flushing(todo, k, tick) := s.pc;
    if todo == [] then
      if s.pending == [] then s.(pc := Panicked)
      else s.(maxSynced := s.pending[|s.pending| - 1].revision, pending := [],
              pc := if tick then TickFlushed else Idle)
    else if todo[0] >= |s.clients| then s.(pc := Panicked)
    else
      var c := s.clients[todo[0]];
      if k == 0 && c.revision != s.maxSynced then s.(pc := Panicked)
      else if k >= |s.pending| then
        s.Put(todo[0], c.(phase := UpToDate)).(pc := Flushing(todo[1..], 0, tick))
      else if c.chClosed then s.(pc := Panicked)
      else if HasRoom(c) then
        s.Put(todo[0], Sent(c, s.pending[k])).(pc := Flushing(todo, k + 1, tick))
      else s.Put(todo[0], c.(phase := Blocking)).(pc := Flushing(todo[1..], 0, tick))
  }

  function SyncOne(s: Server): Server
    requires s.pc.Syncing?
  {
    var Syncing(todo, cur, mark) := s.pc;
    if todo == [] then s.(pc := TickSynced(mark))
    else if todo[0] >= |s.clients| then s.(pc := Panicked)
    else
      var c := s.clients[todo[0]];
      match cur
      case None =>
        var next := NextIndex(s.log, c.revision);
        if next == -1 then s.(pc := Syncing(todo[1..], None, mark))
        else s.(pc := Syncing(todo, Some(next), mark))
      case Some(pos) =>
        if pos >= |s.log| then s.(pc := Syncing(todo[1..], None, mark))
        else if c.chClosed then s.(pc := Panicked)
        else if HasRoom(c) then
          var c' := Sent(c, s.log[pos]);
          if c'.revision == s.maxSynced then
            s.Put(todo[0], c'.(phase := UpToDate)).(pc := Syncing(todo[1..], None, mark))
          else if c'.revision > s.maxSynced then
            s.Put(todo[0], c'.(phase := Stale)).(pc := Syncing(todo[1..], None, mark))
          else s.Put(todo[0], c').(pc := Syncing(todo, Some(pos + 1), mark))
        else s.Put(todo[0], c.(phase := Blocking)).(pc := Syncing(todo[1..], None, mark))
  }

  // -------------------------------------------------------------------- syncControl

  function DoDrain(s: Server): Server {
    if s.pc.Idle? && s.logChan != [] then
      s.(logChan := s.logChan[1..], log := s.log + [s.logChan[0]], pc := Appended(s.logChan[0]))
    else s
  }

  function DoTick(s: Server): Server {
    if !s.pc.Idle? then s
    else if s.pending != [] then BeginFlush(s, true)
    else s.(pc := TickFlushed)
  }

  function DoAdvance(s: Server): Server {
    match s.pc
    case Idle => s
    case Panicked => s
    case Appended(cl) =>
      if |s.log| > MAX_RETAINED_LOG_ENTRIES then s.(clients := CloseSlow(s.clients), pc := SlowClosed(cl))
      else if |s.log| > COMPACT_THRESHOLD then Compact(s).(pc := Compacted(cl))
      else s.(pc := Compacted(cl))
    case SlowClosed(cl) => Compact(s).(pc := Compacted(cl))
    case Compacted(cl) =>
      var s' := s.(pending := s.pending + [cl]);
      if |s'.pending| > MAX_SYNC_BATCH_SIZE then BeginFlush(s', false) else s'.(pc := Idle)
    case Flushing(_, _, _) => FlushOne(s)
    case TickFlushed => BeginSync(s)
    case Syncing(_, _, _) => SyncOne(s)
    case TickSynced(_) => Compact(s).(pc := Idle)
  }

  function Step(s: Server, l: Label): Server {
    match l
    case Assign(op, entry) => DoAssign(s, op, entry)
    case Push => DoPush(s)
    case Register(requested) => DoRegister(s, requested)
    case Take(id) => DoTake(s, id)
    case TakeFail(id) => DoTakeFail(s, id)
    case MarkClosed(id) => DoMarkClosed(s, id)
    case Finish(id) => DoFinish(s, id)
    case Drain => DoDrain(s)
    case Tick => DoTick(s)
    case Advance => DoAdvance(s)
  }

  function Run(s: Server, ls: seq<Label>): Server {
    if ls == [] then s else Step(Run(s, ls[..|ls| - 1]), ls[|ls| - 1])
  }

  lemma {:induction false} RunConcat(s: Server, a: seq<Label>, b: seq<Label>)
    ensures Run(s, a + b) == Run(Run(s, a), b)
  {
    if b == [] {
      assert a + b == a;
    } else {
      assert (a + b)[..|a + b| - 1] == a + b[..|b| - 1];
      RunConcat(s, a, b[..|b| - 1]);
    }
  }
}
