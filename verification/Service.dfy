/** The ipcache service in the source's own form: an object whose fields the goroutines
    update in place. `trace` records the steps taken, and `Valid` says that the fields are
    what the transition system reaches by those steps, so every theorem about runs is a
    theorem about this code. What the other goroutines do between two atomic blocks of
    `syncControl` is read off `schedule`, an arbitrary list. */
module Service {
  import opened ChangeLog
  import opened Controller
  import opened ControllerInvariant
  import opened Options
  import opened Replica

  /** Steps of goroutines other than `syncControl`. */
  predicate IsOther(l: Label) { !l.Drain? && !l.Tick? && !l.Advance? }

  lemma RunStep(ls: seq<Label>, l: Label)
    ensures Run(INITIAL, ls + [l]) == Step(Run(INITIAL, ls), l)
  {
    assert (ls + [l])[..|ls|] == ls;
  }

  /** The snapshot a run leaves is the replay of the history to its revision. */
  lemma SnapshotIsReplay(ls: seq<Label>)
    ensures var s := Run(INITIAL, ls);
            s.snapRev <= |s.history| && s.snap == Replay(map[], s.history[..s.snapRev]) && Keyed(s.snap)
  {
    hide Run, Segment, ClientOk;
    RunKeeps(ls);
    ReplayKeys(Run(INITIAL, ls).history[..Run(INITIAL, ls).snapRev]);
  }

  /** Entries as logChange numbers them. */
  function NumberedFrom(first: nat, op: Op, entries: seq<Entry>): (cs: seq<Change>)
    ensures |cs| == |entries| && forall i :: 0 <= i < |cs| ==> cs[i] == Change(first + i, op, entries[i])
  {
    seq(|entries|, i requires 0 <= i < |entries| => Change(first + i, op, entries[i]))
  }

  lemma NumberedFromStep(first: nat, op: Op, entries: seq<Entry>, e: Entry)
    ensures NumberedFrom(first, op, entries + [e]) == NumberedFrom(first, op, entries) + [Change(first + |entries|, op, e)]
  {}

  /** Which of the first `n` clients back-pressure would close. */
  function SlowOnes(cs: seq<Client>, n: nat): set<nat>
    requires n <= |cs|
  {
    set id: nat | id < n && Slow(cs[id])
  }

  lemma SlowStep(cs: seq<Client>, i: nat)
    requires i < |cs|
    ensures |SlowOnes(cs, i + 1)| == |SlowOnes(cs, i)| + (if Slow(cs[i]) then 1 else 0)
  {
    assert SlowOnes(cs, i + 1) == if Slow(cs[i]) then SlowOnes(cs, i) + {i} else SlowOnes(cs, i);
  }

  class Service {
    const period: nat
    var revision: nat
    var inflight: Option<Change>
    var logChan: seq<Change>
    var snapRev: nat
    var snap: Table
    var log: seq<Change>
    var clients: seq<Client>
    var pendingLogs: seq<Change>
    var maxSyncedRevision: nat
    var schedule: seq<seq<Label>>
    ghost var history: seq<Change>
    ghost var pc: Pc
    ghost var trace: seq<Label>

    ghost function View(): Server
      reads this
    {
      Server(history, revision, inflight, logChan, snapRev, snap, log, clients, pendingLogs, maxSyncedRevision, pc)
    }

    ghost predicate Valid()
      reads this
    {
      && View() == Run(INITIAL, trace)
      && forall i, j :: 0 <= i < |schedule| && 0 <= j < |schedule[i]| ==> IsOther(schedule[i][j])
    }

    constructor (period: nat, schedule: seq<seq<Label>>)
      requires forall i, j :: 0 <= i < |schedule| && 0 <= j < |schedule[i]| ==> IsOther(schedule[i][j])
      ensures Valid() && View() == INITIAL && this.period == period
    {
      this.period := period;
      revision, inflight, logChan := 0, None, [];
      snapRev, snap, log := 0, map[], [];
      clients, pendingLogs, maxSyncedRevision := [], [], 0;
      this.schedule := schedule;
      history, pc, trace := [], Idle, [];
    }

    // ------------------------------------------------------------ requests

    method ListCache() returns (period: nat, rev: nat, entries: seq<Entry>)
      requires Valid()
      ensures period == this.period && rev == snapRev && Lists(entries, snap)
      ensures rev <= |history| && FromInfos(ToInfos(entries)) == Present(Replay(map[], history[..rev]))
    {
      hide Run;
      SnapshotIsReplay(trace);
      entries := [];
      var rest := snap.Keys;
      while rest != {}
        invariant rest <= snap.Keys
        invariant forall e :: e in entries ==> e.ip in snap && snap[e.ip] == e
        invariant forall ip :: ip in snap && ip !in rest ==> snap[ip] in entries
        decreases rest
      {
        var ip :| ip in rest;
        entries := entries + [snap[ip]];
        rest := rest - {ip};
      }
      ListRoundTrip(entries, snap);
      period, rev := this.period, snapRev;
    }

    /** The part of WatchCache before its loop. */
    method OpenWatch(period: nat, requested: nat) returns (code: Code, id: nat)
      modifies this`clients
      ensures code == if period != this.period then InvalidArgument else if requested < snapRev then DataLoss else Ok
      ensures View() == if period == this.period then DoRegister(old(View()), requested) else old(View())
      ensures code == Ok ==> id == |old(clients)| && id < |clients| && clients[id] == NewClient(requested)
    {
      id := |clients|;
      if period != this.period {
        return InvalidArgument, id;
      }
      if requested < snapRev {
        return DataLoss, id;
      }
      clients := clients + [NewClient(requested)];
      code := Ok;
    }

    // ------------------------------------------------------------ locked sections

    /** The first loop of compactLog. */
    method MinOfClients() returns (minRevision: nat, hasActiveClient: bool)
      ensures minRevision == MinRevision(clients, revision)
      ensures hasActiveClient <==> HasActive(clients)
    {
      hide Run, View;
      minRevision := revision;
      hasActiveClient := false;
      for i := 0 to |clients|
        invariant minRevision == MinRevision(clients[..i], revision)
        invariant hasActiveClient <==> HasActive(clients[..i])
      {
        assert clients[..i + 1][..i] == clients[..i];
        var c := clients[i];
        if Active(c) {
          hasActiveClient := true;
          assert Active(clients[..i + 1][i]);
          if c.revision < minRevision {
            minRevision := c.revision;
          }
        }
      }
      assert clients[..|clients|] == clients;
    }

    /** The second loop of compactLog, and the shift of the log. */
    method FoldLog(minRevision: nat)
      modifies this`snap, this`snapRev, this`log
      ensures var k := FoldCount(old(log), minRevision);
              && snap == Replay(old(snap), old(log)[..k])
              && snapRev == (if k > 0 then old(log)[k - 1].revision else old(snapRev))
              && log == old(log)[k..]
    {
      hide Replay, Run, View;
      var compactTo, i := 0, 0;
      ReplayNone(snap);
      assert log[..0] == [];
      while i < |log| && log[i].revision <= minRevision
        invariant 0 <= i == compactTo <= |log|
        invariant forall j :: 0 <= j < i ==> log[j].revision <= minRevision
        invariant snap == Replay(old(snap), log[..i])
        invariant snapRev == if i > 0 then log[i - 1].revision else old(snapRev)
        invariant log == old(log)
      {
        ReplayOne(old(snap), log[..i], log[i]);
        assert log[..i + 1] == log[..i] + [log[i]];
        snap := Apply(snap, log[i]);
        snapRev := log[i].revision;
        compactTo := i + 1;
        i := i + 1;
      }
      FoldCountIs(log, minRevision, compactTo);
      log := log[compactTo..];
    }

    method CompactLog()
      modifies this`snap, this`snapRev, this`log
      ensures View() == Compact(old(View()))
    {
      hide Replay, Run;
      var minRevision, hasActiveClient := MinOfClients();
      if log == [] || (!hasActiveClient && minRevision == snapRev) {
        return;
      }
      FoldLog(minRevision);
    }

    method CopyClients(phases: set<Phase>) returns (ids: seq<nat>)
      requires !DoubleClose(clients)
      modifies this`clients
      ensures clients == Reap(old(clients))
      ensures ids == Select(old(clients), phases)
    {
      hide Run, View, Select;
      SelectNone(old(clients), phases);
      ids := [];
      var i, n := 0, |clients|;
      while i < n
        invariant 0 <= i <= n == |clients| == |old(clients)|
        invariant ids == Select(old(clients)[..i], phases)
        invariant forall j :: 0 <= j < i ==> clients[j] == Reap(old(clients))[j]
        invariant forall j :: i <= j < n ==> clients[j] == old(clients)[j]
      {
        SelectStep(old(clients), i, phases);
        var c := clients[i];
        if Reapable(c) {
          assert !c.chClosed;
          clients := clients[i := c.(listed := false, chClosed := true)];
        } else if Active(c) && c.phase in phases {
          ids := ids + [i];
        }
        i := i + 1;
      }
      assert old(clients)[..n] == old(clients);
    }

    method CloseBackpressuredClients() returns (closed: nat)
      modifies this`clients
      ensures clients == CloseSlow(old(clients))
      ensures closed == |SlowOnes(old(clients), |old(clients)|)|
      ensures closed == 0 <==> clients == old(clients)
    {
      hide Run, View;
      closed := 0;
      var i, n := 0, |clients|;
      while i < n
        invariant 0 <= i <= n == |clients| == |old(clients)|
        invariant forall j :: 0 <= j < i ==> clients[j] == CloseSlow(old(clients))[j]
        invariant forall j :: i <= j < n ==> clients[j] == old(clients)[j]
        invariant closed == |SlowOnes(old(clients), i)|
        invariant closed == 0 <==> clients == old(clients)
      {
        SlowStep(old(clients), i);
        var c := clients[i];
        if Slow(c) {
          clients := clients[i := c.(closed := true)];
          assert clients[i] != old(clients)[i];
          closed := closed + 1;
        }
        i := i + 1;
      }
    }

    // ------------------------------------------------------------ other goroutines

    /** One step of the goroutine that serves a stream. */
    method Watcher(l: Label)
      requires l.Take? || l.TakeFail? || l.MarkClosed? || l.Finish?
      modifies this`clients
      ensures View() == Step(old(View()), l) && |clients| == |old(clients)|
    {
      hide Run;
      match l {
        case Take(id) =>
          if id < |clients| && clients[id].stream.Open? && clients[id].ch != [] {
            var c := clients[id];
            clients := clients[id := c.(ch := c.ch[1..], delivered := c.delivered + [c.ch[0]])];
          }
        case TakeFail(id) =>
          if id < |clients| && clients[id].stream.Open? && clients[id].ch != [] {
            var c := clients[id];
            clients := clients[id := c.(ch := c.ch[1..], stream := Broken)];
          }
        case MarkClosed(id) =>
          if id < |clients| && !clients[id].stream.Ended? {
            clients := clients[id := clients[id].(closed := true, stream := Ended(Ok))];
          }
        case Finish(id) =>
          if id < |clients| && clients[id].stream.Open? && clients[id].ch == [] && clients[id].chClosed {
            clients := clients[id := clients[id].(stream := Ended(DataLoss))];
          }
      }
    }

    /** One step of another goroutine. */
    method Other(l: Label)
      requires Valid() && IsOther(l)
      modifies this`clients, this`revision, this`inflight, this`logChan, this`history, this`trace
      ensures Valid() && trace == old(trace) + [l] && |old(clients)| <= |clients|
      ensures View() == Step(old(View()), l)
    {
      hide Run;
      RunStep(trace, l);
      ghost var s := View();
      match l {
        case Assign(op, entry) =>
          if inflight.None? && Loggable(op, entry) {
            revision := revision + 1;
            inflight := Some(Change(revision, op, entry));
            history := history + [Change(revision, op, entry)];
          }
        case Push =>
          if inflight.Some? && |logChan| < LOG_BUFFER_SIZE {
            logChan := logChan + [inflight.value];
            inflight := None;
          }
        case Register(requested) =>
          var _, _ := OpenWatch(period, requested);
        case Take(_) => Watcher(l);
        case TakeFail(_) => Watcher(l);
        case MarkClosed(_) => Watcher(l);
        case Finish(_) => Watcher(l);
      }
      assert View() == Step(s, l);
      trace := trace + [l];
    }

    method Number(op: Op, entry: Entry)
      requires Valid() && inflight.None? && Loggable(op, entry)
      modifies this`clients, this`revision, this`inflight, this`logChan, this`history, this`trace
      ensures Valid() && clients == old(clients) && logChan == old(logChan) && old(trace) <= trace
      ensures revision == old(revision) + 1 && inflight == Some(Change(revision, op, entry))
    {
      hide Run;
      Other(Assign(op, entry));
    }

    method Send()
      requires Valid() && inflight.Some? && |logChan| < LOG_BUFFER_SIZE
      modifies this`clients, this`revision, this`inflight, this`logChan, this`history, this`trace
      ensures Valid() && clients == old(clients) && revision == old(revision) && old(trace) <= trace
      ensures logChan == old(logChan) + [old(inflight).value] && inflight.None?
    {
      hide Run;
      Other(Push);
    }

    /** The loop of logChange from entry `from` on, until it is through or a send finds the
        channel full. It then waits with its next entry numbered, other goroutines run, and
        it is resumed with `waiting` set; a call starts at 0 and does not wait. */
    method LogChange(op: Op, entries: seq<Entry>, from: nat, waiting: bool) returns (next: nat)
      requires Valid() && from <= |entries|
      requires forall i :: 0 <= i < |entries| ==> Loggable(op, entries[i])
      requires if waiting then from < |entries| && inflight == Some(Change(revision, op, entries[from])) else inflight.None?
      modifies this`clients, this`revision, this`inflight, this`logChan, this`history, this`trace
      ensures Valid() && clients == old(clients) && old(trace) <= trace && from <= next <= |entries|
      ensures var first := if waiting then old(revision) else old(revision) + 1;
              && logChan == old(logChan) + NumberedFrom(first, op, entries[from..next])
              && (if next == |entries| then inflight.None? && revision == first + (next - from) - 1
                  else
                    && |logChan| >= LOG_BUFFER_SIZE
                    && revision == first + (next - from) && inflight == Some(Change(revision, op, entries[next])))
    {
      hide Run, Valid, View;
      ghost var first := if waiting then revision else revision + 1;
      next := from;
      var numbered := waiting;
      while next < |entries|
        invariant Valid() && clients == old(clients) && old(trace) <= trace && from <= next <= |entries|
        invariant logChan == old(logChan) + NumberedFrom(first, op, entries[from..next])
        invariant revision == first + (next - from) - (if numbered then 0 else 1)
        invariant if numbered then next < |entries| && inflight == Some(Change(revision, op, entries[next])) else inflight.None?
      {
        if !numbered {
          Number(op, entries[next]);
          numbered := true;
        }
        if |logChan| >= LOG_BUFFER_SIZE {
          return;
        }
        ghost var sent, c := NumberedFrom(first, op, entries[from..next]), inflight.value;
        Send();
        assert entries[from..next + 1] == entries[from..next] + [entries[next]];
        NumberedFromStep(first, op, entries[from..next], entries[next]);
        assert logChan == old(logChan) + sent + [c] == old(logChan) + (sent + [c]);
        numbered := false;
        next := next + 1;
      }
    }

    /** Lets the other goroutines run until `syncControl` gets its turn again. */
    method Interfere()
      requires Valid()
      modifies this`clients, this`revision, this`inflight, this`logChan, this`history, this`trace, this`schedule
      ensures Valid() && old(trace) <= trace && |old(clients)| <= |clients|
    {
      if schedule != [] {
        var ls := schedule[0];
        schedule := schedule[1..];
        for i := 0 to |ls|
          invariant Valid() && old(trace) <= trace && |old(clients)| <= |clients|
          invariant schedule == old(schedule)[1..]
        {
          Other(ls[i]);
        }
      }
    }

    // ------------------------------------------------------------ syncControl

    /** Records that `syncControl` has just taken step `l`. */
    ghost method Took(l: Label, s: Server)
      requires s == Run(INITIAL, trace) && View() == Step(s, l)
      requires forall i, j :: 0 <= i < |schedule| && 0 <= j < |schedule[i]| ==> IsOther(schedule[i][j])
      modifies this`trace
      ensures Valid() && trace == old(trace) + [l]
    {
      RunStep(trace, l);
      trace := trace + [l];
    }

    /** One select of syncOneUpdateToDateClient: the channel takes the entry or the client
        is marked blocking. */
    method OfferPending(c: nat, cl: Change, ghost todo: seq<nat>, ghost k: nat, ghost tick: bool) returns (sent: bool)
      requires Valid() && pc == Flushing(todo, k, tick) && todo != [] && todo[0] == c && k < |pendingLogs| && cl == pendingLogs[k]
      modifies this`clients, this`pc, this`trace
      ensures Valid() && old(trace) <= trace && |clients| == |old(clients)|
      ensures pc == if sent then Flushing(todo, k + 1, tick) else Flushing(todo[1..], 0, tick)
    {
      hide Run, Inv;
      FlushTarget(trace);
      ghost var s := View();
      sent := |clients[c].ch| < CLIENT_BUFFER_SIZE;
      if sent {
        clients := clients[c := Sent(clients[c], cl)];
        pc := Flushing(todo, k + 1, tick);
      } else {
        clients := clients[c := clients[c].(phase := Blocking)];
        pc := Flushing(todo[1..], 0, tick);
      }
      Took(Advance, s);
    }

    method SyncOneUpdateToDateClient(c: nat, cls: seq<Change>, ghost todo: seq<nat>, ghost tick: bool)
      requires Valid() && pc == Flushing(todo, 0, tick) && todo != [] && todo[0] == c && cls == pendingLogs
      modifies this
      ensures Valid() && old(trace) <= trace && |old(clients)| <= |clients| && pc == Flushing(todo[1..], 0, tick)
      ensures pendingLogs == old(pendingLogs) && maxSyncedRevision == old(maxSyncedRevision)
    {
      hide Run, View, Step;
      for k := 0 to |cls|
        invariant Valid() && old(trace) <= trace && |old(clients)| <= |clients| && pc == Flushing(todo, k, tick)
        invariant pendingLogs == cls && maxSyncedRevision == old(maxSyncedRevision)
      {
        Interfere();
        var sent := OfferPending(c, cls[k], todo, k, tick);
        if !sent {
          return;
        }
      }
      MarkUpToDate(c, todo, tick);
    }

    method MarkUpToDate(c: nat, ghost todo: seq<nat>, ghost tick: bool)
      requires Valid() && pc == Flushing(todo, |pendingLogs|, tick) && todo != [] && todo[0] == c
      modifies this`clients, this`pc, this`trace
      ensures Valid() && old(trace) <= trace && |clients| == |old(clients)| && pc == Flushing(todo[1..], 0, tick)
    {
      hide Run, Inv;
      FlushTarget(trace);
      ghost var s := View();
      clients := clients[c := clients[c].(phase := UpToDate)];
      pc := Flushing(todo[1..], 0, tick);
      Took(Advance, s);
    }

    /** `s` is the state `syncControl` decided to flush in and `l` the step that begins it. */
    method SyncUpToDateClients(cls: seq<Change>, upToDateRevision: nat, ghost tick: bool, ghost s: Server, ghost l: Label)
      requires s == Run(INITIAL, trace) && BeginFlush(View(), tick) == Step(s, l) && !DoubleClose(clients)
      requires forall i, j :: 0 <= i < |schedule| && 0 <= j < |schedule[i]| ==> IsOther(schedule[i][j])
      requires cls == pendingLogs && upToDateRevision == maxSyncedRevision
      modifies this
      ensures Valid() && old(trace) <= trace && |old(clients)| <= |clients| && pc == Flushing([], 0, tick)
      ensures pendingLogs == old(pendingLogs) && maxSyncedRevision == old(maxSyncedRevision)
    {
      hide Run, Inv, Step;
      var ids := CopyUpToDate(tick, s, l);
      for i := 0 to |ids|
        invariant Valid() && old(trace) <= trace && |old(clients)| <= |clients| && pc == Flushing(ids[i..], 0, tick)
        invariant pendingLogs == cls && maxSyncedRevision == upToDateRevision
      {
        FlushTarget(trace);
        if clients[ids[i]].revision != upToDateRevision {
          assert false;
        }
        SyncOneUpdateToDateClient(ids[i], cls, ids[i..], tick);
        assert ids[i..][1..] == ids[i + 1..];
      }
    }

    method CopyUpToDate(ghost tick: bool, ghost s: Server, ghost l: Label) returns (ids: seq<nat>)
      requires s == Run(INITIAL, trace) && BeginFlush(View(), tick) == Step(s, l) && !DoubleClose(clients)
      requires forall i, j :: 0 <= i < |schedule| && 0 <= j < |schedule[i]| ==> IsOther(schedule[i][j])
      modifies this`clients, this`pc, this`trace
      ensures Valid() && old(trace) <= trace && |clients| == |old(clients)| && pc == Flushing(ids, 0, tick)
    {
      hide Run, Inv, Step;
      ids := CopyClients({UpToDate});
      pc := Flushing(ids, 0, tick);
      Took(l, s);
    }

    /** Sends the pending entries and starts a new batch. */
    method FlushPending(ghost tick: bool, ghost s: Server, ghost l: Label)
      requires s == Run(INITIAL, trace) && BeginFlush(View(), tick) == Step(s, l) && clients == s.clients
      requires forall i, j :: 0 <= i < |schedule| && 0 <= j < |schedule[i]| ==> IsOther(schedule[i][j])
      requires pendingLogs != []
      modifies this
      ensures Valid() && old(trace) <= trace && |old(clients)| <= |clients|
      ensures pc == if tick then TickFlushed else Idle
      ensures pendingLogs == [] && maxSyncedRevision == old(pendingLogs)[|old(pendingLogs)| - 1].revision
    {
      hide Run, Inv, BeginFlush;
      NoDoubleClose(trace);
      SyncUpToDateClients(pendingLogs, maxSyncedRevision, tick, s, l);
      ghost var s' := View();
      maxSyncedRevision := pendingLogs[|pendingLogs| - 1].revision;
      pendingLogs := [];
      pc := if tick then TickFlushed else Idle;
      Took(Advance, s');
    }

    /** One select of syncOne. */
    method OfferLogged(c: nat, index: nat, upToDateRevision: nat, ghost todo: seq<nat>, ghost mark: nat) returns (done: bool)
      requires Valid() && pc == Syncing(todo, Some(index), mark) && todo != [] && todo[0] == c
      requires index < |log| && upToDateRevision == maxSyncedRevision
      modifies this`clients, this`pc, this`trace
      ensures Valid() && old(trace) <= trace && |clients| == |old(clients)|
      ensures pc == if done then Syncing(todo[1..], None, mark) else Syncing(todo, Some(index + 1), mark)
    {
      hide Run, Inv;
      SyncTarget(trace);
      ghost var s := View();
      var cl := log[index];
      if |clients[c].ch| < CLIENT_BUFFER_SIZE {
        var sent := Sent(clients[c], cl);
        if cl.revision == upToDateRevision {
          sent, done := sent.(phase := UpToDate), true;
        } else if cl.revision > upToDateRevision {
          assert false;
        } else {
          done := false;
        }
        clients := clients[c := sent];
      } else {
        clients := clients[c := clients[c].(phase := Blocking)];
        done := true;
      }
      pc := if done then Syncing(todo[1..], None, mark) else Syncing(todo, Some(index + 1), mark);
      Took(Advance, s);
    }

    method SyncOne(c: nat, upToDateRevision: nat, ghost todo: seq<nat>, ghost mark: nat)
      requires Valid() && pc == Syncing(todo, None, mark) && todo != [] && todo[0] == c
      requires upToDateRevision == maxSyncedRevision
      modifies this
      ensures Valid() && old(trace) <= trace && |old(clients)| <= |clients| && pc == Syncing(todo[1..], None, mark)
      ensures log == old(log) && maxSyncedRevision == old(maxSyncedRevision)
    {
      hide Run, Inv, Step;
      var index := Search(c, todo, mark);
      if index == -1 {
        return;
      }
      while index < |log|
        invariant Valid() && old(trace) <= trace && |old(clients)| <= |clients|
        invariant index >= 0 && pc == Syncing(todo, Some(index), mark)
        invariant log == old(log) && maxSyncedRevision == upToDateRevision
      {
        Interfere();
        var done := OfferLogged(c, index, upToDateRevision, todo, mark);
        if done {
          return;
        }
        index := index + 1;
      }
      EndOfLog(todo, mark);
    }

    /** The search that opens syncOne. */
    method Search(c: nat, ghost todo: seq<nat>, ghost mark: nat) returns (index: int)
      requires Valid() && pc == Syncing(todo, None, mark) && todo != [] && todo[0] == c
      modifies this`pc, this`trace
      ensures Valid() && old(trace) <= trace && -1 <= index < |log|
      ensures pc == if index == -1 then Syncing(todo[1..], None, mark) else Syncing(todo, Some(index), mark)
    {
      hide Run, Inv;
      SyncTarget(trace);
      LogIncreasing(trace);
      ghost var s := View();
      index := FindNext(log, clients[c].revision);
      pc := if index == -1 then Syncing(todo[1..], None, mark) else Syncing(todo, Some(index), mark);
      Took(Advance, s);
    }

    ghost method EndOfLog(todo: seq<nat>, mark: nat)
      requires Valid() && pc.Syncing? && pc.todo == todo && todo != [] && pc.mark == mark
      requires pc.cur.Some? && pc.cur.value >= |log|
      modifies this`pc, this`trace
      ensures Valid() && old(trace) <= trace && pc == Syncing(todo[1..], None, mark)
    {
      hide Run, Inv;
      SyncTarget(trace);
      var s := View();
      pc := Syncing(todo[1..], None, mark);
      Took(Advance, s);
    }

    method SyncClients(upToDateRevision: nat) returns (ghost mark: nat)
      requires Valid() && pc.TickFlushed? && upToDateRevision == maxSyncedRevision
      modifies this
      ensures Valid() && old(trace) <= trace && |old(clients)| <= |clients|
      ensures pc == TickSynced(mark) && |old(clients)| <= mark
    {
      hide Run, Inv, Step;
      mark := |clients|;
      var ids := CopyLagging();
      ServeAll(ids, upToDateRevision, mark);
      EndSync(mark);
    }

    method CopyLagging() returns (ids: seq<nat>)
      requires Valid() && pc.TickFlushed?
      modifies this`clients, this`pc, this`trace
      ensures Valid() && old(trace) <= trace && |clients| == |old(clients)|
      ensures pc == Syncing(ids, None, |clients|)
    {
      hide Run, Inv;
      NoDoubleClose(trace);
      ghost var s := View();
      ids := CopyClients({Stale, Blocking});
      pc := Syncing(ids, None, |clients|);
      Took(Advance, s);
    }

    ghost method EndSync(mark: nat)
      requires Valid() && pc == Syncing([], None, mark)
      modifies this`pc, this`trace
      ensures Valid() && old(trace) <= trace && pc == TickSynced(mark)
    {
      hide Run, Inv;
      var s := View();
      pc := TickSynced(mark);
      Took(Advance, s);
    }

    method ServeAll(ids: seq<nat>, upToDateRevision: nat, ghost mark: nat)
      requires Valid() && pc == Syncing(ids, None, mark) && upToDateRevision == maxSyncedRevision
      modifies this
      ensures Valid() && old(trace) <= trace && |old(clients)| <= |clients| && pc == Syncing([], None, mark)
    {
      hide Run, Step;
      for i := 0 to |ids|
        invariant Valid() && old(trace) <= trace && |old(clients)| <= |clients| && pc == Syncing(ids[i..], None, mark)
        invariant maxSyncedRevision == upToDateRevision
      {
        Interfere();
        SyncOne(ids[i], upToDateRevision, ids[i..], mark);
        assert ids[i..][1..] == ids[i + 1..];
      }
    }

    /** compactLog as the last thing of a case. */
    method CompactAndGo(ghost next: Pc)
      requires Valid() && DoAdvance(View()) == Compact(View()).(pc := next)
      modifies this`snap, this`snapRev, this`log, this`pc, this`trace
      ensures Valid() && old(trace) <= trace && View() == Compact(old(View())).(pc := next)
    {
      hide Run, Inv, DoAdvance;
      ghost var s := View();
      CompactLog();
      pc := next;
      Took(Advance, s);
    }

    /** The retention checks after an entry has been appended to the log. */
    method Retain(cl: Change)
      requires Valid() && pc == Appended(cl)
      modifies this
      ensures Valid() && old(trace) <= trace && pc == Compacted(cl)
      ensures pendingLogs == old(pendingLogs) && maxSyncedRevision == old(maxSyncedRevision)
    {
      hide Run, Inv, Compact;
      ghost var s := View();
      if |log| > MAX_RETAINED_LOG_ENTRIES {
        var closed := CloseBackpressuredClients();
        pc := SlowClosed(cl);
        Took(Advance, s);
        Interfere();
        CompactAndGo(Compacted(cl));
      } else if |log| > COMPACT_THRESHOLD {
        CompactAndGo(Compacted(cl));
      } else {
        pc := Compacted(cl);
        Took(Advance, s);
      }
    }

    /** The select case for an entry from logChan. */
    method OnChange()
      requires Valid() && pc.Idle? && logChan != []
      modifies this
      ensures Valid() && old(trace) <= trace && pc.Idle?
    {
      hide Run, Inv, Compact;
      ghost var s := View();
      var cl := logChan[0];
      logChan := logChan[1..];
      log := log + [cl];
      pc := Appended(cl);
      Took(Drain, s);
      Interfere();
      Retain(cl);
      Interfere();
      Queue(cl);
    }

    method Queue(cl: Change)
      requires Valid() && pc == Compacted(cl)
      modifies this
      ensures Valid() && old(trace) <= trace && pc.Idle?
    {
      hide Run, Inv;
      ghost var s := View();
      pendingLogs := pendingLogs + [cl];
      if |pendingLogs| > MAX_SYNC_BATCH_SIZE {
        FlushPending(false, s, Advance);
      } else {
        pc := Idle;
        Took(Advance, s);
      }
    }

    /** The select case for the ticker. Every client that was registered when it fired, is
        still active and asked for something already logged ends up with everything logged
        or marked blocking. */
    method OnTick()
      requires Valid() && pc.Idle?
      modifies this
      ensures Valid() && old(trace) <= trace && pc.Idle?
      ensures |old(clients)| <= |clients|
      ensures forall id :: 0 <= id < |old(clients)| ==> CaughtUp(clients[id], View().Drained())
    {
      hide Run, Inv, Compact, CaughtUp;
      FlushForTick();
      Interfere();
      ghost var mark := SyncClients(maxSyncedRevision);
      Interfere();
      TickDone(trace);
      ghost var s := View();
      CompactAndGo(Idle);
      assert View() == Compact(s).(pc := Idle);
    }

    method FlushForTick()
      requires Valid() && pc.Idle?
      modifies this
      ensures Valid() && old(trace) <= trace && pc.TickFlushed? && |old(clients)| <= |clients|
    {
      hide Run, Inv, Compact;
      ghost var s := View();
      if |pendingLogs| > 0 {
        FlushPending(true, s, Tick);
      } else {
        pc := TickFlushed;
        Took(Tick, s);
      }
    }
  }

  lemma SelectNone(cs: seq<Client>, phases: set<Phase>)
    ensures Select(cs[..0], phases) == []
  {}

  lemma SelectStep(cs: seq<Client>, i: nat, phases: set<Phase>)
    requires i < |cs|
    ensures Select(cs[..i + 1], phases) ==
            Select(cs[..i], phases) + (if Active(cs[i]) && cs[i].phase in phases then [i] else [])
  {
    assert cs[..i + 1][..i] == cs[..i];
  }

  lemma FoldCountIs(log: seq<Change>, m: nat, k: nat)
    requires k <= |log| && (forall j :: 0 <= j < k ==> log[j].revision <= m) && (k < |log| ==> log[k].revision > m)
    ensures FoldCount(log, m) == k
  {}

  /** A client being flushed exists, its channel is open and its revision is the expected one. */
  lemma FlushTarget(ls: seq<Label>)
    requires Run(INITIAL, ls).pc.Flushing? && Run(INITIAL, ls).pc.todo != []
    ensures var s := Run(INITIAL, ls);
            && s.pc.todo[0] < |s.clients| && !s.clients[s.pc.todo[0]].chClosed
            && s.clients[s.pc.todo[0]].revision == s.maxSynced + s.pc.k
  {
    RunKeeps(ls);
    var s := Run(INITIAL, ls);
    assert ClientOk(s.history, s.Drained(), s.clients[s.pc.todo[0]]);
  }

  lemma NoDoubleClose(ls: seq<Label>)
    ensures !DoubleClose(Run(INITIAL, ls).clients)
  {
    hide Run;
    RunKeeps(ls);
    var s := Run(INITIAL, ls);
    ReapOk(s.history, s.Drained(), s.snapRev, s.clients);
  }

  /** A client being served exists, its channel is open, and no entry the log offers it is
      newer than the newest synced one. */
  lemma SyncTarget(ls: seq<Label>)
    requires Run(INITIAL, ls).pc.Syncing? && Run(INITIAL, ls).pc.todo != []
    ensures var s := Run(INITIAL, ls);
            && s.pc.todo[0] < |s.clients| && !s.clients[s.pc.todo[0]].chClosed
            && forall i :: 0 <= i < |s.log| ==> s.log[i].revision <= s.maxSynced
  {
    hide Run;
    RunKeeps(ls);
    var s := Run(INITIAL, ls);
    assert ClientOk(s.history, s.Drained(), s.clients[s.pc.todo[0]]);
    LogRevisions(s);
  }

  lemma LogIncreasing(ls: seq<Label>)
    ensures Increasing(Run(INITIAL, ls).log)
  {
    hide Run;
    RunKeeps(ls);
    LogRevisions(Run(INITIAL, ls));
  }

  lemma TickDone(ls: seq<Label>)
    requires Run(INITIAL, ls).pc.TickSynced?
    ensures var s := Run(INITIAL, ls);
            && Compact(s).Drained() == s.Drained() && Compact(s).clients == s.clients
            && forall id: nat :: id < s.pc.mark ==> id < |s.clients| && CaughtUp(s.clients[id], s.Drained())
  {
    hide Run;
    RunKeeps(ls);
    CompactMeaning(Run(INITIAL, ls));
  }
}
