/** The link manager: a table of network interfaces, and listeners that are replayed the table
    and then fed every change. */
module LinkManager {
  import opened Options

  const LIVE_CAPACITY := 1024

  datatype LinkInfo = LinkInfo(index: int, name: string, link: string)

  datatype LinkEvent = LinkAdded(info: LinkInfo) | LinkDeleted(info: LinkInfo)

  type Links = map<int, LinkInfo>

  function ApplyEvent(m: Links, ev: LinkEvent): Links {
    match ev
    case LinkAdded(info) => m[info.index := info]
    case LinkDeleted(info) => m - {info.index}
  }

  /** The table a listener builds from a list of events. */
  function Folded(evs: seq<LinkEvent>): Links {
    if evs == [] then map[] else ApplyEvent(Folded(evs[..|evs| - 1]), evs[|evs| - 1])
  }

  /** A registered listener: its channel with its capacity, everything ever put into it, what
      its goroutine has handed on, and how many events were broadcast to it and how many of
      those did not fit. */
  datatype Entry = Entry(listener: nat, capacity: nat, ch: seq<LinkEvent>, enqueued: seq<LinkEvent>, handed: seq<LinkEvent>,
                         live: nat, dropped: nat)

  datatype Manager = Manager(links: Links, entries: seq<Entry>)

  datatype Header = NewLink | DelLink | OtherHeader

  datatype Label =
    | Update(header: Header, index: int, name: string, link: string)
    | Register(listener: nat, order: seq<int>)   // the order the table is walked in
    | Unregister(listener: nat)
    | Dispatch(i: nat)                           // a listener's goroutine takes an event

  // ------------------------------------------------------------------------ operations

  function Offer(e: Entry, ev: LinkEvent): Entry {
    if |e.ch| < e.capacity
    then e.(ch := e.ch + [ev], enqueued := e.enqueued + [ev], live := e.live + 1)
    else e.(live := e.live + 1, dropped := e.dropped + 1)
  }

  function Broadcast(es: seq<Entry>, ev: LinkEvent): (r: seq<Entry>)
    ensures |r| == |es| && forall i :: 0 <= i < |es| ==> r[i] == Offer(es[i], ev)
  {
    seq(|es|, i requires 0 <= i < |es| => Offer(es[i], ev))
  }

  /** The table after an update, and the event that is broadcast for it. */
  function Changed(m: Links, header: Header, index: int, name: string, link: string): (Links, seq<LinkEvent>) {
    match header
    case NewLink =>
      var info := LinkInfo(index, name, link);
      (m[index := info], [LinkAdded(info)])
    case DelLink =>
      (m - {index}, [LinkDeleted(if index in m then m[index] else LinkInfo(index, name, ""))])
    case OtherHeader => (m, [])
  }

  /** `order` walks every key of `m` exactly once. */
  ghost predicate Walks(order: seq<int>, m: Links) {
    && (forall i, j :: 0 <= i < j < |order| ==> order[i] != order[j])
    && Within(order, m)
    && (forall k :: k in m ==> k in order)
  }

  predicate Within(order: seq<int>, m: Links) {
    forall i :: 0 <= i < |order| ==> order[i] in m
  }

  function Replayed(m: Links, order: seq<int>): (evs: seq<LinkEvent>)
    requires Within(order, m)
    ensures |evs| == |order| && forall i :: 0 <= i < |order| ==> evs[i] == LinkAdded(m[order[i]])
  {
    seq(|order|, i requires 0 <= i < |order| => LinkAdded(m[order[i]]))
  }

  function NewEntry(m: Links, listener: nat, order: seq<int>): Entry
    requires Within(order, m)
  {
    Entry(listener, |m| + LIVE_CAPACITY, Replayed(m, order), Replayed(m, order), [], 0, 0)
  }

  /** The list without the first entry of a listener. */
  function Without(es: seq<Entry>, listener: nat): (r: seq<Entry>)
    ensures forall e :: e in r ==> e in es
  {
    if es == [] then []
    else if es[0].listener == listener then es[1..]
    else [es[0]] + Without(es[1..], listener)
  }

  ghost function Step(m: Manager, l: Label): Manager {
    match l
    case Update(header, index, name, link) =>
      var (links, evs) := Changed(m.links, header, index, name, link);
      Manager(links, if evs == [] then m.entries else Broadcast(m.entries, evs[0]))
    case Register(listener, order) =>
      if Walks(order, m.links) then m.(entries := m.entries + [NewEntry(m.links, listener, order)]) else m
    case Unregister(listener) => m.(entries := Without(m.entries, listener))
    case Dispatch(i) =>
      if i < |m.entries| && m.entries[i].ch != []
      then m.(entries := m.entries[i := m.entries[i].(ch := m.entries[i].ch[1..], handed := m.entries[i].handed + [m.entries[i].ch[0]])])
      else m
  }

  ghost function Steps(m: Manager, ls: seq<Label>): Manager {
    if ls == [] then m else Step(Steps(m, ls[..|ls| - 1]), ls[|ls| - 1])
  }

  /** Any interleaving of updates, registrations and dispatches, from the initial table. */
  ghost function Run(start: Links, ls: seq<Label>): Manager { Steps(Manager(start, []), ls) }

  // -------------------------------------------------------------------------- invariant

  ghost predicate Keyed(m: Links) {
    forall k :: k in m ==> m[k].index == k
  }

  ghost predicate EntryOk(m: Links, e: Entry) {
    && (e.dropped == 0 ==> Folded(e.enqueued) == m)
    && e.enqueued == e.handed + e.ch
    && |e.ch| <= e.capacity
    && |e.ch| + LIVE_CAPACITY <= e.capacity + e.live
    && (e.live <= LIVE_CAPACITY ==> e.dropped == 0)
  }

  ghost predicate Inv(m: Manager) {
    Keyed(m.links) && forall i :: 0 <= i < |m.entries| ==> EntryOk(m.links, m.entries[i])
  }

  lemma FoldedOne(evs: seq<LinkEvent>, ev: LinkEvent)
    ensures Folded(evs + [ev]) == ApplyEvent(Folded(evs), ev)
  {
    assert (evs + [ev])[..|evs|] == evs;
  }

  lemma {:induction false} ReplayRebuilds(m: Links, order: seq<int>)
    requires Keyed(m) && Within(order, m)
    ensures forall k :: k in Folded(Replayed(m, order)) <==> k in order
    ensures forall k :: k in order ==> Folded(Replayed(m, order))[k] == m[k]
  {
    if order == [] {
      assert Replayed(m, order) == [];
    } else {
      var n := |order| - 1;
      var front := order[..n];
      assert order == front + [order[n]];
      ReplayRebuilds(m, front);
      var f, f', last := Folded(Replayed(m, front)), Folded(Replayed(m, order)), order[n];
      assert Replayed(m, order) == Replayed(m, front) + [LinkAdded(m[last])];
      FoldedOne(Replayed(m, front), LinkAdded(m[last]));
      assert f' == f[last := m[last]];
      assert forall k :: k in order <==> k in front || k == last;
    }
  }

  lemma {:induction false} WalkLength(order: seq<int>, m: Links)
    requires Walks(order, m)
    ensures |order| == |m|
  {
    if order == [] {
      assert forall k :: k !in m;
      assert m.Keys == {};
    } else {
      var n := |order| - 1;
      var front, rest := order[..n], m - {order[n]};
      assert order == front + [order[n]];
      WalkLength(front, rest);
      assert m.Keys == rest.Keys + {order[n]};
    }
  }

  lemma NewEntryOk(m: Links, listener: nat, order: seq<int>)
    requires Keyed(m) && Walks(order, m)
    ensures EntryOk(m, NewEntry(m, listener, order))
  {
    ReplayRebuilds(m, order);
    WalkLength(order, m);
    var f := Folded(Replayed(m, order));
    forall k ensures k in m <==> k in f {
      assert k in m <==> k in order;
    }
    forall k | k in m ensures f[k] == m[k] {
      assert k in order;
    }
    assert f == m;
  }

  lemma OfferOk(m: Links, e: Entry, header: Header, index: int, name: string, link: string)
    requires EntryOk(m, e) && Keyed(m) && header != OtherHeader
    ensures var (m', evs) := Changed(m, header, index, name, link);
            evs != [] && EntryOk(m', Offer(e, evs[0]))
  {
    var (m', evs) := Changed(m, header, index, name, link);
    FoldedOne(e.enqueued, evs[0]);
  }

  lemma StepKeeps(m: Manager, l: Label)
    requires Inv(m)
    ensures Inv(Step(m, l))
  {
    hide Folded;
    match l
    case Update(header, index, name, link) =>
      if header != OtherHeader {
        forall i | 0 <= i < |m.entries| ensures EntryOk(Step(m, l).links, Step(m, l).entries[i]) {
          OfferOk(m.links, m.entries[i], header, index, name, link);
        }
      }
    case Register(listener, order) =>
      if Walks(order, m.links) {
        NewEntryOk(m.links, listener, order);
      }
    case Unregister(listener) =>
      forall i | 0 <= i < |Without(m.entries, listener)| ensures EntryOk(m.links, Without(m.entries, listener)[i]) {
        assert Without(m.entries, listener)[i] in m.entries;
      }
    case Dispatch(i) =>
  }

  lemma {:induction false} RunKeeps(start: Links, ls: seq<Label>)
    requires Keyed(start)
    ensures Inv(Run(start, ls))
  {
    if ls != [] {
      RunKeeps(start, ls[..|ls| - 1]);
      StepKeeps(Run(start, ls[..|ls| - 1]), ls[|ls| - 1]);
    }
  }

  /** For any interleaving, none of the first 1024 events after a registration can fail to
      fit, and as long as nothing failed to fit, what was put into the channel folds to the
      current table. */
  lemma FirstEventsFit(start: Links, ls: seq<Label>, i: nat)
    requires Keyed(start) && i < |Run(start, ls).entries|
    ensures var m := Run(start, ls);
            && (m.entries[i].live <= LIVE_CAPACITY ==> m.entries[i].dropped == 0)
            && (m.entries[i].dropped == 0 ==> Folded(m.entries[i].enqueued) == m.links)
  {
    RunKeeps(start, ls);
    assert EntryOk(Run(start, ls).links, Run(start, ls).entries[i]);
  }

  /** Strict order: whatever the interleaving, what a listener has been handed followed by what
      waits in its channel is what was put into the channel, in that order. */
  lemma StrictOrder(start: Links, ls: seq<Label>, i: nat)
    requires Keyed(start) && i < |Run(start, ls).entries|
    ensures var e := Run(start, ls).entries[i];
            e.handed + e.ch == e.enqueued
  {
    hide Folded;
    RunKeeps(start, ls);
    assert EntryOk(Run(start, ls).links, Run(start, ls).entries[i]);
  }

  /** A replay always fits: the channel is larger than the table. */
  lemma ReplayFits(m: Links, listener: nat, order: seq<int>)
    requires Walks(order, m)
    ensures |NewEntry(m, listener, order).ch| + LIVE_CAPACITY == NewEntry(m, listener, order).capacity
  {
    WalkLength(order, m);
  }

  /** `n` new links, one after the other. */
  function Adds(n: nat): seq<Label> {
    if n == 0 then [] else Adds(n - 1) + [Update(NewLink, n - 1, "", "")]
  }

  /** A listener that never gets to read: it is registered on an empty table and `n` links
      appear. */
  ghost function Flood(n: nat): Manager { Run(map[], [Register(0, [])] + Adds(n)) }

  ghost predicate Flooded(m: Manager, n: nat) {
    var kept := if n < LIVE_CAPACITY then n else LIVE_CAPACITY;
    && |m.entries| == 1 && m.entries[0].capacity == LIVE_CAPACITY
    && |m.entries[0].ch| == kept && m.entries[0].live == n && m.entries[0].dropped == n - kept
    && (forall k :: 0 <= k < n ==> k in m.links)
    && (forall k :: k in Folded(m.entries[0].enqueued) ==> 0 <= k < kept)
  }

  lemma FloodStart()
    ensures Flooded(Flood(0), 0)
  {
    var ls := [Register(0, [])] + Adds(0);
    assert ls == [Register(0, [])] && ls[..0] == [];
    assert Run(map[], ls[..0]) == Manager(map[], []);
    assert Walks([], map[]);
    assert Flood(0) == Manager(map[], [NewEntry(map[], 0, [])]);
    assert Replayed(map[], []) == [];
  }

  lemma FloodStep(m: Manager, n: nat)
    requires Flooded(m, n)
    ensures Flooded(Step(m, Update(NewLink, n, "", "")), n + 1)
  {
    hide Folded;
    var ev := LinkAdded(LinkInfo(n, "", ""));
    FoldedOne(m.entries[0].enqueued, ev);
    assert Step(m, Update(NewLink, n, "", "")).entries == [Offer(m.entries[0], ev)];
  }

  lemma {:induction false} FloodState(n: nat)
    ensures Flooded(Flood(n), n)
  {
    hide Flooded;
    if n == 0 {
      FloodStart();
    } else {
      FloodState(n - 1);
      var ls := [Register(0, [])] + Adds(n);
      assert ls[..|ls| - 1] == [Register(0, [])] + Adds(n - 1);
      FloodStep(Flood(n - 1), n - 1);
    }
  }

  /** Loss is possible: the 1025th unread event does not fit, and from then on what the
      listener has been told is not the table. */
  lemma LossIsPossible()
    ensures Flood(1025).entries != [] && Flood(1025).entries[0].dropped == 1
    ensures Folded(Flood(1025).entries[0].enqueued) != Flood(1025).links
  {
    hide Folded, Run, Adds;
    FloodState(1025);
    assert 1024 in Flood(1025).links;
  }

  // ---------------------------------------------------------------- when loss shows

  ghost predicate Agrees(m: Manager, i: nat)
    requires i < |m.entries|
  {
    Folded(m.entries[i].enqueued) == m.links
  }

  /** The guard of the branch that drops: the channel is full and the table changes. */
  predicate Loses(m: Manager, i: nat, l: Label)
    requires i < |m.entries|
  {
    && l.Update?
    && |m.entries[i].ch| >= m.entries[i].capacity
    && Changed(m.links, l.header, l.index, l.name, l.link).0 != m.links
  }

  /** One event and one listener that agrees with the table: it still does afterwards exactly
      when its channel had room or the table did not change. */
  lemma OfferAgreesIff(m: Links, e: Entry, header: Header, index: int, name: string, link: string)
    requires Keyed(m) && Folded(e.enqueued) == m && header != OtherHeader
    ensures var (m', evs) := Changed(m, header, index, name, link);
            evs != [] && (Folded(Offer(e, evs[0]).enqueued) == m' <==> |e.ch| < e.capacity || m' == m)
  {
    hide Folded;
    var (m', evs) := Changed(m, header, index, name, link);
    FoldedOne(e.enqueued, evs[0]);
  }

  /** Where the first entry of a listener stands, or the length of the list. */
  function Position(es: seq<Entry>, listener: nat): (p: nat)
    ensures p <= |es|
  {
    if es == [] then 0 else if es[0].listener == listener then 0 else 1 + Position(es[1..], listener)
  }

  /** Where entry `i` stands after a step, if it is still there. */
  function Tracked(m: Manager, i: nat, l: Label): Option<nat>
    requires i < |m.entries|
  {
    match l
    case Unregister(listener) =>
      var p := Position(m.entries, listener);
      if p == i then None else if p < i then Some(i - 1) else Some(i)
    case _ => Some(i)
  }

  lemma {:induction false} WithoutAt(es: seq<Entry>, listener: nat)
    ensures var p, r := Position(es, listener), Without(es, listener);
            && |r| == (if p < |es| then |es| - 1 else |es|)
            && (forall i :: 0 <= i < p ==> r[i] == es[i])
            && (forall i :: p < i < |es| ==> r[i - 1] == es[i])
  {
    if es != [] && es[0].listener != listener {
      WithoutAt(es[1..], listener);
    }
  }

  /** What a step does to an entry that stays registered. */
  lemma StepOnEntry(m: Manager, i: nat, l: Label)
    requires i < |m.entries| && Tracked(m, i, l).Some?
    ensures var m', j := Step(m, l), Tracked(m, i, l).value;
            && j < |m'.entries|
            && (if l.Update? && l.header != OtherHeader
                then m'.entries[j] == Offer(m.entries[i], Changed(m.links, l.header, l.index, l.name, l.link).1[0])
                else m'.links == m.links && m'.entries[j].enqueued == m.entries[i].enqueued)
  {
    hide Folded;
    match l
    case Unregister(listener) => WithoutAt(m.entries, listener);
    case _ =>
  }

  /** A listener that agrees before a step agrees after it exactly when the step does not
      lose an event for it. */
  lemma StepAgreesIff(m: Manager, i: nat, l: Label)
    requires Keyed(m.links) && i < |m.entries| && Agrees(m, i) && Tracked(m, i, l).Some?
    ensures Tracked(m, i, l).value < |Step(m, l).entries|
    ensures Agrees(Step(m, l), Tracked(m, i, l).value) <==> !Loses(m, i, l)
  {
    hide Folded;
    StepOnEntry(m, i, l);
    if l.Update? && l.header != OtherHeader {
      OfferAgreesIff(m.links, m.entries[i], l.header, l.index, l.name, l.link);
    }
  }

  lemma StepKeyed(m: Manager, l: Label)
    requires Keyed(m.links)
    ensures Keyed(Step(m, l).links)
  {}

  /** The listener agrees with the table at every moment of the run, as long as it stays. */
  ghost predicate AgreesThroughout(m: Manager, i: nat, ls: seq<Label>)
    requires i < |m.entries|
    decreases |ls|
  {
    && Agrees(m, i)
    && (ls != [] && Tracked(m, i, ls[0]).Some? ==>
          (StepOnEntry(m, i, ls[0]); AgreesThroughout(Step(m, ls[0]), Tracked(m, i, ls[0]).value, ls[1..])))
  }

  /** No update of the run meets the listener's channel full while changing the table. */
  ghost predicate NeverLoses(m: Manager, i: nat, ls: seq<Label>)
    requires i < |m.entries|
    decreases |ls|
  {
    ls != [] ==>
      && !Loses(m, i, ls[0])
      && (Tracked(m, i, ls[0]).Some? ==>
            (StepOnEntry(m, i, ls[0]); NeverLoses(Step(m, ls[0]), Tracked(m, i, ls[0]).value, ls[1..])))
  }

  lemma {:induction false} ThroughoutIff(m: Manager, i: nat, ls: seq<Label>)
    requires Keyed(m.links) && i < |m.entries| && Agrees(m, i)
    ensures AgreesThroughout(m, i, ls) <==> NeverLoses(m, i, ls)
    decreases |ls|
  {
    hide Folded, Agrees;
    if ls != [] && Tracked(m, i, ls[0]).Some? {
      var m', j := Step(m, ls[0]), Tracked(m, i, ls[0]).value;
      StepAgreesIff(m, i, ls[0]);
      StepKeyed(m, ls[0]);
      if Agrees(m', j) {
        ThroughoutIff(m', j, ls[1..]);
      }
    }
  }

  /** The state right after a registration, whatever happened before it. */
  ghost function Registered(start: Links, before: seq<Label>, listener: nat, order: seq<int>): Manager {
    Run(start, before + [Register(listener, order)])
  }

  lemma RegisteredAgrees(start: Links, before: seq<Label>, listener: nat, order: seq<int>)
    requires Keyed(start) && Walks(order, Run(start, before).links)
    ensures var m := Registered(start, before, listener, order);
            m.entries != [] && Keyed(m.links) && Agrees(m, |m.entries| - 1)
  {
    hide Folded;
    var ls := before + [Register(listener, order)];
    assert ls[..|ls| - 1] == before;
    RunKeeps(start, before);
    NewEntryOk(Run(start, before).links, listener, order);
  }

  /** The promise of no event loss, exactly: from its registration on, a listener agrees with
      the table at every moment if and only if no update that changes the table ever finds
      its channel full. */
  lemma ListenersAgree(start: Links, before: seq<Label>, listener: nat, order: seq<int>, after: seq<Label>)
    requires Keyed(start) && Walks(order, Run(start, before).links)
    ensures var m := Registered(start, before, listener, order);
            && m.entries != []
            && (AgreesThroughout(m, |m.entries| - 1, after) <==> NeverLoses(m, |m.entries| - 1, after))
  {
    hide Registered, AgreesThroughout, NeverLoses;
    RegisteredAgrees(start, before, listener, order);
    var m := Registered(start, before, listener, order);
    ThroughoutIff(m, |m.entries| - 1, after);
  }

  // ------------------------------------------------------------------ what the table says

  /** The last message about interface `k`. */
  function LastMessage(ls: seq<Label>, k: int): Option<Label> {
    if ls == [] then None
    else
      var l := ls[|ls| - 1];
      if l.Update? && l.header != OtherHeader && l.index == k then Some(l) else LastMessage(ls[..|ls| - 1], k)
  }

  /** Over any interleaving the table has, for every interface, what the last message about it
      said: its name and link after an announcement, nothing after a removal, and what was
      there at the start if there was none. */
  lemma {:induction false} TableIsLastMessage(start: Links, ls: seq<Label>, k: int)
    ensures var links, last := Run(start, ls).links, LastMessage(ls, k);
            && (last.None? ==> (k in links <==> k in start) && (k in start ==> links[k] == start[k]))
            && (last.Some? ==> last.value.Update? && last.value.index == k)
            && (last.Some? && last.value.header == NewLink ==>
                  k in links && links[k].index == k && links[k].name == last.value.name && links[k].link == last.value.link)
            && (last.Some? && last.value.header == DelLink ==> k !in links)
            && (last.Some? ==> last.value.header != OtherHeader)
  {
    if ls != [] {
      TableIsLastMessage(start, ls[..|ls| - 1], k);
    }
  }

  // ------------------------------------------------------------- what a listener knows

  function Value(m: Links, k: int): Option<LinkInfo> { if k in m then Some(m[k]) else None }

  /** The state after a run and where the listener's entry then stands, if it is still there. */
  ghost function Follow(m: Manager, i: nat, ls: seq<Label>): (r: Option<(Manager, nat)>)
    requires i < |m.entries|
    ensures r.Some? ==> r.value.1 < |r.value.0.entries|
    decreases |ls|
  {
    if ls == [] then Some((m, i))
    else if Tracked(m, i, ls[0]).None? then None
    else
      StepOnEntry(m, i, ls[0]);
      Follow(Step(m, ls[0]), Tracked(m, i, ls[0]).value, ls[1..])
  }

  lemma {:induction false} StepsConcat(m: Manager, a: seq<Label>, b: seq<Label>)
    ensures Steps(m, a + b) == Steps(Steps(m, a), b)
  {
    if b == [] {
      assert a + b == a;
    } else {
      assert (a + b)[..|a + b| - 1] == a + b[..|b| - 1];
      StepsConcat(m, a, b[..|b| - 1]);
    }
  }

  lemma {:induction false} FollowIsRun(m: Manager, i: nat, ls: seq<Label>)
    requires i < |m.entries| && Follow(m, i, ls).Some?
    ensures Follow(m, i, ls).value.0 == Steps(m, ls)
    decreases |ls|
  {
    hide Step;
    if ls != [] {
      StepOnEntry(m, i, ls[0]);
      FollowIsRun(Step(m, ls[0]), Tracked(m, i, ls[0]).value, ls[1..]);
      assert ls == [ls[0]] + ls[1..];
      assert Steps(m, []) == m && [ls[0]][..0] == [];
      assert Steps(m, [ls[0]]) == Step(m, ls[0]);
      StepsConcat(m, [ls[0]], ls[1..]);
    }
  }

  /** What the table said about interface `k` when an event about it last found room in the
      listener's channel; `told` is what it said at the start. */
  ghost function LastTold(m: Manager, i: nat, ls: seq<Label>, k: int, told: Option<LinkInfo>): Option<LinkInfo>
    requires i < |m.entries|
    decreases |ls|
  {
    if ls == [] || Tracked(m, i, ls[0]).None? then told
    else
      var l, m' := ls[0], Step(m, ls[0]);
      StepOnEntry(m, i, l);
      LastTold(m', Tracked(m, i, l).value, ls[1..], k,
               if l.Update? && l.header != OtherHeader && l.index == k && |m.entries[i].ch| < m.entries[i].capacity
               then Value(m'.links, k) else told)
  }

  lemma OfferTells(m: Links, e: Entry, header: Header, index: int, name: string, link: string, k: int)
    requires Keyed(m) && header != OtherHeader
    ensures var (m', evs) := Changed(m, header, index, name, link);
            && evs != []
            && Value(Folded(Offer(e, evs[0]).enqueued), k) ==
               if index == k && |e.ch| < e.capacity then Value(m', k) else Value(Folded(e.enqueued), k)
  {
    hide Folded;
    FoldedOne(e.enqueued, Changed(m, header, index, name, link).1[0]);
  }

  lemma {:induction false} FollowKnows(m: Manager, i: nat, ls: seq<Label>, k: int)
    requires Keyed(m.links) && i < |m.entries| && Follow(m, i, ls).Some?
    ensures var (m', j) := Follow(m, i, ls).value;
            Value(Folded(m'.entries[j].enqueued), k) == LastTold(m, i, ls, k, Value(Folded(m.entries[i].enqueued), k))
    decreases |ls|
  {
    hide Folded, Value;
    if ls != [] {
      var l := ls[0];
      StepOnEntry(m, i, l);
      StepKeyed(m, l);
      if l.Update? && l.header != OtherHeader {
        OfferTells(m.links, m.entries[i], l.header, l.index, l.name, l.link, k);
      }
      FollowKnows(Step(m, l), Tracked(m, i, l).value, ls[1..], k);
    }
  }

  /** Tables are equal exactly when they say the same about every interface. */
  lemma SameValues(a: Links, b: Links)
    ensures a == b <==> forall k :: Value(a, k) == Value(b, k)
  {
    if forall k :: Value(a, k) == Value(b, k) {
      forall k ensures k in a <==> k in b {
        assert Value(a, k) == Value(b, k);
      }
      forall k | k in a ensures a[k] == b[k] {
        assert Value(a, k) == Value(b, k);
      }
    }
  }

  lemma RegisteredThen(start: Links, before: seq<Label>, listener: nat, order: seq<int>, after: seq<Label>)
    ensures Steps(Registered(start, before, listener, order), after) == Run(start, before + [Register(listener, order)] + after)
  {
    StepsConcat(Manager(start, []), before + [Register(listener, order)], after);
  }

  /** What a listener knows after any run, events lost or not: for every interface, what the
      table said about it when an event about it last found room in its channel. So it
      agrees with the table at the end exactly when no interface has changed since. */
  lemma ListenerKnows(start: Links, before: seq<Label>, listener: nat, order: seq<int>, after: seq<Label>)
    requires Keyed(start) && Walks(order, Run(start, before).links)
    ensures var m := Registered(start, before, listener, order);
            && m.entries != []
            && (var i := |m.entries| - 1;
                Follow(m, i, after).Some? ==>
                  var (m', j) := Follow(m, i, after).value;
                  && m' == Run(start, before + [Register(listener, order)] + after)
                  && (forall k :: Value(Folded(m'.entries[j].enqueued), k) == LastTold(m, i, after, k, Value(m.links, k)))
                  && (Agrees(m', j) <==> forall k :: LastTold(m, i, after, k, Value(m.links, k)) == Value(m'.links, k)))
  {
    hide Registered, Folded, LastTold, Follow, Value;
    RegisteredAgrees(start, before, listener, order);
    var m := Registered(start, before, listener, order);
    var i := |m.entries| - 1;
    if Follow(m, i, after).Some? {
      var (m', j) := Follow(m, i, after).value;
      FollowIsRun(m, i, after);
      RegisteredThen(start, before, listener, order, after);
      forall k ensures Value(Folded(m'.entries[j].enqueued), k) == LastTold(m, i, after, k, Value(m.links, k)) {
        FollowKnows(m, i, after, k);
      }
      SameValues(Folded(m'.entries[j].enqueued), m'.links);
    }
  }

  // ------------------------------------------------------------------------- the object

  class Service {
    var links: Links
    var entries: seq<Entry>

    ghost function View(): Manager
      reads this
    {
      Manager(links, entries)
    }

    constructor (links: Links)
      ensures View() == Manager(links, [])
    {
      this.links := links;
      entries := [];
    }

    method HandleUpdate(header: Header, index: int, name: string, link: string)
      modifies this
      ensures View() == Step(old(View()), Update(header, index, name, link))
    {
      match header {
        case NewLink =>
          var info := LinkInfo(index, name, link);
          links := links[index := info];
          BroadcastAll(LinkAdded(info));
        case DelLink =>
          var info := LinkInfo(index, name, "");
          if index in links {
            info := links[index];
          }
          links := links - {index};
          BroadcastAll(LinkDeleted(info));
        case OtherHeader =>
      }
    }

    method BroadcastAll(ev: LinkEvent)
      modifies this`entries
      ensures entries == Broadcast(old(entries), ev)
    {
      for i := 0 to |entries|
        invariant |entries| == |old(entries)|
        invariant forall j :: 0 <= j < i ==> entries[j] == Offer(old(entries)[j], ev)
        invariant forall j :: i <= j < |entries| ==> entries[j] == old(entries)[j]
      {
        var e := entries[i];
        if |e.ch| < e.capacity {
          entries := entries[i := e.(ch := e.ch + [ev], enqueued := e.enqueued + [ev], live := e.live + 1)];
        } else {
          entries := entries[i := e.(live := e.live + 1, dropped := e.dropped + 1)];
        }
      }
    }

    /** `order` is the order the runtime walks the table in. The send inside the loop would
        block on a full channel; it never does. */
    method RegisterListener(l: nat, order: seq<int>)
      requires Walks(order, links)
      modifies this`entries
      ensures View() == Step(old(View()), Register(l, order))
    {
      var entry := Entry(l, |links| + LIVE_CAPACITY, [], [], [], 0, 0);
      WalkLength(order, links);
      for i := 0 to |order|
        invariant entry == Entry(l, |links| + LIVE_CAPACITY, Replayed(links, order)[..i], Replayed(links, order)[..i], [], 0, 0)
      {
        assert |entry.ch| < entry.capacity;
        var ev := LinkAdded(links[order[i]]);
        entry := entry.(ch := entry.ch + [ev], enqueued := entry.enqueued + [ev]);
      }
      assert Replayed(links, order)[..|order|] == Replayed(links, order);
      entries := entries + [entry];
    }

    /** The goroutine of entry `i` takes the next event, if there is one. */
    method Dispatch(i: nat) returns (ev: Option<LinkEvent>)
      modifies this`entries
      ensures View() == Step(old(View()), Label.Dispatch(i))
      ensures ev == if i < |old(entries)| && old(entries)[i].ch != [] then Some(old(entries)[i].ch[0]) else None
    {
      ev := None;
      if i < |entries| && entries[i].ch != [] {
        var e := entries[i];
        ev := Some(e.ch[0]);
        entries := entries[i := e.(ch := e.ch[1..], handed := e.handed + [e.ch[0]])];
      }
    }

    method UnregisterListener(l: nat)
      modifies this`entries
      ensures entries == Without(old(entries), l)
    {
      for i := 0 to |entries|
        invariant entries == old(entries)
        invariant Without(entries, l) == entries[..i] + Without(entries[i..], l)
      {
        if entries[i].listener == l {
          entries := entries[..i] + entries[i + 1..];
          return;
        }
        assert entries[i..][1..] == entries[i + 1..];
      }
    }
  }
}
