/** The pod and node event handlers, and the index they maintain through the log. */
module Events {
  import opened ChangeLog
  import opened Controller
  import opened Options
  import opened Replica
  import opened Replication

  datatype Address = Internal(addr: string) | External(addr: string) | OtherAddress(addr: string)

  /** `podIPs` is None for a nil list. */
  datatype Object =
    | PodObject(namespace: string, name: string, version: string, hostNetwork: bool,
                podIPs: Option<seq<string>>, podIP: string)
    | NodeObject(name: string, version: string, addresses: seq<Address>)
  {
    /** What identifies an object for its informer. */
    function Owner(): Meta {
      match this
      case PodObject(namespace, name, _, _, _, _) => Pod(namespace, name)
      case NodeObject(name, _, _) => Node(name)
    }
  }

  function NodeIPs(addresses: seq<Address>): seq<string> {
    if addresses == [] then []
    else
      var front := NodeIPs(addresses[..|addresses| - 1]);
      var a := addresses[|addresses| - 1];
      if a.OtherAddress? then front else front + [a.addr]
  }

  /** allPodIPs and allNodeIPs: the address list an update compares. */
  function IPs(o: Object): seq<string> {
    match o
    case PodObject(_, _, _, _, podIPs, podIP) =>
      if podIPs.Some? then podIPs.value else if podIP != "" then [podIP] else []
    case NodeObject(_, _, addresses) => NodeIPs(addresses)
  }

  /** Who an address belongs to, read off the object alone: a pod outside the host network owns
      the addresses it lists, or its single address when it has no list; a node owns its
      internal and external addresses. */
  predicate Owns(o: Object, ip: string) {
    match o
    case PodObject(_, _, _, hostNetwork, podIPs, podIP) =>
      !hostNetwork && (if podIPs.Some? then ip in podIPs.value else podIP != "" && ip == podIP)
    case NodeObject(_, _, addresses) =>
      exists i :: 0 <= i < |addresses| && (addresses[i].Internal? || addresses[i].External?) && addresses[i].addr == ip
  }

  lemma {:induction false} NodeOwns(addresses: seq<Address>, ip: string)
    ensures ip in NodeIPs(addresses) <==>
            exists i :: 0 <= i < |addresses| && (addresses[i].Internal? || addresses[i].External?) && addresses[i].addr == ip
  {
    if addresses != [] {
      var n := |addresses| - 1;
      NodeOwns(addresses[..n], ip);
      assert forall i :: 0 <= i < n ==> addresses[..n][i] == addresses[i];
      if ip in NodeIPs(addresses[..n]) {
        var i :| 0 <= i < n && (addresses[..n][i].Internal? || addresses[..n][i].External?) && addresses[..n][i].addr == ip;
        assert addresses[i].addr == ip;
      } else if ip in NodeIPs(addresses) {
        assert addresses[n].addr == ip;
      }
    }
  }

  /** The addresses the handlers log for an object, in order: exactly those it owns. */
  function Indexed(o: Object): (ips: seq<string>)
    ensures forall ip :: ip in ips <==> Owns(o, ip)
  {
    assert o.NodeObject? ==> forall ip :: ip in NodeIPs(o.addresses) <==> Owns(o, ip) by {
      if o.NodeObject? {
        forall ip ensures ip in NodeIPs(o.addresses) <==> Owns(o, ip) { NodeOwns(o.addresses, ip); }
      }
    }
    if o.PodObject? && o.hostNetwork then [] else IPs(o)
  }

  function Entries(o: Object): (es: seq<Entry>)
    ensures |es| == |Indexed(o)| && forall i :: 0 <= i < |es| ==> es[i] == Entry(Indexed(o)[i], o.Owner())
  {
    seq(|Indexed(o)|, i requires 0 <= i < |Indexed(o)| => Entry(Indexed(o)[i], o.Owner()))
  }

  /** What an informer hands to a delete handler. */
  datatype Deleted = Known(o: Object) | Tombstone(o: Object) | Unrecognised

  datatype Event =
    | Added(o: Object)
    | Updated(from: Object, to: Object)
    | Removed(d: Deleted)

  /** An update the handler ignores. */
  predicate Skipped(from: Object, to: Object) {
    from.version == to.version || IPs(from) == IPs(to)
  }

  /** The changes an event handler logs, not yet numbered. */
  datatype Draft = Draft(op: Op, entry: Entry)

  function Drafts(op: Op, es: seq<Entry>): (ds: seq<Draft>)
    ensures |ds| == |es| && forall i :: 0 <= i < |es| ==> ds[i] == Draft(op, es[i])
  {
    seq(|es|, i requires 0 <= i < |es| => Draft(op, es[i]))
  }

  function Handle(ev: Event): seq<Draft> {
    match ev
    case Added(o) => Drafts(Set, Entries(o))
    case Updated(from, to) =>
      if Skipped(from, to) then [] else Drafts(Del, Entries(from)) + Drafts(Set, Entries(to))
    case Removed(d) => if d.Unrecognised? then [] else Drafts(Del, Entries(d.o))
  }

  function HandleAll(evs: seq<Event>): seq<Draft> {
    if evs == [] then [] else HandleAll(evs[..|evs| - 1]) + Handle(evs[|evs| - 1])
  }

  /** Every change a handler logs is one the replication protocol accepts. */
  lemma HandlersLogLoggable(ev: Event)
    ensures forall i :: 0 <= i < |Handle(ev)| ==> Loggable(Handle(ev)[i].op, Handle(ev)[i].entry)
  {}

  // ------------------------------------------------------------ the index of live objects

  type Live = map<Meta, Object>

  /** The informer's own view after an event. */
  function After(live: Live, ev: Event): Live {
    match ev
    case Added(o) => live[o.Owner() := o]
    case Updated(_, to) => live[to.Owner() := to]
    case Removed(d) => if d.Unrecognised? then live else live - {d.o.Owner()}
  }

  function AfterAll(evs: seq<Event>): Live {
    if evs == [] then map[] else After(AfterAll(evs[..|evs| - 1]), evs[|evs| - 1])
  }

  /** What informers promise: an added object is new, an update starts from the object last
      seen and keeps its identity, and a removed object is the one last seen. */
  ghost predicate Consistent(live: Live, ev: Event) {
    match ev
    case Added(o) => o.Owner() !in live
    case Updated(from, to) => from.Owner() == to.Owner() && from.Owner() in live && live[from.Owner()] == from
    case Removed(d) => !d.Unrecognised? ==> d.o.Owner() in live && live[d.o.Owner()] == d.o
  }

  ghost predicate WellKeyed(live: Live) {
    forall k :: k in live ==> live[k].Owner() == k
  }

  /** Live object `k` owns `ip`. */
  ghost predicate Holds(live: Live, k: Meta, ip: string) {
    k in live && Owns(live[k], ip)
  }

  /** No two live objects own the same address. */
  ghost predicate Disjoint(live: Live) {
    forall k, k', ip :: Holds(live, k, ip) && Holds(live, k', ip) ==> k == k'
  }

  /** The table holds an address exactly when some live object owns it, and then names that
      object. */
  ghost predicate Faithful(m: Table, live: Live) {
    && (forall k, ip :: Holds(live, k, ip) ==> ip in m && m[ip] == Entry(ip, k))
    && (forall ip :: ip in m ==> exists k :: Holds(live, k, ip))
  }

  function ApplyDraft(m: Table, d: Draft): Table { Apply(m, Change(0, d.op, d.entry)) }

  function ReplayDrafts(m: Table, ds: seq<Draft>): Table {
    if ds == [] then m else ApplyDraft(ReplayDrafts(m, ds[..|ds| - 1]), ds[|ds| - 1])
  }

  lemma {:induction false} ReplayDraftsConcat(m: Table, a: seq<Draft>, b: seq<Draft>)
    ensures ReplayDrafts(m, a + b) == ReplayDrafts(ReplayDrafts(m, a), b)
  {
    if b == [] {
      assert a + b == a;
    } else {
      assert (a + b)[..|a + b| - 1] == a + b[..|b| - 1];
      ReplayDraftsConcat(m, a, b[..|b| - 1]);
    }
  }

  lemma {:induction false} SetGet(m: Table, o: Object, n: nat, ip: string)
    requires n <= |Indexed(o)|
    ensures Get(ReplayDrafts(m, Drafts(Set, Entries(o))[..n]), ip) ==
            if ip in Indexed(o)[..n] then Some(Entry(ip, o.Owner())) else Get(m, ip)
  {
    hide Indexed, Get;
    var ds, ips := Drafts(Set, Entries(o)), Indexed(o);
    if n > 0 {
      hide ReplayDrafts;
      SetGet(m, o, n - 1, ip);
      GetStep(m, ds[..n], ip);
      assert ds[..n][..n - 1] == ds[..n - 1];
      assert ips[..n] == ips[..n - 1] + [ips[n - 1]];
    }
  }

  /** Setting all entries of one object. */
  lemma SetAll(m: Table, o: Object)
    ensures var m' := ReplayDrafts(m, Drafts(Set, Entries(o)));
            && (forall ip :: ip in m' <==> ip in m || ip in Indexed(o))
            && (forall ip :: ip in m' ==> m'[ip] == if ip in Indexed(o) then Entry(ip, o.Owner()) else m[ip])
  {
    hide ReplayDrafts, Indexed;
    var ds, n := Drafts(Set, Entries(o)), |Indexed(o)|;
    assert ds[..n] == ds && Indexed(o)[..n] == Indexed(o);
    var m' := ReplayDrafts(m, ds);
    forall ip
      ensures ip in m' <==> ip in m || ip in Indexed(o)
      ensures ip in m' ==> m'[ip] == if ip in Indexed(o) then Entry(ip, o.Owner()) else m[ip]
    {
      SetGet(m, o, n, ip);
    }
  }

  /** Deleting all entries of one object. */
  lemma {:induction false} DelAll(m: Table, o: Object, n: nat)
    requires n <= |Indexed(o)|
    ensures var m' := ReplayDrafts(m, Drafts(Del, Entries(o))[..n]);
            && (forall ip :: ip in m' <==> ip in m && ip !in Indexed(o)[..n])
            && (forall ip :: ip in m' ==> m'[ip] == m[ip])
  {
    if n > 0 {
      hide Indexed, Entries;
      DelAll(m, o, n - 1);
      var ds, ips := Drafts(Del, Entries(o)), Indexed(o);
      assert ds[..n][..n - 1] == ds[..n - 1];
      assert ips[..n] == ips[..n - 1] + [ips[n - 1]];
      assert ReplayDrafts(m, ds[..n]) == ReplayDrafts(m, ds[..n - 1]) - {ips[n - 1]};
    }
  }

  lemma SetObject(m: Table, live: Live, o: Object)
    requires Faithful(m, live) && o.Owner() !in live && Disjoint(live[o.Owner() := o])
    ensures Faithful(ReplayDrafts(m, Drafts(Set, Entries(o))), live[o.Owner() := o])
  {
    hide ReplayDrafts, IPs, Faithful, Disjoint;
    SetAll(m, o);
    OwnedFaithful(m, ReplayDrafts(m, Drafts(Set, Entries(o))), live, o);
  }

  /** A table extended by the addresses of a new object. */
  lemma OwnedFaithful(m: Table, m': Table, live: Live, o: Object)
    requires Faithful(m, live) && o.Owner() !in live && Disjoint(live[o.Owner() := o])
    requires forall ip :: ip in m' <==> ip in m || ip in Indexed(o)
    requires forall ip :: ip in m' ==> m'[ip] == if ip in Indexed(o) then Entry(ip, o.Owner()) else m[ip]
    ensures Faithful(m', live[o.Owner() := o])
  {
    hide Indexed;
    var k := o.Owner();
    var live' := live[k := o];
    forall k', ip | Holds(live', k', ip) ensures ip in m' && m'[ip] == Entry(ip, k') {
      if k' != k {
        assert Holds(live, k', ip);
        assert !Holds(live', k, ip);
      }
    }
    forall ip | ip in m' ensures exists k' :: Holds(live', k', ip) {
      if ip in Indexed(o) {
        assert Holds(live', k, ip);
      } else {
        var k' :| Holds(live, k', ip);
        assert Holds(live', k', ip);
      }
    }
  }

  lemma DelObject(m: Table, live: Live, o: Object)
    requires Faithful(m, live) && Disjoint(live) && o.Owner() in live && live[o.Owner()] == o
    ensures Faithful(ReplayDrafts(m, Drafts(Del, Entries(o))), live - {o.Owner()})
  {
    hide ReplayDrafts, IPs, Faithful, Disjoint;
    var ds := Drafts(Del, Entries(o));
    DelAll(m, o, |Indexed(o)|);
    assert ds[..|Indexed(o)|] == ds && Indexed(o)[..|Indexed(o)|] == Indexed(o);
    DisownedFaithful(m, ReplayDrafts(m, ds), live, o);
  }

  /** A table without the addresses of an object that is gone. */
  lemma DisownedFaithful(m: Table, m': Table, live: Live, o: Object)
    requires Faithful(m, live) && Disjoint(live) && o.Owner() in live && live[o.Owner()] == o
    requires forall ip :: ip in m' <==> ip in m && ip !in Indexed(o)
    requires forall ip :: ip in m' ==> m'[ip] == m[ip]
    ensures Faithful(m', live - {o.Owner()})
  {
    hide Indexed;
    var k := o.Owner();
    var live' := live - {k};
    forall k', ip | Holds(live', k', ip) ensures ip in m' && m'[ip] == Entry(ip, k') {
      assert Holds(live, k', ip);
      assert !Holds(live, k, ip);
    }
    forall ip | ip in m' ensures exists k' :: Holds(live', k', ip) {
      var k' :| Holds(live, k', ip);
      assert Holds(live', k', ip);
    }
  }

  /** The one way an update can leave the index wrong: it is skipped although the owned
      addresses are not the same. */
  ghost predicate Stalefying(from: Object, to: Object) {
    Skipped(from, to) && exists ip :: Owns(from, ip) != Owns(to, ip)
  }

  /** An update that keeps the version is never looked at. */
  lemma SameVersionSkipped(from: Object, to: Object)
    requires from.version == to.version
    ensures Handle(Updated(from, to)) == []
  {}

  /** One event keeps the index faithful exactly when it is not such an update. */
  lemma EventFaithful(m: Table, live: Live, ev: Event)
    requires WellKeyed(live) && Faithful(m, live) && Consistent(live, ev)
    requires Disjoint(live) && Disjoint(After(live, ev))
    ensures WellKeyed(After(live, ev))
    ensures Faithful(ReplayDrafts(m, Handle(ev)), After(live, ev)) <==> !(ev.Updated? && Stalefying(ev.from, ev.to))
  {
    match ev
    case Added(o) => SetObject(m, live, o);
    case Removed(d) =>
      if !d.Unrecognised? {
        DelObject(m, live, d.o);
      }
    case Updated(from, to) =>
      if Skipped(from, to) {
        SkippedUpdate(m, live, from, to);
      } else {
        var k := to.Owner();
        DelObject(m, live, from);
        ReplayDraftsConcat(m, Drafts(Del, Entries(from)), Drafts(Set, Entries(to)));
        assert (live - {k})[k := to] == live[k := to];
        SetObject(ReplayDrafts(m, Drafts(Del, Entries(from))), live - {k}, to);
      }
  }

  lemma SkippedUpdate(m: Table, live: Live, from: Object, to: Object)
    requires Faithful(m, live) && Consistent(live, Updated(from, to)) && Skipped(from, to)
    requires Disjoint(live) && Disjoint(live[to.Owner() := to])
    ensures Faithful(m, live[to.Owner() := to]) <==> !Stalefying(from, to)
  {
    hide Owns;
    var k := to.Owner();
    var live' := live[k := to];
    assert forall k', ip :: k' != k ==> (Holds(live, k', ip) <==> Holds(live', k', ip));
    if Stalefying(from, to) {
      var ip :| Owns(from, ip) != Owns(to, ip);
      if Owns(to, ip) {
        NewAddressMissed(m, live, from, to, ip);
      } else {
        OldAddressKept(m, live, from, to, ip);
      }
    } else {
      assert forall ip :: Holds(live, k, ip) <==> Holds(live', k, ip);
      forall ip | ip in m ensures exists k' :: Holds(live', k', ip) {
        var k' :| Holds(live, k', ip);
        assert Holds(live', k', ip);
      }
    }
  }

  /** Nobody owned the address before the update, so the table does not have it. */
  lemma NewAddressMissed(m: Table, live: Live, from: Object, to: Object, ip: string)
    requires Faithful(m, live) && Consistent(live, Updated(from, to)) && Disjoint(live[to.Owner() := to])
    requires !Owns(from, ip) && Owns(to, ip)
    ensures !Faithful(m, live[to.Owner() := to])
  {
    hide Owns;
    var live' := live[to.Owner() := to];
    assert Holds(live', to.Owner(), ip);
    assert forall k' :: Holds(live, k', ip) ==> Holds(live', k', ip);
    assert forall k' :: !Holds(live, k', ip);
  }

  /** The table still has the address, but nobody owns it after the update. */
  lemma OldAddressKept(m: Table, live: Live, from: Object, to: Object, ip: string)
    requires Faithful(m, live) && Consistent(live, Updated(from, to)) && Disjoint(live)
    requires Owns(from, ip) && !Owns(to, ip)
    ensures !Faithful(m, live[to.Owner() := to])
  {
    hide Owns;
    var live' := live[to.Owner() := to];
    assert Holds(live, to.Owner(), ip);
    assert forall k' :: Holds(live', k', ip) ==> Holds(live, k', ip);
    assert forall k' :: !Holds(live', k', ip);
  }

  /** A sequence of events as an informer would produce it. */
  ghost predicate GoodEvents(evs: seq<Event>) {
    evs != [] ==>
      var front, ev := evs[..|evs| - 1], evs[|evs| - 1];
      && GoodEvents(front)
      && Consistent(AfterAll(front), ev)
      && Disjoint(AfterAll(evs))
      && !(ev.Updated? && Stalefying(ev.from, ev.to))
  }

  /** Index faithfulness over whole event sequences. */
  lemma {:induction false} IndexFaithful(evs: seq<Event>)
    requires GoodEvents(evs)
    ensures WellKeyed(AfterAll(evs)) && Disjoint(AfterAll(evs))
    ensures Faithful(ReplayDrafts(map[], HandleAll(evs)), AfterAll(evs))
  {
    if evs != [] {
      var front, ev := evs[..|evs| - 1], evs[|evs| - 1];
      IndexFaithful(front);
      ReplayDraftsConcat(map[], HandleAll(front), Handle(ev));
      EventFaithful(ReplayDrafts(map[], HandleAll(front)), AfterAll(front), ev);
    }
  }

  /** Addresses must not be shared: no table at all can be faithful to two owners of one
      address, so the disjointness asked of an event sequence is needed. */
  lemma FaithfulNeedsDisjoint(m: Table, live: Live)
    requires Faithful(m, live)
    ensures Disjoint(live)
  {
    forall k, k', ip | Holds(live, k, ip) && Holds(live, k', ip) ensures k == k' {
      assert m[ip] == Entry(ip, k) && m[ip] == Entry(ip, k');
    }
  }

  /** An update the Kubernetes API allows never leaves the index wrong: an unchanged version
      means an unchanged object, and a pod cannot change its host-network flag. */
  lemma ApiUpdatesAreSafe(from: Object, to: Object)
    requires from.version == to.version ==> from == to
    requires from.PodObject? && to.PodObject? ==> from.hostNetwork == to.hostNetwork
    requires from.Owner() == to.Owner()
    ensures !Stalefying(from, to)
  {
    if Skipped(from, to) && from != to {
      assert Indexed(from) == Indexed(to);
      assert forall ip :: Owns(from, ip) <==> ip in Indexed(from);
      assert forall ip :: Owns(to, ip) <==> ip in Indexed(to);
    }
  }

  /** A pod that is moved to the host network without changing its addresses: the update is
      skipped and the address stays indexed although nobody owns it any more. */
  lemma SkippedHostNetworkFlip(m: Table, live: Live)
    requires var from := PodObject("ns", "p", "1", false, Some(["10.0.0.1"]), "");
             Faithful(m, live) && WellKeyed(live) && Disjoint(live) && Pod("ns", "p") in live && live[Pod("ns", "p")] == from
    ensures var from := PodObject("ns", "p", "1", false, Some(["10.0.0.1"]), "");
            var to := PodObject("ns", "p", "2", true, Some(["10.0.0.1"]), "");
            && Consistent(live, Updated(from, to))
            && !Faithful(ReplayDrafts(m, Handle(Updated(from, to))), After(live, Updated(from, to)))
  {
    var from := PodObject("ns", "p", "1", false, Some(["10.0.0.1"]), "");
    var to := PodObject("ns", "p", "2", true, Some(["10.0.0.1"]), "");
    OldAddressKept(m, live, from, to, "10.0.0.1");
  }

  // ------------------------------------------------------------ two informers at once

  /** `c` interleaves `a` and `b`, each in its own order. The handlers of pods and nodes run on
      two goroutines, and an update logs its deletions and its settings in two calls; every
      order in which their calls can get at the log is an interleaving. */
  ghost predicate Interleaves(a: seq<Draft>, b: seq<Draft>, c: seq<Draft>)
    decreases |c|
  {
    if c == [] then a == [] && b == []
    else
      var front, d := c[..|c| - 1], c[|c| - 1];
      || (a != [] && a[|a| - 1] == d && Interleaves(a[..|a| - 1], b, front))
      || (b != [] && b[|b| - 1] == d && Interleaves(a, b[..|b| - 1], front))
  }

  /** Some draft sets or deletes `ip`. */
  ghost predicate Names(ds: seq<Draft>, ip: string) {
    exists i :: 0 <= i < |ds| && ds[i].op != Invalid && ds[i].entry.ip == ip
  }

  function Get(m: Table, ip: string): Option<Entry> { if ip in m then Some(m[ip]) else None }

  lemma NamesStep(ds: seq<Draft>, ip: string)
    requires ds != []
    ensures var d := ds[|ds| - 1];
            Names(ds, ip) <==> Names(ds[..|ds| - 1], ip) || (d.op != Invalid && d.entry.ip == ip)
  {
    var front := ds[..|ds| - 1];
    assert forall i :: 0 <= i < |front| ==> front[i] == ds[i];
    if Names(front, ip) {
      var i :| 0 <= i < |front| && front[i].op != Invalid && front[i].entry.ip == ip;
      assert ds[i].op != Invalid;
    }
  }

  /** The last draft that names an address decides what the table says about it. */
  lemma GetStep(m: Table, ds: seq<Draft>, ip: string)
    requires ds != []
    ensures var d := ds[|ds| - 1];
            Get(ReplayDrafts(m, ds), ip) ==
            if d.op == Invalid || d.entry.ip != ip then Get(ReplayDrafts(m, ds[..|ds| - 1]), ip)
            else if d.op == Set then Some(d.entry) else None
  {}

  /** An interleaving says about an address what one of its two parts says, and what a part
      says alone if the other never names it. */
  lemma {:induction false} MergedGet(a: seq<Draft>, b: seq<Draft>, c: seq<Draft>, ip: string)
    requires Interleaves(a, b, c)
    ensures var x := Get(ReplayDrafts(map[], c), ip);
            var y, z := Get(ReplayDrafts(map[], a), ip), Get(ReplayDrafts(map[], b), ip);
            (x == y || x == z) && (!Names(b, ip) ==> x == y) && (!Names(a, ip) ==> x == z)
    decreases |c|
  {
    hide ReplayDrafts, Names, Get;
    if c != [] {
      var front, d := c[..|c| - 1], c[|c| - 1];
      GetStep(map[], c, ip);
      if a != [] && a[|a| - 1] == d && Interleaves(a[..|a| - 1], b, front) {
        MergedGet(a[..|a| - 1], b, front, ip);
        NamesStep(a, ip);
        GetStep(map[], a, ip);
      } else {
        MergedGet(a, b[..|b| - 1], front, ip);
        NamesStep(b, ip);
        GetStep(map[], b, ip);
      }
    }
  }

  lemma {:induction false} ConcatInterleaves(a: seq<Draft>, b: seq<Draft>)
    ensures Interleaves(a, b, a + b) && Interleaves(b, a, a + b)
    decreases |a| + |b|
  {
    if b != [] {
      ConcatInterleaves(a, b[..|b| - 1]);
      assert (a + b)[..|a + b| - 1] == a + b[..|b| - 1];
    } else if a != [] {
      ConcatInterleaves(a[..|a| - 1], b);
      assert a + b == a && a[..|a| - 1] + b == a[..|a| - 1];
    }
  }

  lemma {:induction false} InterleavesSwap(a: seq<Draft>, b: seq<Draft>, c: seq<Draft>)
    requires Interleaves(a, b, c)
    ensures Interleaves(b, a, c)
    decreases |c|
  {
    if c != [] {
      var front, d := c[..|c| - 1], c[|c| - 1];
      if a != [] && a[|a| - 1] == d && Interleaves(a[..|a| - 1], b, front) {
        InterleavesSwap(a[..|a| - 1], b, front);
      } else {
        InterleavesSwap(a, b[..|b| - 1], front);
      }
    }
  }

  /** What is in a replayed table was named. */
  lemma {:induction false} InMeansNamed(ds: seq<Draft>, ip: string)
    requires ip in ReplayDrafts(map[], ds)
    ensures Names(ds, ip)
  {
    NamesStep(ds, ip);
    if !(ds[|ds| - 1].op != Invalid && ds[|ds| - 1].entry.ip == ip) {
      InMeansNamed(ds[..|ds| - 1], ip);
    }
  }

  /** A list that names an address forgets what the table said about it before. */
  lemma {:induction false} NamedForgets(m: Table, ds: seq<Draft>, ip: string)
    requires Names(ds, ip)
    ensures Get(ReplayDrafts(m, ds), ip) == Get(ReplayDrafts(map[], ds), ip)
  {
    hide Names, Get;
    assert ds != [] by { NamesNone(ip); }
    GetStep(m, ds, ip);
    GetStep(map[], ds, ip);
    NamesStep(ds, ip);
    if !(ds[|ds| - 1].op != Invalid && ds[|ds| - 1].entry.ip == ip) {
      NamedForgets(m, ds[..|ds| - 1], ip);
    }
  }

  lemma NamesNone(ip: string)
    ensures !Names([], ip)
  {}

  /** Every object the events speak of is a pod, or every one is a node. */
  ghost predicate AllOf(evs: seq<Event>, pods: bool) {
    forall i :: 0 <= i < |evs| ==> Concerns(evs[i], pods)
  }

  predicate Concerns(ev: Event, pods: bool) {
    match ev
    case Added(o) => o.PodObject? == pods
    case Updated(from, to) => from.PodObject? == pods && to.PodObject? == pods
    case Removed(d) => d.Unrecognised? || d.o.PodObject? == pods
  }

  lemma {:induction false} LiveOf(evs: seq<Event>, pods: bool)
    requires AllOf(evs, pods)
    ensures forall k :: k in AfterAll(evs) ==> k.Pod? == pods && k != Unknown
  {
    if evs != [] {
      LiveOf(evs[..|evs| - 1], pods);
      assert Concerns(evs[|evs| - 1], pods);
    }
  }

  /** The events of the pod informer and of the node informer, each as it would produce them. */
  ghost predicate GoodStreams(pods: seq<Event>, nodes: seq<Event>) {
    GoodEvents(pods) && GoodEvents(nodes) && AllOf(pods, true) && AllOf(nodes, false)
  }

  function Everything(pods: seq<Event>, nodes: seq<Event>): Live { AfterAll(pods) + AfterAll(nodes) }

  /** Both informers have logged something about the address. */
  ghost predicate Contested(pods: seq<Event>, nodes: seq<Event>, ip: string) {
    Names(HandleAll(pods), ip) && Names(HandleAll(nodes), ip)
  }

  /** No live object owns an address that both informers have logged. */
  ghost predicate Uncontested(pods: seq<Event>, nodes: seq<Event>) {
    forall k, ip :: Holds(Everything(pods, nodes), k, ip) ==> !Contested(pods, nodes, ip)
  }

  lemma HoldsEither(pods: seq<Event>, nodes: seq<Event>, k: Meta, ip: string)
    requires GoodStreams(pods, nodes)
    ensures Holds(Everything(pods, nodes), k, ip) <==> Holds(AfterAll(pods), k, ip) || Holds(AfterAll(nodes), k, ip)
    ensures k in AfterAll(pods) ==> k.Pod?
    ensures k in AfterAll(nodes) ==> k.Node?
  {
    hide GoodEvents, AfterAll, Indexed;
    LiveOf(pods, true);
    LiveOf(nodes, false);
  }

  /** What one part of an interleaving knows, the interleaving knows, if the other part never
      names the address. */
  lemma MergedHolds(evs: seq<Event>, other: seq<Draft>, c: seq<Draft>, k: Meta, ip: string)
    requires GoodEvents(evs) && Interleaves(HandleAll(evs), other, c) && Holds(AfterAll(evs), k, ip) && !Names(other, ip)
    ensures Get(ReplayDrafts(map[], c), ip) == Some(Entry(ip, k))
  {
    hide GoodEvents, AfterAll, Indexed, HandleAll, Interleaves, ReplayDrafts;
    IndexFaithful(evs);
    MergedGet(HandleAll(evs), other, c, ip);
  }

  lemma HeldIsNamed(evs: seq<Event>, k: Meta, ip: string)
    requires GoodEvents(evs) && Holds(AfterAll(evs), k, ip)
    ensures Names(HandleAll(evs), ip)
  {
    hide GoodEvents, AfterAll, Indexed, HandleAll, ReplayDrafts;
    IndexFaithful(evs);
    InMeansNamed(HandleAll(evs), ip);
  }

  /** Whatever order the two goroutines log in. */
  lemma MergeFaithful(pods: seq<Event>, nodes: seq<Event>, c: seq<Draft>)
    requires GoodStreams(pods, nodes) && Uncontested(pods, nodes) && Interleaves(HandleAll(pods), HandleAll(nodes), c)
    ensures Faithful(ReplayDrafts(map[], c), Everything(pods, nodes))
  {
    hide GoodEvents, AfterAll, Holds, HandleAll, Interleaves, ReplayDrafts, Everything, Names, AllOf;
    var m, live := ReplayDrafts(map[], c), Everything(pods, nodes);
    forall k, ip | Holds(live, k, ip) ensures ip in m && m[ip] == Entry(ip, k) {
      assert !Contested(pods, nodes, ip);
      HoldsEither(pods, nodes, k, ip);
      if Holds(AfterAll(pods), k, ip) {
        HeldIsNamed(pods, k, ip);
        MergedHolds(pods, HandleAll(nodes), c, k, ip);
      } else {
        HeldIsNamed(nodes, k, ip);
        InterleavesSwap(HandleAll(pods), HandleAll(nodes), c);
        MergedHolds(nodes, HandleAll(pods), c, k, ip);
      }
    }
    forall ip | ip in m ensures exists k :: Holds(live, k, ip) {
      MergedGet(HandleAll(pods), HandleAll(nodes), c, ip);
      IndexFaithful(pods);
      IndexFaithful(nodes);
      if ip in ReplayDrafts(map[], HandleAll(pods)) {
        var k :| Holds(AfterAll(pods), k, ip);
        HoldsEither(pods, nodes, k, ip);
      } else {
        var k :| Holds(AfterAll(nodes), k, ip);
        HoldsEither(pods, nodes, k, ip);
      }
    }
  }

  /** Let the informer that does not own a contested address log last: the table then says
      about it what that informer's own log says, which is not the owner. */
  lemma LastInformerWins(mine: seq<Event>, other: seq<Event>, k: Meta, ip: string)
    requires GoodEvents(mine) && GoodEvents(other) && Holds(AfterAll(mine), k, ip) && k !in AfterAll(other)
    requires Names(HandleAll(other), ip)
    ensures Get(ReplayDrafts(map[], HandleAll(mine) + HandleAll(other)), ip) != Some(Entry(ip, k))
  {
    hide GoodEvents, AfterAll, Indexed, HandleAll, ReplayDrafts, Names;
    var a, b := HandleAll(mine), HandleAll(other);
    ReplayDraftsConcat(map[], a, b);
    NamedForgets(ReplayDrafts(map[], a), b, ip);
    IndexFaithful(other);
    var t := ReplayDrafts(map[], b);
    if ip in t {
      var k' :| Holds(AfterAll(other), k', ip);
      assert t[ip] == Entry(ip, k');
    }
  }

  /** Exactly when concurrency is harmless: whatever order the two informers log in, the table
      is faithful to all live objects, if and only if no live object owns an address
      that both of them have logged. An address that moves between a pod and a node
      can therefore be lost. */
  lemma MergeFaithfulIff(pods: seq<Event>, nodes: seq<Event>)
    requires GoodStreams(pods, nodes)
    ensures (forall c :: Interleaves(HandleAll(pods), HandleAll(nodes), c) ==> Faithful(ReplayDrafts(map[], c), Everything(pods, nodes)))
            <==> Uncontested(pods, nodes)
  {
    hide GoodEvents, AfterAll, Holds, HandleAll, Interleaves, ReplayDrafts, Everything, Names, AllOf;
    var a, b, live := HandleAll(pods), HandleAll(nodes), Everything(pods, nodes);
    if Uncontested(pods, nodes) {
      forall c | Interleaves(a, b, c) ensures Faithful(ReplayDrafts(map[], c), live) {
        MergeFaithful(pods, nodes, c);
      }
    } else {
      var k, ip :| Holds(live, k, ip) && Contested(pods, nodes, ip);
      HoldsEither(pods, nodes, k, ip);
      if Holds(AfterAll(pods), k, ip) {
        assert k in AfterAll(pods) && k !in AfterAll(nodes) by { HoldsIn(pods, k, ip); }
        LastInformerWins(pods, nodes, k, ip);
        ConcatInterleaves(a, b);
        assert Interleaves(a, b, a + b) && !Faithful(ReplayDrafts(map[], a + b), live);
      } else {
        assert k in AfterAll(nodes) && k !in AfterAll(pods) by { HoldsIn(nodes, k, ip); }
        LastInformerWins(nodes, pods, k, ip);
        ConcatInterleaves(b, a);
        assert Interleaves(a, b, b + a) && !Faithful(ReplayDrafts(map[], b + a), live);
      }
    }
  }

  lemma OneEvent(e: Event)
    ensures HandleAll([e]) == Handle(e) && AfterAll([e]) == After(map[], e)
  {
    hide Handle, After;
    assert [e][..0] == [];
    assert HandleAll([e]) == [] + Handle(e);
  }

  lemma TwoEvents(e: Event, e': Event)
    ensures HandleAll([e, e']) == Handle(e) + Handle(e') && AfterAll([e, e']) == After(After(map[], e), e')
  {
    hide Handle, After;
    OneEvent(e);
    assert [e, e'][..1] == [e];
  }

  /** An instance: a pod goes and a node takes over its address. If the pod informer logs last,
      the address is lost although the node is live. */
  lemma MovedAddressLost(pod: Object, node: Object, ip: string)
    requires pod.PodObject? && node.NodeObject? && Indexed(pod) == Indexed(node) == [ip]
    ensures var pods, nodes := [Added(pod), Removed(Known(pod))], [Added(node)];
            var c := HandleAll(nodes) + HandleAll(pods);
            && Interleaves(HandleAll(pods), HandleAll(nodes), c)
            && Holds(Everything(pods, nodes), node.Owner(), ip)
            && ip !in ReplayDrafts(map[], c)
  {
    hide Indexed, ReplayDrafts, Interleaves, HandleAll, AfterAll;
    var pods, nodes := [Added(pod), Removed(Known(pod))], [Added(node)];
    OneEvent(Added(node));
    TwoEvents(Added(pod), Removed(Known(pod)));
    var c := HandleAll(nodes) + HandleAll(pods);
    ConcatInterleaves(HandleAll(nodes), HandleAll(pods));
    assert c[|c| - 1] == Draft(Del, Entry(ip, pod.Owner()));
    GetStep(map[], c, ip);
  }

  lemma HoldsIn(evs: seq<Event>, k: Meta, ip: string)
    requires Holds(AfterAll(evs), k, ip)
    ensures k in AfterAll(evs)
  {}

  // ---------------------------------------------------------------------- end to end

  /** The changes of a history without their numbers. */
  function Unnumbered(h: seq<Change>): (ds: seq<Draft>)
    ensures |ds| == |h| && forall i :: 0 <= i < |h| ==> ds[i] == Draft(h[i].op, h[i].entry)
  {
    seq(|h|, i requires 0 <= i < |h| => Draft(h[i].op, h[i].entry))
  }

  lemma {:induction false} ReplayUnnumbered(h: seq<Change>)
    ensures Replay(map[], h) == ReplayDrafts(map[], Unnumbered(h))
  {
    if h != [] {
      ReplayUnnumbered(h[..|h| - 1]);
      assert Unnumbered(h)[..|h| - 1] == Unnumbered(h[..|h| - 1]);
    }
  }

  /** The agent's cache belongs to the controller's period and has the whole of a history that
      interleaves what the handlers logged. */
  ghost predicate CaughtUpWith(ls: seq<SysLabel>, pods: seq<Event>, nodes: seq<Event>) {
    var s := SysRun(ls);
    && s.agent.period == s.Period() && s.agent.revision == |s.server.history|
    && Interleaves(HandleAll(pods), HandleAll(nodes), Unnumbered(s.server.history))
  }

  /** What the agent should say about an address of a live object, field by field. */
  predicate Describes(info: IPInfo, ip: string, o: Object) {
    && info.ip == ip
    && match o
       case PodObject(namespace, name, _, _, _, _) =>
         info.kind == PodIP && info.podNamespace == namespace && info.podName == name && info.nodeName == ""
       case NodeObject(name, _, _) =>
         info.kind == NodeIP && info.nodeName == name && info.podNamespace == "" && info.podName == ""
  }

  lemma InfoDescribes(ip: string, o: Object)
    ensures ToInfo(Entry(ip, o.Owner())).Some? && Describes(ToInfo(Entry(ip, o.Owner())).value, ip, o)
  {}

  /** From events to the agent: when what the controller has numbered is some interleaving of
      what the two informers' handlers logged, and the agent has caught up with it, the
      agent knows exactly the addresses the live objects own, and describes the right owner. */
  lemma AgentKnowsLiveObjects(ls: seq<SysLabel>, pods: seq<Event>, nodes: seq<Event>)
    requires GoodStreams(pods, nodes) && Uncontested(pods, nodes)
    requires CaughtUpWith(ls, pods, nodes)
    ensures var known, live := SysRun(ls).agent.entries, Everything(pods, nodes);
            && (forall k, ip :: Holds(live, k, ip) ==> ip in known && Describes(known[ip], ip, live[k]))
            && (forall ip :: ip in known ==> exists k :: Holds(live, k, ip))
  {
    hide Replay, SysRun, HandleAll, AfterAll, GoodEvents, Owns, Unnumbered, Interleaves, Uncontested, ToInfo, Describes;
    ReplicaAgreement(ls);
    var s, live := SysRun(ls), Everything(pods, nodes);
    MergeFaithful(pods, nodes, Unnumbered(s.server.history));
    assert s.server.history[..|s.server.history|] == s.server.history;
    ReplayUnnumbered(s.server.history);
    var m := Replay(map[], s.server.history);
    assert Faithful(m, live);
    forall k, ip | Holds(live, k, ip)
      ensures ip in m && m[ip] == Entry(ip, k) && k != Unknown && ToInfo(m[ip]).Some? && Describes(ToInfo(m[ip]).value, ip, live[k])
    {
      HoldsEither(pods, nodes, k, ip);
      IndexFaithful(pods);
      IndexFaithful(nodes);
      InfoDescribes(ip, live[k]);
    }
  }

  /** What a lookup at the agent then means: it answers with the kind, name and namespace of
      the live object that owns the address, and with nothing exactly when nobody does. */
  lemma LookupFindsOwner(ls: seq<SysLabel>, pods: seq<Event>, nodes: seq<Event>, ip: string)
    requires GoodStreams(pods, nodes) && Uncontested(pods, nodes) && CaughtUpWith(ls, pods, nodes)
    ensures var answer, live := Answer(SysRun(ls).agent.entries, ip), Everything(pods, nodes);
            && (answer == None <==> forall k :: !Holds(live, k, ip))
            && (forall k :: Holds(live, k, ip) ==> answer.Some? && Describes(answer.value, ip, live[k]))
  {
    hide SysRun, Everything, GoodStreams, Uncontested, CaughtUpWith, Owns, Describes;
    AgentKnowsLiveObjects(ls, pods, nodes);
  }
}
