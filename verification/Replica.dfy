/** The agent side: the replica it keeps, and the connection state machine that feeds it. */
module Replica {
  import opened ChangeLog
  import opened Options

  datatype IPType = NodeIP | PodIP

  datatype IPInfo = IPInfo(kind: IPType, ip: string, nodeName: string, podName: string, podNamespace: string)

  type Cache = map<string, IPInfo>

  /** entry2IPInfo: an entry without an owner has no info. */
  function ToInfo(e: Entry): Option<IPInfo> {
    match e.meta
    case Node(name) => Some(IPInfo(NodeIP, e.ip, name, "", ""))
    case Pod(namespace, name) => Some(IPInfo(PodIP, e.ip, "", name, namespace))
    case Unknown => None
  }

  /** The infos of the entries that have one, in order. */
  function ToInfos(es: seq<Entry>): seq<IPInfo> {
    if es == [] then []
    else
      var rest := ToInfos(es[..|es| - 1]);
      match ToInfo(es[|es| - 1])
      case None => rest
      case Some(info) => rest + [info]
  }

  /** A table of entries as the agent presents it. */
  function Present(m: Table): Cache {
    map ip | ip in m && m[ip].meta != Unknown :: ToInfo(m[ip]).value
  }

  /** The cache built from a list of infos; a later info replaces an earlier one. */
  function FromInfos(infos: seq<IPInfo>): Cache {
    if infos == [] then map[] else FromInfos(infos[..|infos| - 1])[infos[|infos| - 1].ip := infos[|infos| - 1]]
  }

  function ApplyInfo(cache: Cache, op: Op, info: IPInfo): Cache {
    match op
    case Set => cache[info.ip := info]
    case Del => cache - {info.ip}
    case Invalid => cache
  }

  /** What the cache answers for an address. */
  function Answer(cache: Cache, ip: string): Option<IPInfo> {
    if ip in cache then Some(cache[ip]) else None
  }

  /** `es` lists the entries of `m`, in any order and possibly with repeats. */
  ghost predicate Lists(es: seq<Entry>, m: Table) {
    && (forall e :: e in es ==> e.ip in m && m[e.ip] == e)
    && (forall ip :: ip in m ==> m[ip] in es)
  }

  ghost predicate Keyed(m: Table) {
    forall ip :: ip in m ==> m[ip].ip == ip
  }

  lemma {:induction false} FromInfosLookup(es: seq<Entry>, m: Table)
    requires forall e :: e in es ==> e.ip in m && m[e.ip] == e
    ensures forall ip :: ip in FromInfos(ToInfos(es)) <==> ip in m && m[ip].meta != Unknown && m[ip] in es && m[ip].ip == ip
    ensures forall ip :: ip in FromInfos(ToInfos(es)) ==> FromInfos(ToInfos(es))[ip] == ToInfo(m[ip]).value
  {
    if es != [] {
      var n := |es| - 1;
      var front := es[..n];
      assert es == front + [es[n]];
      FromInfosLookup(front, m);
      var infos := ToInfos(es);
      if es[n].meta != Unknown {
        assert infos[..|infos| - 1] == ToInfos(front);
      }
    }
  }

  /** Whatever order the snapshot is listed in, the agent rebuilds exactly the snapshot. */
  lemma ListRoundTrip(es: seq<Entry>, m: Table)
    requires Keyed(m) && Lists(es, m)
    ensures FromInfos(ToInfos(es)) == Present(m)
  {
    FromInfosLookup(es, m);
  }

  /** Applying a change commutes with presenting the table. */
  lemma ApplyPresent(m: Table, c: Change)
    requires c.entry.meta != Unknown
    ensures Present(Apply(m, c)) == ApplyInfo(Present(m), c.op, ToInfo(c.entry).value)
  {}

  /** The process-wide cache of the agent. */
  class CacheHolder {
    var period: nat
    var revision: nat
    var entries: Cache

    constructor ()
      ensures period == 0 && revision == 0 && entries == map[]
    {
      period, revision, entries := 0, 0, map[];
    }

    method GetIPInfo(ip: string) returns (info: Option<IPInfo>)
      ensures info == Answer(entries, ip)
    {
      if ip in entries {
        info := Some(entries[ip]);
      } else {
        info := None;
      }
    }

    method UpdateIPCache(period: nat, revision: nat, infos: seq<IPInfo>)
      modifies this
      ensures this.period == period && this.revision == revision && entries == FromInfos(infos)
    {
      var m: Cache := map[];
      for i := 0 to |infos|
        invariant m == FromInfos(infos[..i])
      {
        m := m[infos[i].ip := infos[i]];
        assert infos[..i + 1][..i] == infos[..i];
      }
      assert infos[..|infos|] == infos;
      this.period, this.revision, this.entries := period, revision, m;
    }

    method ApplyIPCacheChange(revision: nat, op: Op, info: IPInfo)
      modifies this
      ensures period == old(period) && this.revision == revision
      ensures entries == ApplyInfo(old(entries), op, info)
    {
      this.revision := revision;
      match op {
        case Set => entries := entries[info.ip := info];
        case Del => entries := entries - {info.ip};
        case Invalid =>
      }
    }
  }
}
