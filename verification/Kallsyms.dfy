/** Kernel symbol lookup: the cached binary search and the linear scan over the same table. */
module Kallsyms {

  const TWO63 := 0x8000_0000_0000_0000
  const TWO64 := 0x1_0000_0000_0000_0000

  type Addr = x: int | 0 <= x < TWO64

  datatype Symbol = Symbol(start: Addr, kind: string, name: string, origin: string, offset: int)

  /** `Crash` is an index out of range. */
  datatype Outcome = Found(sym: Symbol) | NotFound | OutOfRange | Crash

  ghost predicate Sorted(t: seq<Symbol>) {
    forall i, j :: 0 <= i < j < |t| ==> t[i].start <= t[j].start
  }

  /** The conversion of an unsigned difference to a signed word. */
  function ToInt(d: Addr): int { if d < TWO63 then d else d - TWO64 }

  /** The answer for entry `i`; the kind field is filled with the name. */
  function Answer(t: seq<Symbol>, i: nat, pt: Addr): Symbol
    requires i < |t| && t[i].start <= pt
  {
    Symbol(t[i].start, t[i].name, t[i].name, t[i].origin, ToInt(pt - t[i].start))
  }

  // -------------------------------------------------------------------- binary search

  /** Where the bisection stops: on an exact hit, or with the two ends together. */
  function Bisect(t: seq<Symbol>, pt: Addr, i: nat, j: nat): (r: (nat, bool))
    requires i <= j < |t|
    ensures r.0 < |t|
    decreases j - i
  {
    if i == j then (i, false)
    else
      var mid := i + (j - i) / 2;
      if pt < t[mid].start then Bisect(t, pt, i, mid)
      else if pt > t[mid].start then Bisect(t, pt, mid + 1, j)
      else (mid, true)
  }

  /** The entry the cached lookup settles on, or -1. */
  function Index(t: seq<Symbol>, pt: Addr): (k: int)
    requires t != []
    ensures -1 <= k < |t|
  {
    var (i, hit) := Bisect(t, pt, 0, |t| - 1);
    if hit then i
    else if pt >= t[i].start then i
    else if i >= 1 && pt > t[i - 1].start then i - 1
    else -1
  }

  function Lookup(t: seq<Symbol>, pt: Addr): Outcome {
    if t == [] then Crash
    else
      var k := Index(t, pt);
      if k == -1 || t[k].start > pt then NotFound else Found(Answer(t, k, pt))
  }

  lemma BisectStep(t: seq<Symbol>, pt: Addr, i: nat, j: nat)
    requires i <= j < |t|
    ensures Bisect(t, pt, i, j) ==
            if i == j then (i, false)
            else
              var mid := i + (j - i) / 2;
              if pt < t[mid].start then Bisect(t, pt, i, mid)
              else if pt > t[mid].start then Bisect(t, pt, mid + 1, j)
              else (mid, true)
  {}

  /** The two tests after a bisection that ended with its ends together. */
  lemma Settle(t: seq<Symbol>, pt: Addr, i: nat)
    requires t != [] && Bisect(t, pt, 0, |t| - 1) == (i, false)
    ensures i < |t|
    ensures Index(t, pt) == if pt >= t[i].start then i
                            else if i >= 1 && pt > t[i - 1].start && pt < t[i].start then i - 1
                            else -1
  {
    hide Bisect;
  }

  lemma Hit(t: seq<Symbol>, pt: Addr, i: nat)
    requires t != [] && Bisect(t, pt, 0, |t| - 1) == (i, true)
    ensures Index(t, pt) == i
  {
    hide Bisect;
  }

  /** What the bisection knows between its ends. */
  ghost predicate Bracketed(t: seq<Symbol>, pt: Addr, i: nat, j: nat) {
    && i <= j < |t|
    && (forall k :: 0 <= k < i ==> t[k].start < pt)
    && (forall k :: j <= k < |t| && j < |t| - 1 ==> pt < t[k].start)
  }

  lemma {:induction false} BisectBrackets(t: seq<Symbol>, pt: Addr, i: nat, j: nat)
    requires Sorted(t) && Bracketed(t, pt, i, j)
    ensures var (k, hit) := Bisect(t, pt, i, j);
            if hit then t[k].start == pt else Bracketed(t, pt, k, k)
    decreases j - i
  {
    if i < j {
      var mid := i + (j - i) / 2;
      if pt < t[mid].start {
        BisectBrackets(t, pt, i, mid);
      } else if pt > t[mid].start {
        BisectBrackets(t, pt, mid + 1, j);
      }
    }
  }

  /** Entry `k` is the nearest at or below `pt`. */
  ghost predicate Nearest(t: seq<Symbol>, pt: Addr, k: int) {
    && 0 <= k < |t| && t[k].start <= pt
    && forall j :: 0 <= j < |t| ==> !(t[k].start < t[j].start <= pt)
  }

  /** The search finds the nearest entry, and finds nothing exactly when `pt` precedes them
      all. Unless it hits an address exactly, the entry is the last of its start address. */
  lemma IndexIsNearest(t: seq<Symbol>, pt: Addr)
    requires Sorted(t) && t != []
    ensures Index(t, pt) == -1 <==> pt < t[0].start
    ensures Index(t, pt) >= 0 ==> Nearest(t, pt, Index(t, pt))
    ensures Index(t, pt) >= 0 && t[Index(t, pt)].start < pt && Index(t, pt) + 1 < |t| ==> pt < t[Index(t, pt) + 1].start
  {
    BisectBrackets(t, pt, 0, |t| - 1);
    hide Bisect;
  }

  // ----------------------------------------------------------------------- linear scan

  function ScanFrom(t: seq<Symbol>, pt: Addr, idx: nat): Outcome
    requires idx <= |t|
    decreases |t| - idx
  {
    if idx == |t| then NotFound
    else if t[idx].start <= pt then
      if idx + 1 == |t| then Crash
      else if t[idx + 1].start > pt then Found(Answer(t, idx, pt))
      else ScanFrom(t, pt, idx + 1)
    else ScanFrom(t, pt, idx + 1)
  }

  function Scan(t: seq<Symbol>, pt: Addr): Outcome {
    if t == [] then Crash else if pt > t[|t| - 1].start then OutOfRange else ScanFrom(t, pt, 0)
  }

  method LinearScan(t: seq<Symbol>, pt: Addr) returns (r: Outcome)
    ensures r == Scan(t, pt)
  {
    if |t| == 0 {
      return Crash;
    }
    if pt > t[|t| - 1].start {
      return OutOfRange;
    }
    for idx := 0 to |t|
      invariant Scan(t, pt) == ScanFrom(t, pt, idx)
    {
      if t[idx].start <= pt {
        if idx + 1 == |t| {
          return Crash;
        }
        if t[idx + 1].start > pt {
          return Found(Answer(t, idx, pt));
        }
      }
    }
    r := NotFound;
  }

  lemma {:induction false} ScanFinds(t: seq<Symbol>, pt: Addr, idx: nat, k: nat)
    requires Sorted(t) && idx <= k && k + 1 < |t| && t[k].start <= pt < t[k + 1].start
    ensures ScanFrom(t, pt, idx) == Found(Answer(t, k, pt))
    decreases k - idx
  {
    if idx < k {
      assert t[idx + 1].start <= pt;
      ScanFinds(t, pt, idx + 1, k);
    }
  }

  lemma {:induction false} ScanMisses(t: seq<Symbol>, pt: Addr, idx: nat)
    requires idx <= |t| && forall i :: 0 <= i < |t| ==> pt < t[i].start
    ensures ScanFrom(t, pt, idx) == NotFound
    decreases |t| - idx
  {
    if idx < |t| {
      ScanMisses(t, pt, idx + 1);
    }
  }

  lemma {:induction false} ScanCrashes(t: seq<Symbol>, pt: Addr, idx: nat)
    requires Sorted(t) && idx < |t| && pt == t[|t| - 1].start
    ensures ScanFrom(t, pt, idx) == Crash
    decreases |t| - idx
  {
    if idx + 1 < |t| {
      ScanCrashes(t, pt, idx + 1);
    }
  }

  /** The scan on a sorted table: it runs off the end exactly at the last start address. */
  lemma ScanCrashesIff(t: seq<Symbol>, pt: Addr)
    requires Sorted(t) && t != []
    ensures Scan(t, pt) == Crash <==> pt == t[|t| - 1].start
    ensures Scan(t, pt) == OutOfRange <==> pt > t[|t| - 1].start
    ensures Scan(t, pt) == NotFound <==> pt < t[0].start
  {
    if pt == t[|t| - 1].start {
      ScanCrashes(t, pt, 0);
    } else if pt < t[0].start {
      ScanMisses(t, pt, 0);
    } else if pt < t[|t| - 1].start {
      var k := LastAtOrBelow(t, pt);
      ScanFinds(t, pt, 0, k);
    }
  }

  /** The last entry at or below `pt`. */
  ghost function LastAtOrBelow(t: seq<Symbol>, pt: Addr): (k: nat)
    requires t != [] && t[0].start <= pt
    ensures k < |t| && t[k].start <= pt && forall j :: k < j < |t| ==> t[j].start > pt
  {
    var n := |t| - 1;
    if t[n].start <= pt then n
    else
      var k := LastAtOrBelow(t[..n], pt);
      assert forall j :: 0 <= j < n ==> t[..n][j] == t[j];
      k
  }

  /** Below the last start address the two lookups agree on whether there is a symbol, on its
      start and on the offset; and on everything unless several entries start exactly at
      `pt`. */
  lemma LookupsAgree(t: seq<Symbol>, pt: Addr)
    requires Sorted(t) && t != [] && pt < t[|t| - 1].start
    ensures Lookup(t, pt).Found? <==> Scan(t, pt).Found?
    ensures Lookup(t, pt).NotFound? <==> Scan(t, pt).NotFound?
    ensures Lookup(t, pt).Found? ==> Lookup(t, pt).sym.start == Scan(t, pt).sym.start && Lookup(t, pt).sym.offset == Scan(t, pt).sym.offset
    ensures (forall i, j :: 0 <= i < j < |t| ==> !(t[i].start == t[j].start == pt)) ==> Lookup(t, pt) == Scan(t, pt)
  {
    IndexIsNearest(t, pt);
    ScanCrashesIff(t, pt);
    if t[0].start <= pt {
      var k := LastAtOrBelow(t, pt);
      ScanFinds(t, pt, 0, k);
      var b := Index(t, pt);
      assert b <= k;
      assert t[b].start == t[k].start;
    }
  }

  /** What a symbol found says: it is a nearest entry with its own start, name and module, and
      the offset leads from its start back to the address unless the distance does not fit
      a signed word, when it is off by exactly 2^64. */
  ghost predicate Explains(t: seq<Symbol>, pt: Addr, k: int, sym: Symbol) {
    && Nearest(t, pt, k)
    && sym.start == t[k].start && sym.name == t[k].name && sym.kind == t[k].name && sym.origin == t[k].origin
    && sym.start + sym.offset == if pt - t[k].start < 0x8000_0000_0000_0000 then pt else pt - 0x1_0000_0000_0000_0000
  }

  lemma LookupExplains(t: seq<Symbol>, pt: Addr)
    requires Sorted(t) && Lookup(t, pt).Found?
    ensures exists k :: Explains(t, pt, k, Lookup(t, pt).sym)
  {
    hide Index;
    IndexIsNearest(t, pt);
    assert Explains(t, pt, Index(t, pt), Lookup(t, pt).sym);
  }

  lemma ScanExplains(t: seq<Symbol>, pt: Addr)
    requires Sorted(t) && Scan(t, pt).Found?
    ensures exists k :: Explains(t, pt, k, Scan(t, pt).sym)
  {
    hide ScanFrom;
    ScanCrashesIff(t, pt);
    var k := LastAtOrBelow(t, pt);
    ScanFinds(t, pt, 0, k);
    assert Explains(t, pt, k, Scan(t, pt).sym);
  }

  // ----------------------------------------------------------------------------- the memo

  class Symbols {
    const table: seq<Symbol>
    var locationCache: map<Addr, Symbol>

    /** Every remembered answer is the one the search gives. */
    ghost predicate Valid()
      reads this
    {
      Sorted(table) && forall pt :: pt in locationCache ==> Lookup(table, pt) == Found(locationCache[pt])
    }

    constructor (table: seq<Symbol>)
      requires Sorted(table)
      ensures Valid() && this.table == table && locationCache == map[]
    {
      this.table := table;
      locationCache := map[];
    }

    /** `evicted` is what the cache throws out to make room. */
    method GetSymPtFromBpfLocation(pt: Addr, evicted: set<Addr>) returns (r: Outcome)
      requires Valid()
      modifies this
      ensures Valid() && r == Lookup(table, pt)
      ensures locationCache.Keys <= old(locationCache).Keys + {pt}
    {
      if pt in locationCache {
        return Found(locationCache[pt]);
      }
      if |table| == 0 {
        return Crash;
      }
      var found := Search(pt);
      IndexIsNearest(table, pt);
      if found == -1 {
        return NotFound;
      }
      var ks := Answer(table, found, pt);
      locationCache := locationCache[pt := ks] - evicted;
      r := Found(ks);
    }

    method Search(pt: Addr) returns (found: int)
      requires table != []
      ensures found == Index(table, pt)
    {
      hide Bisect, Index;
      var i, j := 0, |table| - 1;
      found := -1;
      while i < j
        invariant 0 <= i <= j < |table| && found == -1
        invariant Bisect(table, pt, 0, |table| - 1) == Bisect(table, pt, i, j)
      {
        BisectStep(table, pt, i, j);
        var mid := i + (j - i) / 2;
        var midVal := table[mid].start;
        if pt < midVal {
          j := mid;
        } else if pt > midVal {
          i := mid + 1;
        } else {
          found := mid;
          Hit(table, pt, mid);
          break;
        }
      }
      if found == -1 {
        BisectStep(table, pt, i, j);
        Settle(table, pt, i);
        if i >= 1 && pt > table[i - 1].start && pt < table[i].start {
          found := i - 1;
        }
        if pt >= table[i].start {
          found := i;
        }
      }
    }
  }
}
