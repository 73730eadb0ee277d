/** The revisioned change log of the ipcache service: entries, changes, and what
    replaying a list of changes means. */
module ChangeLog {
  import opened Options

  const MAX_SYNC_BATCH_SIZE := 20
  const COMPACT_THRESHOLD := 1024
  const MAX_RETAINED_LOG_ENTRIES := 10 * COMPACT_THRESHOLD
  const CLIENT_BUFFER_SIZE := 1024
  const LOG_BUFFER_SIZE := 4 * 1024

  /** Who owns an address; `Unknown` is a message whose owner field is not set. */
  datatype Meta = Pod(namespace: string, podName: string) | Node(nodeName: string) | Unknown

  datatype Entry = Entry(ip: string, meta: Meta)

  /** The wire format has two opcodes; every other number is `Invalid`. */
  datatype Op = Set | Del | Invalid

  datatype Change = Change(revision: nat, op: Op, entry: Entry)

  type Table = map<string, Entry>

  function Apply(m: Table, c: Change): Table {
    match c.op
    case Set => m[c.entry.ip := c.entry]
    case Del => m - {c.entry.ip}
    case Invalid => m
  }

  function Replay(m: Table, cs: seq<Change>): Table {
    if cs == [] then m else Apply(Replay(m, cs[..|cs| - 1]), cs[|cs| - 1])
  }

  lemma {:induction false} ReplayConcat(m: Table, a: seq<Change>, b: seq<Change>)
    ensures Replay(m, a + b) == Replay(Replay(m, a), b)
  {
    if b == [] {
      assert a + b == a;
    } else {
      assert (a + b)[..|a + b| - 1] == a + b[..|b| - 1];
      ReplayConcat(m, a, b[..|b| - 1]);
    }
  }

  lemma ReplayNone(m: Table)
    ensures Replay(m, []) == m
  {}

  lemma ReplayOne(m: Table, a: seq<Change>, c: Change)
    ensures Replay(m, a + [c]) == Apply(Replay(m, a), c)
  {
    assert (a + [c])[..|a|] == a;
  }

  /** The change that decides what is known about `ip`: the last one that names it. */
  function LastChange(cs: seq<Change>, ip: string): Option<Change> {
    if cs == [] then None
    else
      var c := cs[|cs| - 1];
      if c.op != Invalid && c.entry.ip == ip then Some(c) else LastChange(cs[..|cs| - 1], ip)
  }

  /** Replay read one address at a time: an address is present exactly when the last
      change naming it is a Set, and its entry is the one that change carried. */
  lemma {:induction false} ReplayLookup(cs: seq<Change>, ip: string)
    ensures ip in Replay(map[], cs) <==> LastChange(cs, ip).Some? && LastChange(cs, ip).value.op == Set
    ensures ip in Replay(map[], cs) ==> Replay(map[], cs)[ip] == LastChange(cs, ip).value.entry
  {
    if cs != [] {
      ReplayLookup(cs[..|cs| - 1], ip);
    }
  }

  /** Every entry of a replayed table is stored under its own address. */
  lemma {:induction false} ReplayKeys(cs: seq<Change>)
    ensures forall ip :: ip in Replay(map[], cs) ==> Replay(map[], cs)[ip].ip == ip
  {
    if cs != [] {
      ReplayKeys(cs[..|cs| - 1]);
    }
  }

  /** The first change is numbered 1 and there are no gaps. */
  ghost predicate Numbered(h: seq<Change>) {
    forall i :: 0 <= i < |h| ==> h[i].revision == i + 1
  }

  /** `xs` is the stretch of `h` that starts at position `a`. */
  ghost predicate Segment(h: seq<Change>, a: int, xs: seq<Change>) {
    xs != [] ==> 0 <= a && a + |xs| <= |h| && xs == h[a..a + |xs|]
  }

  lemma SegmentAt(h: seq<Change>, a: int, xs: seq<Change>, j: nat)
    requires Segment(h, a, xs) && j < |xs|
    ensures 0 <= a + j < |h| && xs[j] == h[a + j]
  {}

  lemma SegmentGrows(h: seq<Change>, c: Change, a: int, xs: seq<Change>)
    requires Segment(h, a, xs)
    ensures Segment(h + [c], a, xs)
  {
    if xs != [] {
      assert (h + [c])[a..a + |xs|] == h[a..a + |xs|];
    }
  }

  lemma SegmentAppend(h: seq<Change>, a: nat, xs: seq<Change>)
    requires Segment(h, a, xs) && a + |xs| < |h|
    ensures Segment(h, a, xs + [h[a + |xs|]])
  {
    assert h[a..a + |xs| + 1] == h[a..a + |xs|] + [h[a + |xs|]];
  }

  lemma SegmentDrop(h: seq<Change>, a: int, xs: seq<Change>, k: nat)
    requires Segment(h, a, xs) && k <= |xs|
    ensures Segment(h, a + k, xs[k..])
  {
    if k < |xs| {
      assert h[a..a + |xs|][k..] == h[a + k..a + |xs|];
    }
  }

  /** A log in strictly increasing revision order. */
  ghost predicate Increasing(log: seq<Change>) {
    forall i, j :: 0 <= i < j < |log| ==> log[i].revision < log[j].revision
  }

  /** The least index whose revision exceeds `target`, or -1. */
  function NextIndex(log: seq<Change>, target: nat): (r: int)
    ensures -1 <= r < |log|
    ensures r >= 0 ==> log[r].revision > target && forall i :: 0 <= i < r ==> log[i].revision <= target
    ensures r == -1 ==> forall i :: 0 <= i < |log| ==> log[i].revision <= target
  {
    if log == [] then -1
    else if log[0].revision > target then 0
    else
      var rest := NextIndex(log[1..], target);
      assert forall i :: 1 <= i < |log| ==> log[i] == log[1..][i - 1];
      if rest == -1 then -1 else rest + 1
  }

  /** Binary search for the first entry past `target`. */
  method FindNext(slice: seq<Change>, target: nat) returns (ret: int)
    requires Increasing(slice)
    ensures ret == NextIndex(slice, target)
  {
    var start, end := 0, |slice| - 1;
    ret := -1;
    while start <= end
      invariant 0 <= start <= end + 1 <= |slice|
      invariant forall i :: 0 <= i < start ==> slice[i].revision <= target
      invariant ret == -1 ==> end == |slice| - 1
      invariant ret != -1 ==> ret == end + 1 && ret < |slice| && slice[ret].revision > target
    {
      var mid := (start + end) / 2;
      if slice[mid].revision <= target {
        start := mid + 1;
      } else {
        ret := mid;
        end := mid - 1;
      }
    }
  }

  /** In a gap-free log the next index is plain arithmetic. */
  lemma NextIndexInSegment(h: seq<Change>, a: nat, log: seq<Change>, target: nat)
    requires Numbered(h) && Segment(h, a, log) && a <= target
    ensures NextIndex(log, target) == if target < a + |log| then target - a else -1
  {
    forall j | 0 <= j < |log| ensures log[j].revision == a + j + 1 {
      SegmentAt(h, a, log, j);
    }
    var r := NextIndex(log, target);
    if target < a + |log| {
      assert log[target - a].revision == target + 1;
    }
  }
}
