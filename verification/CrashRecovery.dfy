/**
 * What a node finds after a crash. Three things are durable: the newest snapshot, the raft
 * state with the snapshot mark it was written for, and the segment file. They are written in
 * this order, each at once, and a crash may come between any two writes.
 */
module CrashRecovery {
  import opened Wrappers
  import opened Codec
  import opened Messages
  import opened SegmentLog

  /** The last entry a snapshot covers. */
  datatype Mark = Mark(index: int64, term: int64)

  datatype Disk = Disk(blob: Option<Mark>, state: Mark, segment: seq<WireEntry>)

  datatype Memory = Memory(snapshot: Mark, logs: seq<WireEntry>)

  /** How many entries of es, from the front, are at most index, when es is contiguous. */
  function Cut(es: seq<WireEntry>, index: int): (k: nat)
    ensures k <= |es|
  {
    if es == [] then 0
    else
      var k := index + 1 - es[0].index;
      if k < 0 then 0 else if k > |es| then |es| else k
  }

  /** The entries of es behind index. */
  function Behind(es: seq<WireEntry>, index: int): seq<WireEntry> {
    es[Cut(es, index)..]
  }

  /** Those are the ones a replay of the segment keeps. */
  lemma CutSplits(es: seq<WireEntry>, index: int, k: nat)
    requires Contiguous(es)
    ensures SplitsAt(es, index, k) <==> k == Cut(es, index)
  {
    assert forall i :: 0 <= i < |es| ==> es[i].index == es[0].index + i;
    var c := Cut(es, index);
    assert c < |es| ==> es[c].index > index;
    assert c > 0 ==> es[c - 1].index <= index;
    assert SplitsAt(es, index, k) && k < |es| ==> es[k].index > index;
  }

  /** The newest snapshot mark on disk. */
  function Top(d: Disk): Mark {
    if d.blob.Some? && d.blob.value.index > d.state.index then d.blob.value else d.state
  }

  function SentinelOf(m: Mark): WireEntry {
    Sentinel(m.term, m.index)
  }

  /** Reading everything back: the log is cut by position, counted from the state's mark. */
  function Recover(d: Disk): Memory {
    var logs := [SentinelOf(d.state)] + Behind(d.segment, d.state.index);
    if Top(d) == d.state then Memory(d.state, logs)
    else
      var pos: int := Top(d).index - d.state.index;
      Memory(Top(d), [SentinelOf(Top(d))] + if 0 <= pos < |logs| then logs[pos + 1..] else [])
  }

  /** The segment still holds the entry behind the state's mark, or nothing the newest snapshot lacks. */
  ghost predicate Aligned(d: Disk) {
    Top(d).index == d.state.index || Behind(d.segment, Top(d).index) == [] || d.segment[0].index <= d.state.index + 1
  }

  /** What is read back is the newest mark and the entries behind it exactly when the disk is aligned. */
  lemma RecoversExactly(d: Disk)
    requires Contiguous(d.segment)
    ensures Recover(d) == Memory(Top(d), [SentinelOf(Top(d))] + Behind(d.segment, Top(d).index)) <==> Aligned(d)
  {
    var segment, t: int, b: int := d.segment, d.state.index, Top(d).index;
    var kept, want := Behind(segment, t), Behind(segment, b);
    if Top(d) != d.state {
      var pos := b - t;
      var tail := if pos < |kept| + 1 then ([SentinelOf(d.state)] + kept)[pos + 1..] else [];
      assert pos < |kept| + 1 ==> tail == kept[pos..] == segment[Cut(segment, t) + pos..];
      assert Recover(d) == Memory(Top(d), [SentinelOf(Top(d))] + tail);
      assert tail == ([SentinelOf(Top(d))] + tail)[1..] && want == ([SentinelOf(Top(d))] + want)[1..];
      assert |want| == |segment| - Cut(segment, b);
    }
  }

  lemma StoreContiguous(store: Store)
    requires store.Valid()
    ensures Contiguous(store.entries)
  {
    ContiguousPart(store.dropped + store.entries, |store.dropped|, |store.dropped + store.entries|);
    assert (store.dropped + store.entries)[|store.dropped|..|store.dropped + store.entries|] == store.entries;
  }

  /** Reading the store back behind the state's mark. */
  method ReplayState(store: Store, state: Mark) returns (logs: seq<WireEntry>)
    requires store.Valid()
    ensures logs == [SentinelOf(state)] + Behind(store.entries, state.index)
  {
    logs := store.Replay(state.term, state.index);
    ghost var k: nat :| SplitsAt(store.entries, state.index, k)
      && logs == [Sentinel(state.term, state.index)] + store.entries[k..];
    StoreContiguous(store);
    CutSplits(store.entries, state.index, k);
  }

  lemma RecoveredContiguous(d: Disk)
    requires Contiguous(d.segment)
    ensures |Recover(d).logs| > 0 && Contiguous(Recover(d).logs[1..])
    ensures forall e :: e in Recover(d).logs[1..] ==> e in d.segment
  {
    var kept := Behind(d.segment, d.state.index);
    var tail := Recover(d).logs[1..];
    ContiguousPart(d.segment, Cut(d.segment, d.state.index), |d.segment|);
    if |kept| >= |tail| {
      ContiguousPart(kept, |kept| - |tail|, |kept|);
      assert tail == kept[|kept| - |tail|..|kept|];
    }
  }

  /**
   * Start-up: what the reopened store, the state file and the snapshot file give back is what
   * Recover says, and the store mirrors it afterwards.
   */
  method ReadPersist(store: Store, blob: Option<Mark>, state: Mark) returns (snapshot: Mark, logs: seq<WireEntry>)
    requires store.Valid()
    modifies store
    ensures Memory(snapshot, logs) == Recover(Disk(blob, state, old(store.entries)))
    ensures store.Valid() && |logs| > 0
    ensures (forall e :: e in old(store.entries) ==> store.format.decode(store.format.encode(e)) == e)
      ==> store.entries == logs[1..]
  {
    StoreContiguous(store);
    RecoveredContiguous(Disk(blob, state, store.entries));
    ghost var before := store.entries;
    logs := ReplayState(store, state);
    snapshot := state;
    if blob.Some? && blob.value.index > state.index {
      var pos := blob.value.index - state.index;
      if pos < |logs| {
        logs := logs[pos..];
        logs := logs[0 := SentinelOf(blob.value)];
      } else {
        logs := [SentinelOf(blob.value)];
      }
      snapshot := blob.value;
    }
    assert logs == Recover(Disk(blob, state, before)).logs;
    store.ResetFromLogs(logs);
    SameIfTold(store.format, before, store.entries, logs[1..]);
  }

  /** A format that gives entries back tells them apart. */
  lemma SameIfTold(f: Format, before: seq<WireEntry>, es: seq<WireEntry>, gs: seq<WireEntry>)
    requires SameEncodings(f, es, gs) && (es == before || es == gs) && forall g :: g in gs ==> g in before
    ensures (forall e :: e in before ==> f.decode(f.encode(e)) == e) ==> es == gs
  {
    if (forall e :: e in before ==> f.decode(f.encode(e)) == e) && es == before {
      forall k | 0 <= k < |es| ensures es[k] == gs[k] {
        assert SameEncoding(f, es[k], gs[k]) && es[k] in before && gs[k] in gs;
      }
    }
  }

  // ------------------------------------------------------------ whole runs

  /**
   * A running node: its snapshot mark and the entries behind it, the segment's mirror, the
   * entries the segment still holds but the mirror has forgotten, and the other two files.
   */
  datatype Node = Node(snapshot: Mark, es: seq<WireEntry>, mirror: seq<WireEntry>, dropped: seq<WireEntry>,
                       blob: Option<Mark>, state: Mark)

  function DiskOf(n: Node): Disk {
    Disk(n.blob, n.state, n.dropped + n.mirror)
  }

  datatype Step =
    | Append(e: WireEntry)
    | CutSuffix(index: int)
    | WriteBlob(mark: Mark)
    | Commit(mark: Mark, keepBoundary: bool)
    | WriteState(mark: Mark)
    | Rewrite
    | Restart

  function Last(n: Node): int {
    n.snapshot.index + |n.es|
  }

  predicate Enabled(n: Node, step: Step) {
    match step
    case Append(e) => e.index == Last(n) + 1
    case CutSuffix(index) => index >= n.snapshot.index
    case WriteBlob(mark) => mark.index > Top(DiskOf(n)).index
    case Commit(mark, keepBoundary) =>
      n.snapshot.index < mark.index <= Top(DiskOf(n)).index && (keepBoundary ==> mark.index <= Last(n))
    case WriteState(mark) => n.state.index <= mark.index <= n.snapshot.index
    case Rewrite => true
    case Restart => true
  }

  function Next(n: Node, step: Step): Node {
    match step
    case Append(e) =>
      n.(es := n.es + [e], mirror := n.mirror + [e], dropped := if n.mirror == [] then [] else n.dropped)
    case CutSuffix(index) =>
      var kept := n.mirror[..Cut(n.mirror, index)];
      n.(es := n.es[..Cut(n.es, index)], mirror := kept, dropped := if kept == [] then [] else n.dropped)
    case WriteBlob(mark) => n.(blob := Some(mark))
    case Commit(mark, keepBoundary) =>
      var k := Cut(n.mirror, if keepBoundary then mark.index - 1 else mark.index);
      n.(snapshot := mark, es := Behind(n.es, mark.index),
         mirror := n.mirror[k..], dropped := n.dropped + n.mirror[..k])
    case WriteState(mark) => n.(state := mark)
    case Rewrite => n.(dropped := [])
    case Restart =>
      var m := Recover(DiskOf(n));
      n.(snapshot := m.snapshot, es := m.logs[1..], mirror := m.logs[1..], dropped := [])
  }

  /** The steps that put the start of the segment behind the state's mark wait for the state file. */
  ghost predicate Safe(n: Node, step: Step) {
    match step
    case Append(e) => n.mirror == [] ==> n.state.index == n.snapshot.index
    case Rewrite => n.state.index == n.snapshot.index
    case Restart => Top(DiskOf(n)).index == n.state.index || Behind(n.es, Top(DiskOf(n)).index) == []
    case _ => true
  }

  ghost predicate EndsWith(a: seq<WireEntry>, b: seq<WireEntry>) {
    |b| <= |a| && a[|a| - |b|..] == b
  }

  ghost predicate Placed(es: seq<WireEntry>, at: int) {
    forall i :: 0 <= i < |es| ==> es[i].index == at + 1 + i
  }

  /** The segment holds the log's entries and, before them, only entries the snapshot covers. */
  ghost predicate Holds(segment: seq<WireEntry>, es: seq<WireEntry>, at: int) {
    exists k: nat :: HoldsFrom(segment, es, at, k)
  }

  ghost predicate HoldsFrom(segment: seq<WireEntry>, es: seq<WireEntry>, at: int, k: nat) {
    && k + |es| == |segment|
    && Contiguous(segment)
    && Placed(es, at)
    && EndsWith(segment, es)
    && (segment != [] ==> segment[|segment| - 1].index <= at + |es|)
  }

  ghost predicate Reaches(n: Node) {
    n.mirror != [] ==> n.mirror[|n.mirror| - 1].index == Last(n)
  }

  ghost predicate Starts(segment: seq<WireEntry>, at: int) {
    segment != [] ==> segment[0].index <= at + 1
  }

  ghost predicate Inv(n: Node) {
    exists segment: seq<WireEntry> :: InvWith(n, segment)
  }

  ghost predicate InvWith(n: Node, segment: seq<WireEntry>) {
    && segment == n.dropped + n.mirror
    && Holds(segment, n.es, n.snapshot.index)
    && EndsWith(n.mirror, n.es)
    && Reaches(n)
    && n.state.index <= n.snapshot.index <= Top(DiskOf(n)).index
    && Starts(segment, n.state.index)
  }

  lemma InvIs(n: Node, segment: seq<WireEntry>)
    requires segment == n.dropped + n.mirror && Holds(segment, n.es, n.snapshot.index) && EndsWith(n.mirror, n.es)
    requires n.mirror != [] ==> n.mirror[|n.mirror| - 1].index == n.snapshot.index + |n.es|
    requires n.state.index <= n.snapshot.index <= Top(DiskOf(n)).index && Starts(segment, n.state.index)
    ensures Inv(n)
  {
    assert InvWith(n, segment);
  }

  /** What stands behind b in the segment is what stands behind b in the log. */
  lemma SameBehind(segment: seq<WireEntry>, es: seq<WireEntry>, at: int, b: int)
    requires Holds(segment, es, at) && at <= b
    ensures Behind(segment, b) == Behind(es, b) && Placed(Behind(es, b), b)
  {
    if es == [] {
      assert Cut(segment, b) == |segment|;
    } else {
      var p := |segment| - |es|;
      assert segment[p] == es[0];
      assert segment[0].index == es[0].index - p;
      assert Cut(segment, b) == p + Cut(es, b);
    }
  }

  /** A crash now loses nothing: the newest mark and the entries behind it come back. */
  lemma CrashLosesNothing(n: Node)
    requires Inv(n)
    ensures var top := Top(DiskOf(n));
      Recover(DiskOf(n)) == Memory(top, [SentinelOf(top)] + Behind(n.es, top.index))
  {
    var d := DiskOf(n);
    SameBehind(d.segment, n.es, n.snapshot.index, Top(d).index);
    assert Aligned(d);
    RecoversExactly(d);
  }

  // ------------------------------------------------------ lists of entries

  lemma HoldsMore(segment: seq<WireEntry>, es: seq<WireEntry>, at: int, e: WireEntry)
    requires Holds(segment, es, at) && e.index == at + |es| + 1
    requires segment != [] ==> segment[|segment| - 1].index == at + |es|
    ensures Holds(segment + [e], es + [e], at)
  {
    EndsMore(segment, es, e);
    assert HoldsFrom(segment + [e], es + [e], at, |segment| - |es|);
  }

  lemma EndsMore(a: seq<WireEntry>, b: seq<WireEntry>, e: WireEntry)
    requires EndsWith(a, b)
    ensures EndsWith(a + [e], b + [e])
  {
  }

  lemma HoldsTail(d: seq<WireEntry>, m: seq<WireEntry>, es: seq<WireEntry>, at: int)
    requires Holds(d + m, es, at) && EndsWith(m, es)
    ensures Holds(m, es, at)
  {
    ContiguousPart(d + m, |d|, |d + m|);
    assert (d + m)[|d|..|d + m|] == m;
    assert m != [] ==> (d + m)[|d + m| - 1] == m[|m| - 1];
    assert HoldsFrom(m, es, at, |m| - |es|);
  }

  /** The last r entries gone. */
  lemma HoldsShorter(segment: seq<WireEntry>, es: seq<WireEntry>, at: int, r: nat)
    requires Holds(segment, es, at) && r <= |es|
    ensures Holds(segment[..|segment| - r], es[..|es| - r], at)
  {
    var shorter := segment[..|segment| - r];
    ContiguousPart(segment, 0, |segment| - r);
    assert segment[0..|segment| - r] == shorter;
    assert EndsWith(shorter, es[..|es| - r]) by {
      assert segment[|segment| - |es|..][..|es| - r] == es[..|es| - r];
    }
    if shorter != [] && r > 0 {
      assert segment[|segment| - 1].index - segment[|segment| - r - 1].index == r;
    }
    assert HoldsFrom(shorter, es[..|es| - r], at, |segment| - |es|);
  }

  lemma HoldsBehind(segment: seq<WireEntry>, es: seq<WireEntry>, at: int, b: int)
    requires Holds(segment, es, at) && at <= b
    ensures Holds(segment, Behind(es, b), b)
  {
    SameBehind(segment, es, at, b);
    if segment != [] { assert segment[|segment| - 1].index - segment[0].index == |segment| - 1; }
    assert HoldsFrom(segment, Behind(es, b), b, |segment| - |Behind(es, b)|);
  }

  lemma BehindEnds(es: seq<WireEntry>, a: int, b: int)
    requires a <= b
    ensures EndsWith(Behind(es, a), Behind(es, b))
  {
  }

  lemma HoldsItself(es: seq<WireEntry>, at: int)
    requires Placed(es, at)
    ensures Holds(es, es, at)
  {
    assert HoldsFrom(es, es, at, 0);
  }

  // ------------------------------------------------------------ every step

  lemma AppendIs(n: Node, e: WireEntry)
    ensures var t := Next(n, Append(e));
      t.dropped + t.mirror == if n.mirror == [] then [e] else n.dropped + n.mirror + [e]
  {
    var t := Next(n, Append(e));
    if n.mirror == [] {
      assert t.mirror == [e];
    } else {
      assert n.dropped + (n.mirror + [e]) == n.dropped + n.mirror + [e];
    }
  }

  /** Only the log and its mirror differ. */
  ghost predicate Apart(n: Node, t: Node) {
    t.snapshot == n.snapshot && t.blob == n.blob && t.state == n.state
  }

  lemma CutIs(n: Node, index: int, r: nat)
    requires r == |n.mirror| - Cut(n.mirror, index)
    ensures var t, segment := Next(n, CutSuffix(index)), n.dropped + n.mirror;
      && t.mirror == n.mirror[..|n.mirror| - r] && t.es == n.es[..Cut(n.es, index)]
      && t.dropped + t.mirror == (if t.mirror == [] then [] else segment[..|segment| - r])
      && Apart(n, t)
  {
  }

  lemma CommitIs(n: Node, mark: Mark, keepBoundary: bool, cut: int)
    requires cut == if keepBoundary then mark.index - 1 else mark.index
    ensures var t := Next(n, Commit(mark, keepBoundary));
      t.mirror == Behind(n.mirror, cut) && t.es == Behind(n.es, mark.index)
      && t.dropped + t.mirror == n.dropped + n.mirror
  {
    var k := Cut(n.mirror, cut);
    assert n.dropped + n.mirror[..k] + n.mirror[k..] == n.dropped + n.mirror;
  }

  lemma RestartIs(n: Node, top: Mark, es: seq<WireEntry>)
    requires Recover(DiskOf(n)) == Memory(top, [SentinelOf(top)] + es)
    ensures var t := Next(n, Restart);
      t.snapshot == top && t.es == t.mirror == es && t.dropped + t.mirror == es
  {
    assert ([SentinelOf(top)] + es)[1..] == es;
    assert [] + es == es;
  }

  lemma AppendFirst(n: Node, e: WireEntry)
    requires Inv(n) && e.index == Last(n) + 1 && n.mirror == [] && n.state.index == n.snapshot.index
    ensures Inv(Next(n, Append(e)))
  {
    AppendIs(n, e);
    HoldsItself([e], n.snapshot.index);
    EndsMore(n.mirror, n.es, e);
    InvIs(Next(n, Append(e)), [e]);
  }

  lemma AppendMore(n: Node, e: WireEntry, segment: seq<WireEntry>)
    requires Inv(n) && e.index == Last(n) + 1 && n.mirror != [] && segment == n.dropped + n.mirror
    ensures Inv(Next(n, Append(e)))
  {
    AppendIs(n, e);
    EndsMore(n.mirror, n.es, e);
    assert segment[|segment| - 1] == n.mirror[|n.mirror| - 1];
    HoldsMore(segment, n.es, n.snapshot.index, e);
    assert segment[0] == (segment + [e])[0];
    InvIs(Next(n, Append(e)), segment + [e]);
  }

  /** Cutting behind index takes the same entries off the log and off its mirror. */
  lemma CutCounts(mirror: seq<WireEntry>, es: seq<WireEntry>, at: int, index: int)
    requires Holds(mirror, es, at) && index >= at
    requires mirror != [] ==> mirror[|mirror| - 1].index == at + |es|
    ensures |mirror| - Cut(mirror, index) == |es| - Cut(es, index)
    ensures Cut(mirror, index) == 0 ==> Cut(es, index) == 0
  {
    SameBehind(mirror, es, at, index);
    assert |Behind(mirror, index)| == |Behind(es, index)|;
  }

  lemma CutAll(n: Node, index: int)
    requires Inv(n) && index >= n.snapshot.index && Cut(n.mirror, index) == 0 == Cut(n.es, index)
    ensures Inv(Next(n, CutSuffix(index)))
  {
    CutIs(n, index, |n.mirror|);
    HoldsItself([], n.snapshot.index);
    InvIs(Next(n, CutSuffix(index)), []);
  }

  lemma CutSome(n: Node, t: Node, r: nat, segment: seq<WireEntry>, shorter: seq<WireEntry>)
    requires Inv(n) && segment == n.dropped + n.mirror && r <= |n.es| && r < |segment|
    requires Apart(n, t) && t.es == n.es[..|n.es| - r]
    requires t.dropped + t.mirror == shorter == segment[..|segment| - r]
    requires EndsWith(t.mirror, t.es) && (t.mirror != [] ==> t.mirror[|t.mirror| - 1].index == Last(n) - r)
    ensures Inv(t)
  {
    HoldsShorter(segment, n.es, n.snapshot.index, r);
    assert shorter[0] == segment[0];
    InvIs(t, shorter);
  }

  lemma CutSomeKeeps(n: Node, index: int, r: nat)
    requires Inv(n) && r == |n.es| - Cut(n.es, index) == |n.mirror| - Cut(n.mirror, index) && r < |n.mirror|
    requires EndsWith(n.mirror[..|n.mirror| - r], n.es[..|n.es| - r])
    requires n.mirror[|n.mirror| - r - 1].index == Last(n) - r
    ensures Inv(Next(n, CutSuffix(index)))
  {
    var segment := n.dropped + n.mirror;
    CutIs(n, index, r);
    CutSome(n, Next(n, CutSuffix(index)), r, segment, segment[..|segment| - r]);
  }

  lemma CutKeeps(n: Node, index: int)
    requires Inv(n) && index >= n.snapshot.index
    ensures Inv(Next(n, CutSuffix(index)))
  {
    var at, r := n.snapshot.index, |n.es| - Cut(n.es, index);
    HoldsTail(n.dropped, n.mirror, n.es, at);
    CutCounts(n.mirror, n.es, at, index);
    CutReaches(n.mirror, n.es, at, r);
    if Cut(n.mirror, index) == 0 { CutAll(n, index); } else { CutSomeKeeps(n, index, r); }
  }

  lemma CutReaches(mirror: seq<WireEntry>, es: seq<WireEntry>, at: int, r: nat)
    requires Holds(mirror, es, at) && r <= |es| && (mirror != [] ==> mirror[|mirror| - 1].index == at + |es|)
    ensures r <= |mirror| && EndsWith(mirror[..|mirror| - r], es[..|es| - r])
    ensures r < |mirror| ==> mirror[|mirror| - r - 1].index == at + |es| - r
  {
    assert mirror[|mirror| - |es|..][..|es| - r] == es[..|es| - r];
    if r < |mirror| { assert mirror[|mirror| - 1].index - mirror[|mirror| - r - 1].index == r; }
  }

  lemma CommitMirror(mirror: seq<WireEntry>, es: seq<WireEntry>, at: int, b: int, cut: int)
    requires Holds(mirror, es, at) && at < b && cut <= b && (cut < b ==> cut == b - 1 && b <= at + |es|)
    requires mirror != [] ==> mirror[|mirror| - 1].index == at + |es|
    ensures EndsWith(Behind(mirror, cut), Behind(es, b))
    ensures Behind(mirror, cut) != [] ==> Behind(mirror, cut)[|Behind(mirror, cut)| - 1].index == b + |Behind(es, b)|
  {
    SameBehind(mirror, es, at, b);
    BehindEnds(mirror, cut, b);
    if Behind(mirror, cut) != [] { assert mirror[|mirror| - 1].index - mirror[0].index == |mirror| - 1; }
  }

  /** Another division of the same segment. */
  lemma DividedAnew(n: Node, t: Node, segment: seq<WireEntry>)
    requires Inv(n) && segment == n.dropped + n.mirror == t.dropped + t.mirror && t.blob == n.blob && t.state == n.state
    requires n.snapshot.index <= t.snapshot.index <= Top(DiskOf(n)).index && Holds(segment, t.es, t.snapshot.index)
    requires EndsWith(t.mirror, t.es)
    requires (t.mirror != [] ==> t.mirror[|t.mirror| - 1].index == t.snapshot.index + |t.es|)
    ensures Inv(t)
  {
    InvIs(t, segment);
  }

  lemma CommitParts(n: Node, segment: seq<WireEntry>, b: int, cut: int)
    requires Inv(n) && segment == n.dropped + n.mirror
    requires n.snapshot.index < b && cut <= b && (cut < b ==> cut == b - 1 && b <= Last(n))
    ensures Holds(segment, Behind(n.es, b), b) && EndsWith(Behind(n.mirror, cut), Behind(n.es, b))
    ensures Behind(n.mirror, cut) != []
      ==> Behind(n.mirror, cut)[|Behind(n.mirror, cut)| - 1].index == b + |Behind(n.es, b)|
  {
    HoldsBehind(segment, n.es, n.snapshot.index, b);
    HoldsTail(n.dropped, n.mirror, n.es, n.snapshot.index);
    CommitMirror(n.mirror, n.es, n.snapshot.index, b, cut);
  }

  lemma CommitKeeps(n: Node, mark: Mark, keepBoundary: bool)
    requires Inv(n) && Enabled(n, Commit(mark, keepBoundary))
    ensures Inv(Next(n, Commit(mark, keepBoundary)))
  {
    var segment, cut := n.dropped + n.mirror, if keepBoundary then mark.index - 1 else mark.index;
    CommitParts(n, segment, mark.index, cut);
    CommitIs(n, mark, keepBoundary, cut);
    DividedAnew(n, Next(n, Commit(mark, keepBoundary)), segment);
  }

  lemma RestartKeeps(n: Node)
    requires Inv(n) && Safe(n, Restart)
    ensures Inv(Next(n, Restart))
  {
    var t, b := Next(n, Restart), Top(DiskOf(n)).index;
    CrashLosesNothing(n);
    SameBehind(n.dropped + n.mirror, n.es, n.snapshot.index, b);
    RestartIs(n, Top(DiskOf(n)), Behind(n.es, b));
    HoldsItself(t.es, b);
    InvIs(t, t.es);
  }

  lemma WriteKeeps(n: Node, step: Step)
    requires Inv(n) && Enabled(n, step) && (step.WriteBlob? || step.WriteState?)
    ensures Inv(Next(n, step))
  {
    InvIs(Next(n, step), n.dropped + n.mirror);
  }

  lemma OnlyMirror(t: Node)
    requires t.dropped == [] && Holds(t.mirror, t.es, t.snapshot.index) && EndsWith(t.mirror, t.es) && Reaches(t)
    requires t.state.index <= t.snapshot.index <= Top(Disk(t.blob, t.state, t.mirror)).index
    requires Starts(t.mirror, t.state.index)
    ensures Inv(t)
  {
    assert t.dropped + t.mirror == t.mirror;
    assert DiskOf(t) == Disk(t.blob, t.state, t.mirror);
    InvIs(t, t.mirror);
  }

  lemma TopKept(n: Node, segment: seq<WireEntry>)
    ensures Top(Disk(n.blob, n.state, segment)) == Top(DiskOf(n))
  {
  }

  lemma Known(n: Node)
    requires Inv(n)
    ensures Holds(n.dropped + n.mirror, n.es, n.snapshot.index) && EndsWith(n.mirror, n.es) && Reaches(n)
    ensures n.state.index <= n.snapshot.index <= Top(DiskOf(n)).index && Starts(n.dropped + n.mirror, n.state.index)
  {
  }

  lemma RewriteKeeps(n: Node)
    requires Inv(n) && Safe(n, Rewrite)
    ensures Inv(Next(n, Rewrite))
  {
    Known(n);
    HoldsTail(n.dropped, n.mirror, n.es, n.snapshot.index);
    MirrorStarts(n.mirror, n.es, n.snapshot.index);
    TopKept(n, n.mirror);
    OnlyMirror(n.(dropped := []));
  }

  lemma MirrorStarts(mirror: seq<WireEntry>, es: seq<WireEntry>, at: int)
    requires Holds(mirror, es, at)
    ensures Starts(mirror, at)
  {
    if mirror != [] { assert mirror[|mirror| - 1].index - mirror[0].index == |mirror| - 1; }
  }

  lemma StepKeeps(n: Node, step: Step)
    requires Inv(n) && Enabled(n, step) && Safe(n, step)
    ensures Inv(Next(n, step))
  {
    match step {
      case Append(e) => if n.mirror == [] { AppendFirst(n, e); } else { AppendMore(n, e, n.dropped + n.mirror); }
      case CutSuffix(index) => CutKeeps(n, index);
      case Commit(mark, keepBoundary) => CommitKeeps(n, mark, keepBoundary);
      case Restart => RestartKeeps(n);
      case Rewrite => RewriteKeeps(n);
      case _ => WriteKeeps(n, step);
    }
  }

  // ------------------------------------------------------------- every run

  ghost predicate Fresh(n: Node) {
    n == Node(Mark(0, 0), [], [], [], None, Mark(0, 0))
  }

  ghost predicate RunAt(run: seq<Node>, steps: seq<Step>, i: nat) {
    i < |steps| && i + 1 < |run| ==> Enabled(run[i], steps[i]) && run[i + 1] == Next(run[i], steps[i])
  }

  ghost predicate IsRun(run: seq<Node>, steps: seq<Step>) {
    |run| == |steps| + 1 && Fresh(run[0]) && forall i: nat :: RunAt(run, steps, i)
  }

  ghost predicate SafeAt(run: seq<Node>, steps: seq<Step>, i: nat) {
    i < |steps| && i < |run| ==> Safe(run[i], steps[i])
  }

  /** The snapshot on disk is never older than the state that counts on it. */
  ghost predicate BlobLeads(n: Node) {
    if n.blob.Some? then n.state.index <= n.blob.value.index else n.state.index == n.snapshot.index == 0
  }

  lemma FreshInv(n: Node)
    requires Fresh(n)
    ensures Inv(n)
  {
    HoldsItself([], 0);
    assert n.dropped + n.mirror == [];
    InvIs(n, []);
  }

  lemma BlobLeadsOn(n: Node, step: Step)
    requires Inv(n) && BlobLeads(n) && Enabled(n, step)
    ensures BlobLeads(Next(n, step))
  {
  }

  lemma {:induction false} RunKeeps(run: seq<Node>, steps: seq<Step>, n: nat)
    requires IsRun(run, steps) && n < |run| && forall i: nat :: i < n ==> SafeAt(run, steps, i)
    ensures Inv(run[n]) && BlobLeads(run[n])
  {
    if n == 0 {
      FreshInv(run[0]);
    } else {
      RunKeeps(run, steps, n - 1);
      assert RunAt(run, steps, n - 1) && SafeAt(run, steps, n - 1);
      StepKeeps(run[n - 1], steps[n - 1]);
      BlobLeadsOn(run[n - 1], steps[n - 1]);
    }
  }

  /**
   * A crash at any moment of any run: as long as the start of the segment never went past the
   * state's mark, the newest snapshot and every entry behind it are found again.
   */
  lemma CrashAnywhere(run: seq<Node>, steps: seq<Step>, n: nat)
    requires IsRun(run, steps) && n < |run| && forall i: nat :: i < n ==> SafeAt(run, steps, i)
    ensures var d, top := DiskOf(run[n]), Top(DiskOf(run[n]));
      && Recover(d) == Memory(top, [SentinelOf(top)] + Behind(run[n].es, top.index))
      && d.state.index <= run[n].snapshot.index <= top.index
      && (d.blob.Some? ==> d.state.index <= d.blob.value.index)
  {
    RunKeeps(run, steps, n);
    CrashLosesNothing(run[n]);
  }

  lemma PlacedIsContiguous(es: seq<WireEntry>, at: int)
    requires Placed(es, at)
    ensures Contiguous(es)
  {
  }

  lemma NoneCut(es: seq<WireEntry>, at: int)
    requires es != [] ==> es[0].index == at + 1
    ensures Cut(es, at) == 0 && Behind(es, at) == es
  {
  }

  lemma AlignedAgain(d: Disk, es: seq<WireEntry>, top: Mark)
    requires d.segment == es && Top(d) == top && Cut(es, top.index) == 0 && (es != [] ==> es[0].index == top.index + 1)
    ensures Aligned(d) <==> top.index == d.state.index || es == []
  {
    assert |Behind(es, top.index)| == |es|;
  }

  lemma AgainExactly(d: Disk, es: seq<WireEntry>, top: Mark)
    requires d.segment == es && Top(d) == top && Placed(es, top.index)
    ensures Recover(d) == Memory(top, [SentinelOf(top)] + es) <==> top.index == d.state.index || es == []
  {
    PlacedIsContiguous(es, top.index);
    NoneCut(es, top.index);
    AlignedAgain(d, es, top);
    RecoversExactly(d);
  }

  lemma TopStays(n: Node, d: Disk, top: Mark, es: seq<WireEntry>)
    requires d == Disk(n.blob, n.state, es) && top == Top(DiskOf(n))
    ensures Top(d) == top
  {
  }

  lemma AfterRestart(n: Node, top: Mark, es: seq<WireEntry>)
    requires top == Top(DiskOf(n)) && Recover(DiskOf(n)) == Memory(top, [SentinelOf(top)] + es) && Placed(es, top.index)
    ensures Recover(DiskOf(Next(n, Restart))) == Recover(DiskOf(n)) <==> top.index == n.state.index || es == []
  {
    RestartIs(n, top, es);
    var d := DiskOf(Next(n, Restart));
    TopStays(n, d, top, es);
    AgainExactly(d, es, top);
  }

  /** A second crash right after a restart finds the same again exactly when the restart was safe. */
  lemma CrashAfterRestart(n: Node)
    requires Inv(n)
    ensures Recover(DiskOf(Next(n, Restart))) == Recover(DiskOf(n)) <==> Safe(n, Restart)
  {
    var top := Top(DiskOf(n));
    CrashLosesNothing(n);
    SameBehind(n.dropped + n.mirror, n.es, n.snapshot.index, top.index);
    AfterRestart(n, top, Behind(n.es, top.index));
  }

  /** n's disk gives back the newest mark and the entries behind it. */
  ghost predicate ReadsBack(n: Node) {
    var top := Top(DiskOf(n));
    Recover(DiskOf(n)) == Memory(top, [SentinelOf(top)] + Behind(n.es, top.index))
  }

  lemma ReadsBackIfAligned(n: Node, segment: seq<WireEntry>)
    requires segment == n.dropped + n.mirror && Contiguous(segment)
    requires Behind(segment, Top(DiskOf(n)).index) == Behind(n.es, Top(DiskOf(n)).index)
    ensures ReadsBack(n) <==> Aligned(Disk(n.blob, n.state, segment))
  {
    RecoversExactly(DiskOf(n));
  }

  lemma OneAligned(d: Disk, e: WireEntry, at: int)
    requires d.segment == [e] && e.index == at + 1 && d.state.index <= at <= Top(d).index
    ensures Aligned(d) <==> d.state.index == at || Top(d).index > at
  {
    if Top(d).index > at { assert Behind([e], Top(d).index) == []; } else { assert Behind([e], Top(d).index) == [e]; }
  }

  lemma FirstReadsBack(t: Node, e: WireEntry, at: int)
    requires t.es == [e] && t.dropped + t.mirror == [e] && e.index == at + 1
    requires t.state.index <= at <= Top(DiskOf(t)).index
    ensures ReadsBack(t) <==> t.state.index == at || Top(DiskOf(t)).index > at
  {
    ReadsBackIfAligned(t, [e]);
    OneAligned(DiskOf(t), e, at);
  }

  /**
   * An append leaves a disk that reads back exactly unless the mirror was empty, the state file
   * has not caught up with the snapshot mark, and no newer snapshot covers the entry.
   */
  lemma AppendReadsBack(n: Node, e: WireEntry)
    requires Inv(n) && Enabled(n, Append(e))
    ensures ReadsBack(Next(n, Append(e)))
      <==> n.mirror != [] || n.state.index == n.snapshot.index || Top(DiskOf(n)).index > n.snapshot.index
  {
    var t := Next(n, Append(e));
    Known(n);
    TopKept(n, t.dropped + t.mirror);
    if n.mirror != [] {
      AppendMore(n, e, n.dropped + n.mirror);
      CrashLosesNothing(t);
    } else {
      AppendIs(n, e);
      FirstReadsBack(t, e, n.snapshot.index);
    }
  }

  lemma MirrorAligned(d: Disk, mirror: seq<WireEntry>, es: seq<WireEntry>)
    requires d.segment == mirror && Behind(mirror, Top(d).index) == Behind(es, Top(d).index)
    ensures Aligned(d)
      <==> (Top(d).index == d.state.index || Behind(es, Top(d).index) == []
            || (mirror != [] && mirror[0].index <= d.state.index + 1))
  {
    if mirror == [] { assert Behind(mirror, Top(d).index) == []; }
  }

  lemma MirrorReadsBack(t: Node, mirror: seq<WireEntry>, es: seq<WireEntry>, top: Mark)
    requires t.dropped + t.mirror == mirror && t.es == es && Top(DiskOf(t)) == top && Contiguous(mirror)
    requires Behind(mirror, top.index) == Behind(es, top.index)
    ensures ReadsBack(t)
      <==> (top.index == t.state.index || Behind(es, top.index) == []
            || (mirror != [] && mirror[0].index <= t.state.index + 1))
  {
    ReadsBackIfAligned(t, mirror);
    MirrorAligned(DiskOf(t), mirror, es);
  }

  lemma MirrorStandsBehind(n: Node, top: Mark)
    requires Inv(n) && top == Top(DiskOf(n))
    ensures Contiguous(n.mirror) && Behind(n.mirror, top.index) == Behind(n.es, top.index)
  {
    Known(n);
    HoldsTail(n.dropped, n.mirror, n.es, n.snapshot.index);
    SameBehind(n.mirror, n.es, n.snapshot.index, top.index);
  }

  /**
   * A rewrite leaves a disk that reads back exactly when the state file has caught up with the
   * newest snapshot, or nothing follows that snapshot, or the mirror starts no later than behind
   * the state's mark.
   */
  lemma RewriteReadsBack(n: Node)
    requires Inv(n)
    ensures ReadsBack(Next(n, Rewrite))
      <==> (Top(DiskOf(n)).index == n.state.index || Behind(n.es, Top(DiskOf(n)).index) == []
            || (n.mirror != [] && n.mirror[0].index <= n.state.index + 1))
  {
    var top := Top(DiskOf(n));
    MirrorStandsBehind(n, top);
    TopKept(n, n.mirror);
    assert [] + n.mirror == n.mirror;
    MirrorReadsBack(Next(n, Rewrite), n.mirror, n.es, top);
  }

  // ------------------------------------------------------- runs that lose

  lemma Begin() returns (run: seq<Node>, steps: seq<Step>)
    ensures IsRun(run, steps) && |steps| == 0
  {
    run, steps := [Node(Mark(0, 0), [], [], [], None, Mark(0, 0))], [];
  }

  lemma Extend(run: seq<Node>, steps: seq<Step>, step: Step, next: Node) returns (r: seq<Node>, s: seq<Step>)
    requires IsRun(run, steps) && Enabled(run[|steps|], step) && next == Next(run[|steps|], step)
    ensures IsRun(r, s) && |s| == |steps| + 1 && s[|steps|] == step
    ensures r[|steps|] == run[|steps|] && r[|steps| + 1] == next
  {
    r, s := run + [next], steps + [step];
    forall i: nat ensures RunAt(r, s, i) {
      assert RunAt(run, steps, i);
    }
  }

  /** One entry, a snapshot of it, and the memory already cut: the state is still being written. */
  function Cutting(): Node {
    Node(Mark(1, 1), [], [], [Sentinel(1, 1)], Some(Mark(1, 1)), Mark(0, 0))
  }

  lemma AppendOvertakes()
    ensures var t := Next(Cutting(), Append(Sentinel(1, 2)));
      t.es == [Sentinel(1, 2)] && Recover(DiskOf(t)) == Memory(Mark(1, 1), [Sentinel(1, 1)])
  {
    assert DiskOf(Next(Cutting(), Append(Sentinel(1, 2)))).segment == [Sentinel(1, 2)];
  }

  /** An entry that comes while a snapshot of the whole log is being persisted is lost by a crash. */
  lemma EarlyAppendIsLost() returns (run: seq<Node>, steps: seq<Step>)
    ensures IsRun(run, steps) && |steps| == 4 && steps[3].Append?
    ensures run[4].es == [steps[3].e] && Recover(DiskOf(run[4])).logs == [Sentinel(1, 1)]
  {
    var e := Sentinel(1, 1);
    var s1 := Node(Mark(0, 0), [e], [e], [], None, Mark(0, 0));
    run, steps := Begin();
    run, steps := Extend(run, steps, Append(e), s1);
    run, steps := Extend(run, steps, WriteBlob(Mark(1, 1)), s1.(blob := Some(Mark(1, 1))));
    run, steps := Extend(run, steps, Commit(Mark(1, 1), false), Cutting());
    run, steps := Extend(run, steps, Append(Sentinel(1, 2)), Next(Cutting(), Append(Sentinel(1, 2))));
    AppendOvertakes();
  }

  function Holding(es: seq<WireEntry>): Node {
    Node(Mark(0, 0), es, es, [], None, Mark(0, 0))
  }

  function Four(): seq<WireEntry> {
    [Sentinel(1, 1), Sentinel(1, 2), Sentinel(1, 3), Sentinel(1, 4)]
  }

  lemma FourAppended() returns (run: seq<Node>, steps: seq<Step>)
    ensures IsRun(run, steps) && |steps| == 4 && run[4] == Holding(Four())
  {
    var e1, e2, e3, e4 := Sentinel(1, 1), Sentinel(1, 2), Sentinel(1, 3), Sentinel(1, 4);
    run, steps := Begin();
    run, steps := Extend(run, steps, Append(e1), Holding([e1]));
    run, steps := Extend(run, steps, Append(e2), Holding([e1, e2]));
    run, steps := Extend(run, steps, Append(e3), Holding([e1, e2, e3]));
    run, steps := Extend(run, steps, Append(e4), Holding([e1, e2, e3, e4]));
  }

  /** Two snapshots at work: the state of the first is written, the memory is cut for the second. */
  function Overlapping(): Node {
    Node(Mark(2, 1), [Sentinel(1, 3), Sentinel(1, 4)], [Sentinel(1, 3), Sentinel(1, 4)],
         [Sentinel(1, 1), Sentinel(1, 2)], Some(Mark(2, 1)), Mark(1, 1))
  }

  lemma RewriteOvertakes()
    ensures Recover(DiskOf(Next(Overlapping(), Rewrite))) == Memory(Mark(2, 1), [Sentinel(1, 2), Sentinel(1, 4)])
  {
    assert DiskOf(Next(Overlapping(), Rewrite)).segment == [Sentinel(1, 3), Sentinel(1, 4)];
  }

  lemma FirstCommit(s: Node)
    requires s == Holding(Four()).(blob := Some(Mark(1, 1)))
    ensures Next(s, Commit(Mark(1, 1), false))
      == Node(Mark(1, 1), Four()[1..], Four()[1..], [Sentinel(1, 1)], Some(Mark(1, 1)), Mark(0, 0))
  {
  }

  lemma SecondCommit(s: Node)
    requires s == Node(Mark(1, 1), Four()[1..], Four()[1..], [Sentinel(1, 1)], Some(Mark(2, 1)), Mark(0, 0))
    ensures Next(s, Commit(Mark(2, 1), false)) == Overlapping().(state := Mark(0, 0))
  {
  }

  /** The first of two overlapping snapshots rewrites the segment without an entry the state still needs. */
  lemma EarlyRewriteLosesAnEntry() returns (run: seq<Node>, steps: seq<Step>)
    ensures IsRun(run, steps) && |steps| == 10 && steps[9] == Rewrite
    ensures run[10].es == [Sentinel(1, 3), Sentinel(1, 4)]
    ensures Recover(DiskOf(run[10])).logs == [Sentinel(1, 2), Sentinel(1, 4)]
  {
    var s5 := Holding(Four()).(blob := Some(Mark(1, 1)));
    var s6 := Node(Mark(1, 1), Four()[1..], Four()[1..], [Sentinel(1, 1)], Some(Mark(1, 1)), Mark(0, 0));
    FirstCommit(s5);
    SecondCommit(s6.(blob := Some(Mark(2, 1))));
    run, steps := FourAppended();
    run, steps := Extend(run, steps, WriteBlob(Mark(1, 1)), s5);
    run, steps := Extend(run, steps, Commit(Mark(1, 1), false), s6);
    run, steps := Extend(run, steps, WriteBlob(Mark(2, 1)), s6.(blob := Some(Mark(2, 1))));
    run, steps := Extend(run, steps, Commit(Mark(2, 1), false), Overlapping().(state := Mark(0, 0)));
    run, steps := Extend(run, steps, WriteState(Mark(1, 1)), Overlapping());
    run, steps := Extend(run, steps, Rewrite, Next(Overlapping(), Rewrite));
    RewriteOvertakes();
  }

  /** Four entries, and a snapshot of two whose state is not written. */
  function Early(): Node {
    Holding(Four()).(blob := Some(Mark(2, 1)))
  }

  /** The same after a restart. */
  function Restarted(): Node {
    Node(Mark(2, 1), [Sentinel(1, 3), Sentinel(1, 4)], [Sentinel(1, 3), Sentinel(1, 4)], [],
         Some(Mark(2, 1)), Mark(0, 0))
  }

  lemma FirstCrash()
    ensures Recover(DiskOf(Early())) == Memory(Mark(2, 1), [Sentinel(1, 2)] + [Sentinel(1, 3), Sentinel(1, 4)])
  {
    var d := DiskOf(Early());
    assert d.segment == Four() && Behind(Four(), 0) == Four();
    assert ([Sentinel(0, 0)] + Four())[3..] == [Sentinel(1, 3), Sentinel(1, 4)];
  }

  lemma RestartEarly()
    ensures Next(Early(), Restart) == Restarted()
  {
    FirstCrash();
    RestartIs(Early(), Mark(2, 1), [Sentinel(1, 3), Sentinel(1, 4)]);
  }

  lemma SecondCrash()
    ensures Recover(DiskOf(Restarted())) == Memory(Mark(2, 1), [Sentinel(1, 2)])
  {
    assert DiskOf(Restarted()).segment == Restarted().mirror;
  }

  lemma RestartOnce() returns (run: seq<Node>, steps: seq<Step>)
    ensures IsRun(run, steps) && |steps| == 6 && steps[5] == Restart && run[5] == Early() && run[6] == Restarted()
  {
    RestartEarly();
    run, steps := FourAppended();
    run, steps := Extend(run, steps, WriteBlob(Mark(2, 1)), Early());
    run, steps := Extend(run, steps, Restart, Restarted());
  }

  /**
   * Not every restart is safe. Two entries follow the snapshot whose state was not written
   * before the crash; the restart takes the snapshot, the next one does not find the entries.
   */
  lemma SecondCrashLosesEntries() returns (run: seq<Node>, steps: seq<Step>)
    ensures IsRun(run, steps) && |steps| == 6 && steps[5] == Restart
    ensures |Recover(DiskOf(run[5])).logs| == 3 && |Recover(DiskOf(run[6])).logs| == 1
  {
    FirstCrash();
    SecondCrash();
    run, steps := RestartOnce();
  }
}
