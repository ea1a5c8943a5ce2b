/**
 * The snapshot of the key-value state as bytes: what its fields are, what a reader makes of any
 * blob, and that reading a snapshot gives back the same store, the same sessions in the same
 * order of use, and the same tombstones in the same order of age.
 */
module SnapshotLayout {
  import opened Wrappers
  import opened Codec
  import opened Messages
  import opened KeyOrder
  import opened Sessions
  import opened KvServer

  // ------------------------------------------------------------- the format

  /** Every number and length fits its place on the wire. */
  ghost predicate Fits(s: State) {
    |s.store| < TWO_31 && |s.table.lru| < TWO_31 && |s.tombs.fifo| < TWO_31
    && (forall k :: k in s.store ==> |k| < TWO_64 && |s.store[k]| < TWO_64)
    && (forall c :: c in s.table.entries ==>
          RecFits(SessRec(c, s.table.entries[c].lastSeq, s.table.entries[c].lastIndex)))
    && (forall c :: c in s.tombs.fenced ==> -TWO_31 <= c < TWO_31 && -TWO_63 <= s.tombs.fenced[c] < TWO_63)
  }

  /** keys are those of the store, in their order. */
  ghost predicate Covers(keys: seq<bytes>, store: map<bytes, bytes>) {
    Ascending(keys) && (forall k :: k in keys <==> k in store) && |keys| == |store|
  }

  /** The keys and values, pair by pair. */
  ghost predicate StorePart(fs: seq<Field>, off: nat, keys: seq<bytes>, store: map<bytes, bytes>) {
    off + 2 * |keys| <= |fs|
    && forall i: nat :: i < |keys| ==> PairAt(fs, off + 2 * i, keys[i], store)
  }

  ghost predicate PairAt(fs: seq<Field>, p: nat, k: bytes, store: map<bytes, bytes>) {
    p + 1 < |fs| && k in store && fs[p] == B(k) && fs[p + 1] == B(store[k])
  }

  datatype SessRec = SessRec(cid: int, lastSeq: int, lastIndex: nat)

  /** The record of the session that is ith from the old end. */
  ghost function RecOf(t: Table, i: nat): SessRec
    requires i < |t.lru|
  {
    var c := t.lru[|t.lru| - 1 - i];
    SessRec(c, SeqOf(t, c), UsedAt(t, c))
  }

  /** The sessions, from the least to the most recently used. */
  ghost predicate SessionPart(fs: seq<Field>, off: nat, t: Table) {
    off + 3 * |t.lru| <= |fs| && forall i: nat :: i < |t.lru| ==> SessionAt(fs, off + 3 * i, RecOf(t, i))
  }

  ghost predicate SessionAt(fs: seq<Field>, p: nat, r: SessRec) {
    p + 2 < |fs| && RecFits(r) && fs[p] == S(r.cid) && fs[p + 1] == S(r.lastSeq) && fs[p + 2] == U(r.lastIndex)
  }

  ghost predicate RecFits(r: SessRec) {
    -TWO_31 <= r.cid < TWO_31 && -TWO_63 <= r.lastSeq < TWO_63 && r.lastIndex < TWO_64
  }

  datatype TombRec = TombRec(cid: int, lastSeq: int)

  ghost function TombRecAt(t: Tombs, i: nat): TombRec
    requires i < |t.fifo|
  {
    TombRec(t.fifo[i], if t.fifo[i] in t.fenced then t.fenced[t.fifo[i]] else 0)
  }

  /** The tombstones, the oldest first. */
  ghost predicate FencePart(fs: seq<Field>, off: nat, t: Tombs) {
    off + 2 * |t.fifo| <= |fs| && forall i: nat :: i < |t.fifo| ==> TombAt(fs, off + 2 * i, TombRecAt(t, i))
  }

  ghost predicate TombAt(fs: seq<Field>, p: nat, r: TombRec) {
    p + 1 < |fs| && -TWO_31 <= r.cid < TWO_31 && -TWO_63 <= r.lastSeq < TWO_63
    && fs[p] == S(r.cid) && fs[p + 1] == S(r.lastSeq)
  }

  /** fs are the fields of s, whose keys in order are keys. */
  ghost predicate SnapshotFields(s: State, keys: seq<bytes>, fs: seq<Field>) {
    var n, m, f := |keys|, |s.table.lru|, |s.tombs.fifo|;
    n < TWO_31 && m < TWO_31 && f < TWO_31 && |fs| == 3 + 2 * n + 3 * m + 2 * f
    && Covers(keys, s.store) && Sound(s.table) && TombsSound(s.tombs)
    && fs[0] == S(n) && StorePart(fs, 1, keys, s.store)
    && fs[1 + 2 * n] == S(m) && SessionPart(fs, 2 + 2 * n, s.table)
    && fs[2 + 2 * n + 3 * m] == S(f) && FencePart(fs, 3 + 2 * n + 3 * m, s.tombs)
  }

  /** blob is a snapshot of s. */
  ghost predicate SnapshotOf(blob: bytes, s: State) {
    exists keys, fs :: SnapshotFields(s, keys, fs) && blob == Encoded(fs)
  }

  // --------------------------------------------------------- reading any blob

  type Pair = (bytes, bytes)

  function ReadPair(s: bytes, pos: nat): Parse<Pair> {
    var k := ReadBytes(s, pos);
    if k.Bad? then Bad else
    var v := ReadBytes(s, k.next);
    if v.Bad? then Bad else Got((k.value, v.value), v.next)
  }

  function ReadSession(s: bytes, pos: nat): Parse<SessRec> {
    var cid := ReadInt(s, pos);
    if cid.Bad? then Bad else
    var lastSeq := ReadZigzag(s, cid.next);
    if lastSeq.Bad? then Bad else
    var lastIndex := ReadVarint(s, lastSeq.next);
    if lastIndex.Bad? then Bad else Got(SessRec(cid.value, lastSeq.value, lastIndex.value), lastIndex.next)
  }

  function ReadTomb(s: bytes, pos: nat): Parse<TombRec> {
    var cid := ReadInt(s, pos);
    if cid.Bad? then Bad else
    var lastSeq := ReadZigzag(s, cid.next);
    if lastSeq.Bad? then Bad else Got(TombRec(cid.value, lastSeq.value), lastSeq.next)
  }

  function PairReader(s: bytes): nat -> Parse<Pair> {
    (pos: nat) => ReadPair(s, pos)
  }

  function SessionReader(s: bytes): nat -> Parse<SessRec> {
    (pos: nat) => ReadSession(s, pos)
  }

  function TombReader(s: bytes): nat -> Parse<TombRec> {
    (pos: nat) => ReadTomb(s, pos)
  }

  /** A count, which must not be negative, and as many values. */
  function ReadList<T>(read: nat -> Parse<T>, s: bytes, pos: nat): Parse<seq<T>> {
    var n := ReadInt(s, pos);
    if n.Bad? || n.value < 0 then Bad else ReadMany(read, n.next, n.value)
  }

  datatype Contents = Contents(pairs: seq<Pair>, recs: seq<SessRec>, tombs: seq<TombRec>)

  /** The three lists, and nothing behind them. */
  function ReadSnapshot(s: bytes): Option<Contents> {
    var pairs := ReadList(PairReader(s), s, 0);
    if pairs.Bad? then None else
    var recs := ReadList(SessionReader(s), s, pairs.next);
    if recs.Bad? then None else
    var tombs := ReadList(TombReader(s), s, recs.next);
    if tombs.Bad? || tombs.next != |s| then None
    else Some(Contents(pairs.value, recs.value, tombs.value))
  }

  /** Of several pairs with one key the last counts. */
  function StoreOf(pairs: seq<Pair>, n: nat): map<bytes, bytes>
    requires n <= |pairs|
  {
    if n == 0 then map[] else StoreOf(pairs, n - 1)[pairs[n - 1].0 := pairs[n - 1].1]
  }

  /** The table after loading the first n records into an empty one. */
  function Loaded(recs: seq<SessRec>, n: nat): Table
    requires n <= |recs|
  {
    if n == 0 then Table(map[], [])
    else AfterLoad(Loaded(recs, n - 1), recs[n - 1].cid, recs[n - 1].lastSeq, recs[n - 1].lastIndex)
  }

  /** Of several tombstones of one client the first counts. */
  function Entombed(recs: seq<TombRec>, n: nat): Tombs
    requires n <= |recs|
  {
    if n == 0 then Tombs(map[], []) else
    var t, r := Entombed(recs, n - 1), recs[n - 1];
    if r.cid in t.fenced then t else Tombs(t.fenced[r.cid := r.lastSeq], t.fifo + [r.cid])
  }

  /** A key is there if some pair names it, with the value of the last such pair. */
  lemma {:induction false} LastPairCounts(pairs: seq<Pair>, n: nat, i: nat)
    requires i < n <= |pairs| && forall j :: i < j < n ==> pairs[j].0 != pairs[i].0
    ensures pairs[i].0 in StoreOf(pairs, n) && StoreOf(pairs, n)[pairs[i].0] == pairs[i].1
    decreases n
  {
    if i < n - 1 { LastPairCounts(pairs, n - 1, i); }
  }

  lemma {:induction false} OnlyPairsCount(pairs: seq<Pair>, n: nat, k: bytes)
    requires n <= |pairs| && k in StoreOf(pairs, n)
    ensures exists i :: 0 <= i < n && pairs[i].0 == k
    decreases n
  {
    if n > 0 && pairs[n - 1].0 != k { OnlyPairsCount(pairs, n - 1, k); }
  }

  /** A client's tombstone is the first one for it. */
  lemma {:induction false} FirstTombCounts(recs: seq<TombRec>, n: nat, i: nat)
    requires i < n <= |recs| && forall j :: 0 <= j < i ==> recs[j].cid != recs[i].cid
    ensures recs[i].cid in Entombed(recs, n).fenced && Entombed(recs, n).fenced[recs[i].cid] == recs[i].lastSeq
    decreases n
  {
    NotEntombed(recs, i, recs[i].cid);
    if i < n - 1 { FirstTombCounts(recs, n - 1, i); }
  }

  lemma {:induction false} NotEntombed(recs: seq<TombRec>, n: nat, c: int)
    requires n <= |recs| && forall j :: 0 <= j < n ==> recs[j].cid != c
    ensures c !in Entombed(recs, n).fenced
  {
    if n > 0 { NotEntombed(recs, n - 1, c); }
  }

  /** A client's session is the last one for it. */
  lemma {:induction false} LastSessionCounts(recs: seq<SessRec>, n: nat, i: nat)
    requires i < n <= |recs| && forall j :: i < j < n ==> recs[j].cid != recs[i].cid
    ensures recs[i].cid in Loaded(recs, n).entries
    ensures Loaded(recs, n).entries[recs[i].cid] == Session(recs[i].lastSeq, recs[i].lastIndex)
    decreases n
  {
    if i < n - 1 { LastSessionCounts(recs, n - 1, i); }
  }

  /** The state that a blob's contents stand for. */
  function Restored(c: Contents): State {
    State(StoreOf(c.pairs, |c.pairs|), Loaded(c.recs, |c.recs|), Entombed(c.tombs, |c.tombs|))
  }

  // --------------------------------------------------- the lists of a snapshot

  lemma PairRead(s: bytes, p0: nat, p1: nat, p2: nat, k: bytes, v: bytes)
    requires ReadBytes(s, p0) == Got(k, p1) && ReadBytes(s, p1) == Got(v, p2)
    ensures ReadPair(s, p0) == Got((k, v), p2)
  {
  }

  lemma SessionRead(s: bytes, p0: nat, p1: nat, p2: nat, p3: nat, r: SessRec)
    requires RecFits(r) && ReadInt(s, p0) == Got(r.cid, p1) && ReadZigzag(s, p1) == Got(r.lastSeq, p2)
    requires ReadVarint(s, p2) == Got(r.lastIndex, p3)
    ensures ReadSession(s, p0) == Got(r, p3)
  {
  }

  lemma PairStands(fs: seq<Field>, p: nat, k: bytes, store: map<bytes, bytes>)
    requires PairAt(fs, p, k, store) && |k| < TWO_64 && |store[k]| < TWO_64
    ensures ReadPair(Encoded(fs), Start(fs, p)) == Got((k, store[k]), Start(fs, p + 2))
  {
    BytesAt(fs, p);
    BytesAt(fs, p + 1);
    PairRead(Encoded(fs), Start(fs, p), Start(fs, p + 1), Start(fs, p + 2), k, store[k]);
  }

  lemma SessionStands(fs: seq<Field>, p: nat, r: SessRec)
    requires SessionAt(fs, p, r)
    ensures ReadSession(Encoded(fs), Start(fs, p)) == Got(r, Start(fs, p + 3))
  {
    IntAt(fs, p);
    SignedAt(fs, p + 1);
    VarintAt(fs, p + 2);
    SessionRead(Encoded(fs), Start(fs, p), Start(fs, p + 1), Start(fs, p + 2), Start(fs, p + 3), r);
  }

  lemma TombStands(fs: seq<Field>, p: nat, r: TombRec)
    requires TombAt(fs, p, r)
    ensures ReadTomb(Encoded(fs), Start(fs, p)) == Got(r, Start(fs, p + 2))
  {
    IntAt(fs, p);
    SignedAt(fs, p + 1);
  }

  /** A count and the values behind it are read as a list. */
  lemma ListStands<T>(read: nat -> Parse<T>, fs: seq<Field>, p: nat, s: bytes, ps: seq<nat>, xs: seq<T>)
    requires p < |fs| && |xs| < TWO_31 && fs[p] == S(|xs|) && |ps| == |xs| + 1 && ps[0] == Start(fs, p + 1)
    requires s == Encoded(fs) && forall i: nat :: ReadsAt(read, ps, xs, i)
    ensures ReadList(read, s, Start(fs, p)) == Got(xs, ps[|xs|])
  {
    IntAt(fs, p);
    ManyRead(read, ps, xs, 0, |xs|);
    assert xs[0..] == xs;
  }

  /** The starts of n pairs of fields from off on. */
  function PairStarts(fs: seq<Field>, off: nat, n: nat): (ps: seq<nat>)
    requires off + 2 * n <= |fs|
    ensures |ps| == n + 1 && forall i :: 0 <= i <= n ==> ps[i] == Start(fs, off + 2 * i)
  {
    seq(n + 1, i requires 0 <= i <= n => Start(fs, off + 2 * i))
  }

  function TripleStarts(fs: seq<Field>, off: nat, n: nat): (ps: seq<nat>)
    requires off + 3 * n <= |fs|
    ensures |ps| == n + 1 && forall i :: 0 <= i <= n ==> ps[i] == Start(fs, off + 3 * i)
  {
    seq(n + 1, i requires 0 <= i <= n => Start(fs, off + 3 * i))
  }

  function PairsOf(keys: seq<bytes>, store: map<bytes, bytes>): (pairs: seq<Pair>)
    requires forall k :: k in keys ==> k in store
    ensures |pairs| == |keys| && forall i :: 0 <= i < |keys| ==> pairs[i] == (keys[i], store[keys[i]])
  {
    seq(|keys|, i requires 0 <= i < |keys| => assert keys[i] in keys; (keys[i], store[keys[i]]))
  }

  /** The records of the n least recently used sessions, the oldest first. */
  ghost function RecsOf(t: Table, n: nat): (recs: seq<SessRec>)
    requires n <= |t.lru|
    ensures |recs| == n && forall i: nat :: i < n ==> recs[i] == RecOf(t, i)
  {
    if n == 0 then [] else RecsOf(t, n - 1) + [RecOf(t, n - 1)]
  }

  ghost function TombRecsOf(t: Tombs, n: nat): (recs: seq<TombRec>)
    requires n <= |t.fifo|
    ensures |recs| == n && forall i: nat :: i < n ==> recs[i] == TombRecAt(t, i)
  {
    if n == 0 then [] else TombRecsOf(t, n - 1) + [TombRecAt(t, n - 1)]
  }

  lemma PairPlaced(fs: seq<Field>, p: nat, keys: seq<bytes>, store: map<bytes, bytes>, i: nat, s: bytes, ps: seq<nat>,
                   xs: seq<Pair>)
    requires s == Encoded(fs) && StorePart(fs, p, keys, store) && i < |keys| == |xs| && |ps| == |xs| + 1
    requires ps[i] == Start(fs, p + 2 * i) && ps[i + 1] == Start(fs, p + 2 * (i + 1))
    requires keys[i] in store && |keys[i]| < TWO_64 && |store[keys[i]]| < TWO_64 && xs[i] == (keys[i], store[keys[i]])
    ensures ReadsAt(PairReader(s), ps, xs, i)
  {
    assert PairAt(fs, p + 2 * i, keys[i], store);
    PairStands(fs, p + 2 * i, keys[i], store);
  }

  lemma SessionPlaced(fs: seq<Field>, p: nat, t: Table, i: nat, s: bytes, ps: seq<nat>, xs: seq<SessRec>)
    requires s == Encoded(fs) && SessionPart(fs, p, t) && i < |t.lru| == |xs| && |ps| == |xs| + 1
    requires ps[i] == Start(fs, p + 3 * i) && ps[i + 1] == Start(fs, p + 3 * (i + 1)) && xs[i] == RecOf(t, i)
    ensures ReadsAt(SessionReader(s), ps, xs, i)
  {
    assert SessionAt(fs, p + 3 * i, RecOf(t, i));
    SessionStands(fs, p + 3 * i, RecOf(t, i));
  }

  lemma TombPlaced(fs: seq<Field>, p: nat, t: Tombs, i: nat, s: bytes, ps: seq<nat>, xs: seq<TombRec>)
    requires s == Encoded(fs) && FencePart(fs, p, t) && i < |t.fifo| == |xs| && |ps| == |xs| + 1
    requires ps[i] == Start(fs, p + 2 * i) && ps[i + 1] == Start(fs, p + 2 * (i + 1)) && xs[i] == TombRecAt(t, i)
    ensures ReadsAt(TombReader(s), ps, xs, i)
  {
    assert TombAt(fs, p + 2 * i, TombRecAt(t, i));
    TombStands(fs, p + 2 * i, TombRecAt(t, i));
  }

  ghost predicate KeysFit(keys: seq<bytes>, store: map<bytes, bytes>) {
    forall k :: k in keys ==> k in store && |k| < TWO_64 && |store[k]| < TWO_64
  }

  lemma StoreRead(fs: seq<Field>, p: nat, keys: seq<bytes>, store: map<bytes, bytes>, s: bytes, xs: seq<Pair>)
    requires p < |fs| && |keys| < TWO_31 && fs[p] == S(|keys|) && StorePart(fs, p + 1, keys, store)
    requires KeysFit(keys, store) && s == Encoded(fs) && xs == PairsOf(keys, store)
    ensures ReadList(PairReader(s), s, Start(fs, p)) == Got(xs, Start(fs, p + 1 + 2 * |keys|))
  {
    var ps := PairStarts(fs, p + 1, |keys|);
    forall i: nat ensures ReadsAt(PairReader(s), ps, xs, i) {
      if i < |keys| {
        assert keys[i] in keys;
        PairPlaced(fs, p + 1, keys, store, i, s, ps, xs);
      }
    }
    ListStands(PairReader(s), fs, p, s, ps, xs);
  }

  lemma SessionsRead(fs: seq<Field>, p: nat, t: Table, s: bytes, xs: seq<SessRec>)
    requires p < |fs| && |t.lru| < TWO_31 && fs[p] == S(|t.lru|) && SessionPart(fs, p + 1, t)
    requires s == Encoded(fs) && xs == RecsOf(t, |t.lru|)
    ensures ReadList(SessionReader(s), s, Start(fs, p)) == Got(xs, Start(fs, p + 1 + 3 * |t.lru|))
  {
    var ps := TripleStarts(fs, p + 1, |t.lru|);
    forall i: nat ensures ReadsAt(SessionReader(s), ps, xs, i) {
      if i < |t.lru| { SessionPlaced(fs, p + 1, t, i, s, ps, xs); }
    }
    ListStands(SessionReader(s), fs, p, s, ps, xs);
  }

  lemma TombsRead(fs: seq<Field>, p: nat, t: Tombs, s: bytes, xs: seq<TombRec>)
    requires p < |fs| && |t.fifo| < TWO_31 && fs[p] == S(|t.fifo|) && FencePart(fs, p + 1, t)
    requires s == Encoded(fs) && xs == TombRecsOf(t, |t.fifo|)
    ensures ReadList(TombReader(s), s, Start(fs, p)) == Got(xs, Start(fs, p + 1 + 2 * |t.fifo|))
  {
    var ps := PairStarts(fs, p + 1, |t.fifo|);
    forall i: nat ensures ReadsAt(TombReader(s), ps, xs, i) {
      if i < |t.fifo| { TombPlaced(fs, p + 1, t, i, s, ps, xs); }
    }
    ListStands(TombReader(s), fs, p, s, ps, xs);
  }

  // ------------------------------------------------------- what they stand for

  /** store holds the first n keys, as whole does. */
  ghost predicate FirstKeys(store: map<bytes, bytes>, keys: seq<bytes>, n: nat, whole: map<bytes, bytes>)
    requires n <= |keys|
  {
    (forall i :: 0 <= i < n ==> keys[i] in store && keys[i] in whole && store[keys[i]] == whole[keys[i]])
    && (forall k :: k in store ==> exists i :: 0 <= i < n && keys[i] == k)
  }

  lemma FirstKeysGrow(store: map<bytes, bytes>, keys: seq<bytes>, n: nat, whole: map<bytes, bytes>)
    requires n < |keys| && FirstKeys(store, keys, n, whole) && keys[n] in whole
    ensures FirstKeys(store[keys[n] := whole[keys[n]]], keys, n + 1, whole)
  {
    var store2 := store[keys[n] := whole[keys[n]]];
    forall k | k in store2 ensures exists i :: 0 <= i < n + 1 && keys[i] == k {
      if k == keys[n] { assert keys[n] == k; } else { assert k in store; }
    }
  }

  lemma {:induction false} StoreUptoIs(keys: seq<bytes>, whole: map<bytes, bytes>, n: nat)
    requires n <= |keys| && forall k :: k in keys ==> k in whole
    ensures FirstKeys(StoreOf(PairsOf(keys, whole), n), keys, n, whole)
  {
    if n > 0 {
      StoreUptoIs(keys, whole, n - 1);
      assert keys[n - 1] in keys;
      FirstKeysGrow(StoreOf(PairsOf(keys, whole), n - 1), keys, n - 1, whole);
    }
  }

  lemma StoreOfAll(keys: seq<bytes>, whole: map<bytes, bytes>)
    requires forall k :: k in keys <==> k in whole
    ensures StoreOf(PairsOf(keys, whole), |keys|) == whole
  {
    StoreUptoIs(keys, whole, |keys|);
  }

  /** t2 is the n least recently used sessions of t. */
  ghost predicate OldestOf(t2: Table, t: Table, n: nat) {
    n <= |t.lru| && |t2.lru| == n && (forall i :: 0 <= i < n ==> t2.lru[i] == t.lru[|t.lru| - n + i])
    && (forall c :: c in t2.entries <==> c in t2.lru)
    && (forall c :: c in t2.entries ==> c in t.entries && t2.entries[c] == t.entries[c])
  }

  /** Loading the records from the oldest on rebuilds the sessions in their order of use. */
  lemma {:induction false} LoadedRebuilds(recs: seq<SessRec>, t: Table, n: nat)
    requires Sound(t) && recs == RecsOf(t, |t.lru|) && n <= |recs|
    ensures OldestOf(Loaded(recs, n), t, n)
  {
    if n > 0 {
      LoadedRebuilds(recs, t, n - 1);
      var before, c := Loaded(recs, n - 1), t.lru[|t.lru| - n];
      assert recs[n - 1] == RecOf(t, n - 1);
      assert c in t.lru;
      forall i | 0 <= i < n - 1 ensures before.lru[i] != c {}
      assert Loaded(recs, n).lru == [c] + before.lru;
    }
  }

  lemma SameMap<V>(a: map<int, V>, b: map<int, V>)
    requires (forall c :: c in a <==> c in b) && forall c :: c in a && c in b ==> a[c] == b[c]
    ensures a == b
  {
    forall c ensures c in a.Keys <==> c in b.Keys { assert c in a <==> c in b; }
    assert a.Keys == b.Keys;
    forall c | c in a ensures a[c] == b[c] { assert c in b; }
  }

  lemma OldestAll(t2: Table, t: Table)
    requires Sound(t) && OldestOf(t2, t, |t.lru|)
    ensures t2 == t
  {
    assert t2.lru == t.lru;
    SameMap(t2.entries, t.entries);
  }

  /** The first n tombstones of t. */
  ghost predicate FirstTombs(t2: Tombs, t: Tombs, n: nat) {
    n <= |t.fifo| && t2.fifo == t.fifo[..n]
    && (forall c :: c in t2.fenced <==> c in t2.fifo)
    && (forall c :: c in t2.fenced ==> c in t.fenced && t2.fenced[c] == t.fenced[c])
  }

  lemma {:induction false} EntombedRebuilds(recs: seq<TombRec>, t: Tombs, n: nat)
    requires TombsSound(t) && recs == TombRecsOf(t, |t.fifo|) && n <= |recs|
    ensures FirstTombs(Entombed(recs, n), t, n)
  {
    if n > 0 {
      EntombedRebuilds(recs, t, n - 1);
      assert recs[n - 1] == TombRecAt(t, n - 1) && t.fifo[n - 1] in t.fifo;
      assert t.fifo[..n] == t.fifo[..n - 1] + [t.fifo[n - 1]];
    }
  }

  lemma EntombedAll(t: Tombs)
    requires TombsSound(t)
    ensures Entombed(TombRecsOf(t, |t.fifo|), |t.fifo|) == t
  {
    var recs := TombRecsOf(t, |t.fifo|);
    EntombedRebuilds(recs, t, |t.fifo|);
    assert t.fifo[..|t.fifo|] == t.fifo;
    SameMap(Entombed(recs, |t.fifo|).fenced, t.fenced);
  }

  lemma LoadedAll(t: Table)
    requires Sound(t)
    ensures Loaded(RecsOf(t, |t.lru|), |t.lru|) == t
  {
    LoadedRebuilds(RecsOf(t, |t.lru|), t, |t.lru|);
    OldestAll(Loaded(RecsOf(t, |t.lru|), |t.lru|), t);
  }

  lemma {:induction false} EntombedSound(recs: seq<TombRec>, n: nat)
    requires n <= |recs|
    ensures TombsSound(Entombed(recs, n))
  {
    if n > 0 { EntombedSound(recs, n - 1); }
  }

  lemma ThreeLists(s: bytes, p1: nat, p2: nat, c: Contents)
    requires ReadList(PairReader(s), s, 0) == Got(c.pairs, p1) && ReadList(SessionReader(s), s, p1) == Got(c.recs, p2)
    requires ReadList(TombReader(s), s, p2) == Got(c.tombs, |s|)
    ensures ReadSnapshot(s) == Some(c)
  {
  }

  /** c is what the fields of s say. */
  ghost predicate ContentsOf(s: State, keys: seq<bytes>, c: Contents) {
    (forall k :: k in keys ==> k in s.store) && c.pairs == PairsOf(keys, s.store)
    && c.recs == RecsOf(s.table, |s.table.lru|) && c.tombs == TombRecsOf(s.tombs, |s.tombs.fifo|)
  }

  lemma CoveredFit(s: State, keys: seq<bytes>)
    requires Fits(s) && Covers(keys, s.store)
    ensures KeysFit(keys, s.store)
  {
  }

  lemma PairsFirst(keys: seq<bytes>, store: map<bytes, bytes>, fs: seq<Field>, blob: bytes, pairs: seq<Pair>, p: nat)
    requires KeysFit(keys, store) && blob == Encoded(fs) && pairs == PairsOf(keys, store)
    requires 0 < |fs| && |keys| < TWO_31 && fs[0] == S(|keys|) && StorePart(fs, 1, keys, store)
    requires p == 1 + 2 * |keys|
    ensures p <= |fs| && ReadList(PairReader(blob), blob, 0) == Got(pairs, Start(fs, p))
  {
    StoreRead(fs, 0, keys, store, blob, pairs);
  }

  lemma SessionsSecond(s: State, keys: seq<bytes>, fs: seq<Field>, blob: bytes, c: Contents, p: nat, q: nat)
    requires SnapshotFields(s, keys, fs) && blob == Encoded(fs) && ContentsOf(s, keys, c)
    requires p == 1 + 2 * |keys| && q == p + 1 + 3 * |s.table.lru|
    ensures p < q <= |fs| && ReadList(SessionReader(blob), blob, Start(fs, p)) == Got(c.recs, Start(fs, q))
  {
    SessionsRead(fs, p, s.table, blob, c.recs);
  }

  lemma TombsThird(s: State, keys: seq<bytes>, fs: seq<Field>, blob: bytes, c: Contents, q: nat)
    requires SnapshotFields(s, keys, fs) && blob == Encoded(fs) && ContentsOf(s, keys, c)
    requires q == 2 + 2 * |keys| + 3 * |s.table.lru|
    ensures q < |fs| && ReadList(TombReader(blob), blob, Start(fs, q)) == Got(c.tombs, |blob|)
  {
    TombsRead(fs, q, s.tombs, blob, c.tombs);
    StartIsLength(fs);
  }

  /** The fields of s are read as its lists. */
  lemma FieldsRead(s: State, keys: seq<bytes>, fs: seq<Field>, blob: bytes, c: Contents)
    requires SnapshotFields(s, keys, fs) && Fits(s) && blob == Encoded(fs) && ContentsOf(s, keys, c)
    ensures ReadSnapshot(blob) == Some(c)
  {
    var p := 1 + 2 * |keys|;
    var q := p + 1 + 3 * |s.table.lru|;
    CoveredFit(s, keys);
    PairsFirst(keys, s.store, fs, blob, c.pairs, p);
    SessionsSecond(s, keys, fs, blob, c, p, q);
    TombsThird(s, keys, fs, blob, c, q);
    ThreeLists(blob, Start(fs, p), Start(fs, q), c);
  }

  /**
   * A snapshot of s is read as s: the same store, the sessions in the same order with the same
   * times, the tombstones in the same order.
   */
  lemma SnapshotRoundTrip(blob: bytes, s: State)
    requires SnapshotOf(blob, s) && Fits(s)
    ensures ReadSnapshot(blob).Some? && Restored(ReadSnapshot(blob).value) == s
  {
    var keys, fs :| SnapshotFields(s, keys, fs) && blob == Encoded(fs);
    FieldsRead(s, keys, fs, blob,
               Contents(PairsOf(keys, s.store), RecsOf(s.table, |s.table.lru|), TombRecsOf(s.tombs, |s.tombs.fifo|)));
    StoreOfAll(keys, s.store);
    LoadedAll(s.table);
    EntombedAll(s.tombs);
  }

  // ----------------------------------------------------------- one snapshot

  lemma SameStorePart(fs: seq<Field>, gs: seq<Field>, off: nat, keys: seq<bytes>, store: map<bytes, bytes>, i: nat)
    requires StorePart(fs, off, keys, store) && StorePart(gs, off, keys, store) && off <= i < off + 2 * |keys|
    ensures fs[i] == gs[i]
  {
    var j: nat := (i - off) / 2;
    assert PairAt(fs, off + 2 * j, keys[j], store) && PairAt(gs, off + 2 * j, keys[j], store);
  }

  lemma SameSessionPart(fs: seq<Field>, gs: seq<Field>, off: nat, t: Table, i: nat)
    requires SessionPart(fs, off, t) && SessionPart(gs, off, t) && off <= i < off + 3 * |t.lru|
    ensures fs[i] == gs[i]
  {
    var j: nat := (i - off) / 3;
    assert SessionAt(fs, off + 3 * j, RecOf(t, j)) && SessionAt(gs, off + 3 * j, RecOf(t, j));
  }

  lemma SameFencePart(fs: seq<Field>, gs: seq<Field>, off: nat, t: Tombs, i: nat)
    requires FencePart(fs, off, t) && FencePart(gs, off, t) && off <= i < off + 2 * |t.fifo|
    ensures fs[i] == gs[i]
  {
    var j: nat := (i - off) / 2;
    assert TombAt(fs, off + 2 * j, TombRecAt(t, j)) && TombAt(gs, off + 2 * j, TombRecAt(t, j));
  }

  lemma SameFields(s: State, keys: seq<bytes>, fs: seq<Field>, gs: seq<Field>)
    requires SnapshotFields(s, keys, fs) && SnapshotFields(s, keys, gs)
    ensures fs == gs
  {
    var n, m := |keys|, |s.table.lru|;
    forall i | 0 <= i < |fs| ensures fs[i] == gs[i] {
      if 1 <= i < 1 + 2 * n { SameStorePart(fs, gs, 1, keys, s.store, i); }
      else if 2 + 2 * n <= i < 2 + 2 * n + 3 * m { SameSessionPart(fs, gs, 2 + 2 * n, s.table, i); }
      else if i >= 3 + 2 * n + 3 * m { SameFencePart(fs, gs, 3 + 2 * n + 3 * m, s.tombs, i); }
    }
  }

  /** A state has one snapshot: replicas that hold the same write the same bytes. */
  lemma OneSnapshot(a: bytes, b: bytes, s: State)
    requires SnapshotOf(a, s) && SnapshotOf(b, s)
    ensures a == b
  {
    var keys, fs :| SnapshotFields(s, keys, fs) && a == Encoded(fs);
    var others, gs :| SnapshotFields(s, others, gs) && b == Encoded(gs);
    forall k ensures k in keys <==> k in others { assert k in keys <==> k in s.store; }
    AscendingOnce(keys, others);
    SameFields(s, keys, fs, gs);
  }

  // ------------------------------------------------------ nothing may follow

  lemma PairLonger(s: bytes, more: bytes, pos: nat)
    requires ReadPair(s, pos).Got?
    ensures ReadPair(s + more, pos) == ReadPair(s, pos)
  {
    BytesLonger(s, more, pos);
    BytesLonger(s, more, ReadBytes(s, pos).next);
  }

  lemma SessionLonger(s: bytes, more: bytes, pos: nat)
    requires ReadSession(s, pos).Got?
    ensures ReadSession(s + more, pos) == ReadSession(s, pos)
  {
    IntLonger(s, more, pos);
    var p := ReadInt(s, pos).next;
    ZigzagLonger(s, more, p);
    VarintLonger(s, more, ReadZigzag(s, p).next);
  }

  lemma TombLonger(s: bytes, more: bytes, pos: nat)
    requires ReadTomb(s, pos).Got?
    ensures ReadTomb(s + more, pos) == ReadTomb(s, pos)
  {
    IntLonger(s, more, pos);
    ZigzagLonger(s, more, ReadInt(s, pos).next);
  }

  lemma ListLonger<T>(read: nat -> Parse<T>, longer: nat -> Parse<T>, s: bytes, more: bytes, pos: nat)
    requires ReadList(read, s, pos).Got? && forall p :: read(p).Got? ==> longer(p) == read(p)
    ensures ReadList(longer, s + more, pos) == ReadList(read, s, pos)
  {
    IntLonger(s, more, pos);
    var n := ReadInt(s, pos);
    ManyLonger(read, longer, n.next, n.value);
  }

  /** Nothing may follow a snapshot: a blob with further bytes behind it is refused. */
  lemma SnapshotEndsThere(s: bytes, more: bytes)
    requires ReadSnapshot(s).Some? && more != []
    ensures ReadSnapshot(s + more).None?
  {
    var t := s + more;
    forall p | PairReader(s)(p).Got? ensures PairReader(t)(p) == PairReader(s)(p) { PairLonger(s, more, p); }
    forall p | SessionReader(s)(p).Got? ensures SessionReader(t)(p) == SessionReader(s)(p) {
      SessionLonger(s, more, p);
    }
    forall p | TombReader(s)(p).Got? ensures TombReader(t)(p) == TombReader(s)(p) { TombLonger(s, more, p); }
    var p1 := ReadList(PairReader(s), s, 0).next;
    var p2 := ReadList(SessionReader(s), s, p1).next;
    ListLonger(PairReader(s), PairReader(t), s, more, 0);
    ListLonger(SessionReader(s), SessionReader(t), s, more, p1);
    ListLonger(TombReader(s), TombReader(t), s, more, p2);
  }
}
