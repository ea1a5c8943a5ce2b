/**
 * Writing and restoring snapshots of the key-value state, and what that is for: a replica that
 * restored one stays in step with the replicas that replayed the log.
 */
module KvSnapshot {
  import opened Wrappers
  import opened Sequences
  import opened Codec
  import opened Messages
  import opened KeyOrder
  import opened Sessions
  import opened KvServer
  import opened SnapshotLayout

  // ---------------------------------------------------------------- writing

  /** gs only adds fields behind fs. */
  ghost predicate Extends(gs: seq<Field>, fs: seq<Field>) {
    |fs| <= |gs| && forall i :: 0 <= i < |fs| ==> gs[i] == fs[i]
  }

  method WritePair(e: Encoder, k: bytes, v: bytes)
    requires e.Valid() && |k| < TWO_64 && |v| < TWO_64
    modifies e
    ensures e.Valid() && e.fields == old(e.fields) + [B(k), B(v)]
  {
    e.Bytes(k);
    e.Bytes(v);
  }

  lemma StoreGrows(fs: seq<Field>, p: nat, keys: seq<bytes>, k: bytes, store: map<bytes, bytes>)
    requires |fs| == p + 2 * |keys| && StorePart(fs, p, keys, store) && k in store
    ensures StorePart(fs + [B(k), B(store[k])], p, keys + [k], store)
  {
    var gs, ks := fs + [B(k), B(store[k])], keys + [k];
    forall i: nat | i < |ks| ensures PairAt(gs, p + 2 * i, ks[i], store) {
      if i < |keys| { assert PairAt(fs, p + 2 * i, keys[i], store); }
    }
  }

  ghost predicate Ahead(keys: seq<bytes>, rest: set<bytes>) {
    forall i, x :: 0 <= i < |keys| && x in rest ==> Less(keys[i], x)
  }

  /** The keys written are those of the store that are no longer waiting, in their order. */
  ghost predicate Taken(keys: seq<bytes>, rest: set<bytes>, store: map<bytes, bytes>) {
    Ascending(keys) && Ahead(keys, rest) && rest <= store.Keys
    && forall k :: k in keys <==> k in store.Keys && k !in rest
  }

  lemma TakenGrows(keys: seq<bytes>, rest: set<bytes>, store: map<bytes, bytes>, k: bytes)
    requires Taken(keys, rest, store) && LeastOf(k, rest)
    ensures Taken(keys + [k], rest - {k}, store) && k in store
  {
    LessIrreflexive(k);
  }

  lemma AllTaken(keys: seq<bytes>, store: map<bytes, bytes>)
    requires Taken(keys, {}, store)
    ensures Covers(keys, store)
  {
    AscendingDistinct(keys);
    DistinctCount(keys, store.Keys);
    assert |store.Keys| == |store|;
  }

  /** From off on stand n and then what fs holds of the keys, the sessions or the tombstones, to the end. */
  ghost predicate StoreWritten(off: nat, fs: seq<Field>, keys: seq<bytes>, store: map<bytes, bytes>) {
    exists n: nat :: n == |keys| && |fs| == off + 1 + 2 * n && n < TWO_63 && fs[off] == S(n)
                     && StorePart(fs, off + 1, keys, store)
  }

  ghost predicate SessionsWritten(off: nat, fs: seq<Field>, t: Table) {
    exists n: nat :: n == |t.lru| && |fs| == off + 1 + 3 * n && n < TWO_63 && fs[off] == S(n)
                     && SessionPart(fs, off + 1, t)
  }

  ghost predicate TombsWritten(off: nat, fs: seq<Field>, t: Tombs) {
    exists n: nat :: n == |t.fifo| && |fs| == off + 1 + 2 * n && n < TWO_63 && fs[off] == S(n)
                     && FencePart(fs, off + 1, t)
  }

  /** The number of pairs stands at p, and behind it the pairs of keys; rest is still to come. */
  ghost predicate StoreUpto(fs: seq<Field>, p: nat, keys: seq<bytes>, rest: set<bytes>, store: map<bytes, bytes>) {
    exists n: nat :: n == |store| && n < TWO_63 && |fs| == p + 1 + 2 * |keys| && fs[p] == S(n)
      && StorePart(fs, p + 1, keys, store) && Taken(keys, rest, store)
  }

  lemma StoreUptoGrows(fs: seq<Field>, p: nat, keys: seq<bytes>, rest: set<bytes>, store: map<bytes, bytes>, k: bytes)
    requires StoreUpto(fs, p, keys, rest, store) && LeastOf(k, rest) && k in store
    ensures StoreUpto(fs + [B(k), B(store[k])], p, keys + [k], rest - {k}, store)
  {
    StoreGrows(fs, p + 1, keys, k, store);
    TakenGrows(keys, rest, store, k);
  }

  lemma TakenOf(fs: seq<Field>, p: nat, keys: seq<bytes>, rest: set<bytes>, store: map<bytes, bytes>)
    requires StoreUpto(fs, p, keys, rest, store)
    ensures rest <= store.Keys
  {
  }

  lemma StoreComplete(fs: seq<Field>, p: nat, keys: seq<bytes>, store: map<bytes, bytes>)
    requires StoreUpto(fs, p, keys, {}, store) && |store| < TWO_31
    ensures Covers(keys, store) && StoreWritten(p, fs, keys, store)
  {
    AllTaken(keys, store);
  }

  /** Writes the number of pairs and then the pairs, in the order of the keys. */
  method EncodeStore(e: Encoder, store: map<bytes, bytes>) returns (ghost keys: seq<bytes>)
    requires e.Valid() && |store| < TWO_31 && forall k :: k in store ==> |k| < TWO_64 && |store[k]| < TWO_64
    modifies e
    ensures e.Valid() && Extends(e.fields, old(e.fields))
    ensures Covers(keys, store) && StoreWritten(|old(e.fields)|, e.fields, keys, store)
  {
    ghost var p := |e.fields|;
    e.Int(|store|);
    keys := [];
    var rest := store.Keys;
    while rest != {}
      invariant e.Valid() && Extends(e.fields, old(e.fields)) && StoreUpto(e.fields, p, keys, rest, store)
      decreases rest
    {
      TakenOf(e.fields, p, keys, rest, store);
      var k := Least(rest);
      StoreUptoGrows(e.fields, p, keys, rest, store, k);
      WritePair(e, k, store[k]);
      rest := rest - {k};
      keys := keys + [k];
    }
    StoreComplete(e.fields, p, keys, store);
  }

  method WriteSession(e: Encoder, r: SessRec)
    requires e.Valid() && RecFits(r)
    modifies e
    ensures e.Valid() && e.fields == old(e.fields) + [S(r.cid), S(r.lastSeq), U(r.lastIndex)]
  {
    e.Int(r.cid);
    e.Zigzag(r.lastSeq);
    e.Varint(r.lastIndex);
  }

  /** The first n session records stand from off on. */
  ghost predicate SessionsUpto(fs: seq<Field>, off: nat, t: Table, n: nat) {
    n <= |t.lru| && |fs| == off + 3 * n && forall j: nat :: j < n ==> SessionAt(fs, off + 3 * j, RecOf(t, j))
  }

  lemma SessionsGrow(fs: seq<Field>, off: nat, t: Table, n: nat)
    requires SessionsUpto(fs, off, t, n) && n < |t.lru| && RecFits(RecOf(t, n))
    ensures var r := RecOf(t, n); SessionsUpto(fs + [S(r.cid), S(r.lastSeq), U(r.lastIndex)], off, t, n + 1)
  {
    var r := RecOf(t, n);
    var gs := fs + [S(r.cid), S(r.lastSeq), U(r.lastIndex)];
    forall j: nat | j < n + 1 ensures SessionAt(gs, off + 3 * j, RecOf(t, j)) {
      if j < n { assert SessionAt(fs, off + 3 * j, RecOf(t, j)); }
    }
  }

  /** The number m of sessions stands at p, and behind it the first n records. */
  ghost predicate SessionsFrom(fs: seq<Field>, p: nat, t: Table, m: int64, n: nat) {
    exists q: nat :: q == p + 1 && p < |fs| && fs[p] == S(m) && SessionsUpto(fs, q, t, n)
  }

  lemma SessionsStart(fs: seq<Field>, p: nat, t: Table, m: int64)
    requires |fs| == p + 1 && fs[p] == S(m)
    ensures SessionsFrom(fs, p, t, m, 0)
  {
    assert SessionsUpto(fs, p + 1, t, 0);
  }

  lemma SessionsFromGrow(fs: seq<Field>, p: nat, t: Table, m: int64, n: nat, r: SessRec)
    requires SessionsFrom(fs, p, t, m, n) && n < |t.lru| && r == RecOf(t, n) && RecFits(r)
    ensures SessionsFrom(fs + [S(r.cid), S(r.lastSeq), U(r.lastIndex)], p, t, m, n + 1)
  {
    SessionsGrow(fs, p + 1, t, n);
  }

  lemma SessionFits(t: Table, i: nat, c: int)
    requires Sound(t) && i < |t.lru| && c == t.lru[|t.lru| - 1 - i]
    requires forall c :: c in t.entries ==> RecFits(SessRec(c, t.entries[c].lastSeq, t.entries[c].lastIndex))
    ensures c in t.entries && RecOf(t, i) == SessRec(c, t.entries[c].lastSeq, t.entries[c].lastIndex)
    ensures RecFits(RecOf(t, i))
  {
  }

  lemma SessionsComplete(fs: seq<Field>, p: nat, t: Table, m: int64)
    requires SessionsFrom(fs, p, t, m, |t.lru|) && m == |t.lru|
    ensures SessionsWritten(p, fs, t)
  {
  }

  /** Writes the number of sessions and then the sessions, from the old end to the new one. */
  method EncodeSessions(e: Encoder, sessions: SessionTable)
    requires e.Valid() && sessions.Valid() && |sessions.lru| < TWO_31
    requires forall c :: c in sessions.entries ==>
      RecFits(SessRec(c, sessions.entries[c].lastSeq, sessions.entries[c].lastIndex))
    modifies e
    ensures e.Valid() && Extends(e.fields, old(e.fields)) && SessionsWritten(|old(e.fields)|, e.fields, sessions.View())
  {
    ghost var p := |e.fields|;
    ghost var t := sessions.View();
    SizeOf(t);
    var m := |sessions.entries|;
    e.Int(m);
    SessionsStart(e.fields, p, t, m);
    for i := 0 to m
      invariant e.Valid() && Extends(e.fields, old(e.fields)) && SessionsFrom(e.fields, p, t, m, i)
    {
      var c := sessions.lru[m - 1 - i];
      SessionFits(t, i, c);
      SessionsFromGrow(e.fields, p, t, m, i, RecOf(t, i));
      WriteSession(e, SessRec(c, sessions.entries[c].lastSeq, sessions.entries[c].lastIndex));
    }
    SessionsComplete(e.fields, p, t, m);
  }

  /** The first n tombstones stand from off on. */
  ghost predicate TombsUpto(fs: seq<Field>, off: nat, t: Tombs, n: nat)
    requires TombsSound(t)
  {
    n <= |t.fifo| && |fs| == off + 2 * n && forall j: nat :: j < n ==> TombAt(fs, off + 2 * j, TombRecAt(t, j))
  }

  lemma TombsGrow(fs: seq<Field>, off: nat, t: Tombs, n: nat, c: int32, seqNo: int64)
    requires TombsSound(t) && TombsUpto(fs, off, t, n) && n < |t.fifo| && TombRecAt(t, n) == TombRec(c, seqNo)
    ensures TombsUpto(fs + [S(c), S(seqNo)], off, t, n + 1)
  {
    var gs := fs + [S(c), S(seqNo)];
    forall j: nat | j < n + 1 ensures TombAt(gs, off + 2 * j, TombRecAt(t, j)) {
      if j < n { assert TombAt(fs, off + 2 * j, TombRecAt(t, j)); }
    }
  }

  method WriteTomb(e: Encoder, c: int32, seqNo: int64)
    requires e.Valid()
    modifies e
    ensures e.Valid() && e.fields == old(e.fields) + [S(c), S(seqNo)]
  {
    e.Int(c);
    e.Zigzag(seqNo);
  }

  /** Writes the number of tombstones and then the tombstones, the oldest first. */
  method EncodeTombs(e: Encoder, fence: Fence)
    requires e.Valid() && TombsSound(fence.View()) && |fence.fifo| < TWO_31
    requires forall c :: c in fence.fenced ==> -TWO_31 <= c < TWO_31 && -TWO_63 <= fence.fenced[c] < TWO_63
    modifies e
    ensures e.Valid() && Extends(e.fields, old(e.fields)) && TombsWritten(|old(e.fields)|, e.fields, fence.View())
  {
    ghost var p := |e.fields|;
    ghost var t := fence.View();
    var n := |fence.fifo|;
    e.Int(n);
    for i := 0 to n
      invariant e.Valid() && Extends(e.fields, old(e.fields)) && TombsUpto(e.fields, p + 1, t, i) && e.fields[p] == S(n)
    {
      var c := fence.fifo[i];
      assert c in fence.fifo;
      TombsGrow(e.fields, p + 1, t, i, c, fence.fenced[c]);
      WriteTomb(e, c, fence.fenced[c]);
    }
  }

  lemma PartsStay(fs: seq<Field>, gs: seq<Field>, off: nat, keys: seq<bytes>, store: map<bytes, bytes>)
    requires Extends(gs, fs) && StorePart(fs, off, keys, store)
    ensures StorePart(gs, off, keys, store)
  {
    forall i: nat | i < |keys| ensures PairAt(gs, off + 2 * i, keys[i], store) {
      assert PairAt(fs, off + 2 * i, keys[i], store);
    }
  }

  lemma SessionsStay(fs: seq<Field>, gs: seq<Field>, off: nat, t: Table)
    requires Extends(gs, fs) && SessionPart(fs, off, t)
    ensures SessionPart(gs, off, t)
  {
    forall i: nat | i < |t.lru| ensures SessionAt(gs, off + 3 * i, RecOf(t, i)) {
      assert SessionAt(fs, off + 3 * i, RecOf(t, i));
    }
  }

  /** The snapshot of the whole state. */
  method EncodeSnapshot(server: Server) returns (blob: bytes)
    requires server.Valid() && Fits(server.View())
    ensures SnapshotOf(blob, server.View())
  {
    var e := new Encoder();
    ghost var s := server.View();
    ghost var keys := EncodeStore(e, server.store);
    ghost var first := e.fields;
    EncodeSessions(e, server.sessions);
    ghost var second := e.fields;
    EncodeTombs(e, server.fence);
    Assembled(s, keys, first, second, e.fields);
    blob := e.buf;
  }

  /** The three parts written one after another are the fields of the state. */
  lemma Assembled(s: State, keys: seq<bytes>, first: seq<Field>, second: seq<Field>, third: seq<Field>)
    requires Covers(keys, s.store) && Sound(s.table) && TombsSound(s.tombs) && Fits(s)
    requires StoreWritten(0, first, keys, s.store)
    requires Extends(second, first) && SessionsWritten(|first|, second, s.table)
    requires Extends(third, second) && TombsWritten(|second|, third, s.tombs)
    ensures SnapshotFields(s, keys, third)
  {
    PartsStay(first, second, 1, keys, s.store);
    PartsStay(second, third, 1, keys, s.store);
    SessionsStay(second, third, |first| + 1, s.table);
  }

  // ---------------------------------------------------------------- reading

  method DecodePair(d: Decoder) returns (done: bool, pair: Pair)
    modifies d
    ensures var r := ReadPair(d.buf, old(d.pos));
      done == r.Got? && (done ==> pair == r.value && d.pos == r.next && d.ok == old(d.ok))
  {
    var k, v: bytes := [], [];
    done, k := d.Bytes();
    if done { done, v := d.Bytes(); }
    pair := (k, v);
  }

  method DecodeSession(d: Decoder) returns (done: bool, rec: SessRec)
    modifies d
    ensures var r := ReadSession(d.buf, old(d.pos));
      done == r.Got? && (done ==> rec == r.value && d.pos == r.next && d.ok == old(d.ok))
  {
    var cid: int32, lastSeq: int64, lastIndex: uint64 := 0, 0, 0;
    done, cid := d.Int();
    if done { done, lastSeq := d.Zigzag(); }
    if done { done, lastIndex := d.Varint(); }
    rec := SessRec(cid, lastSeq, lastIndex);
  }

  method DecodeTomb(d: Decoder) returns (done: bool, rec: TombRec)
    modifies d
    ensures var r := ReadTomb(d.buf, old(d.pos));
      done == r.Got? && (done ==> rec == r.value && d.pos == r.next && d.ok == old(d.ok))
  {
    var cid: int32, lastSeq: int64 := 0, 0;
    done, cid := d.Int();
    if done { done, lastSeq := d.Zigzag(); }
    rec := TombRec(cid, lastSeq);
  }

  lemma NextPair(read: nat -> Parse<Pair>, buf: bytes, pos: nat, n: nat, all: Parse<seq<Pair>>, sofar: seq<Pair>)
    requires read == PairReader(buf) && n > 0 && Continues(all, sofar, ReadMany(read, pos, n))
    ensures var r := ReadPair(buf, pos);
      if r.Bad? then all == Bad else Continues(all, sofar + [r.value], ReadMany(read, r.next, n - 1))
  {
    ContinueOne(read, pos, n, all, sofar);
  }

  method DecodeStore(d: Decoder, n: nat, ghost read: nat -> Parse<Pair>)
    returns (ok: bool, store: map<bytes, bytes>, ghost pairs: seq<Pair>)
    requires read == PairReader(d.buf)
    modifies d
    ensures var r := ReadMany(read, old(d.pos), n);
      ok == r.Got? && (ok ==> pairs == r.value && d.pos == r.next && d.ok == old(d.ok))
    ensures store == StoreOf(pairs, |pairs|)
  {
    store, pairs := map[], [];
    ghost var all := ReadMany(read, d.pos, n);
    StartContinues(all);
    for i := 0 to n
      invariant d.ok == old(d.ok) && store == StoreOf(pairs, |pairs|)
      invariant Continues(all, pairs, ReadMany(read, d.pos, n - i))
    {
      NextPair(read, d.buf, d.pos, n - i, all, pairs);
      var done, pair := DecodePair(d);
      if !done { return false, store, pairs; }
      StoreMore(pairs, pair);
      store, pairs := store[pair.0 := pair.1], pairs + [pair];
    }
    ok := true;
  }

  lemma StoreMore(pairs: seq<Pair>, pair: Pair)
    ensures StoreOf(pairs + [pair], |pairs| + 1) == StoreOf(pairs, |pairs|)[pair.0 := pair.1]
  {
    SameStore(pairs, pairs + [pair], |pairs|);
  }

  lemma {:induction false} SameStore(a: seq<Pair>, b: seq<Pair>, n: nat)
    requires n <= |a| && n <= |b| && a[..n] == b[..n]
    ensures StoreOf(a, n) == StoreOf(b, n)
  {
    if n > 0 {
      assert a[..n - 1] == a[..n][..n - 1] && b[..n - 1] == b[..n][..n - 1];
      assert a[n - 1] == a[..n][n - 1] == b[..n][n - 1] == b[n - 1];
      SameStore(a, b, n - 1);
    }
  }

  lemma NextSession(read: nat -> Parse<SessRec>, buf: bytes, pos: nat, n: nat, all: Parse<seq<SessRec>>,
                    sofar: seq<SessRec>)
    requires read == SessionReader(buf) && n > 0 && Continues(all, sofar, ReadMany(read, pos, n))
    ensures var r := ReadSession(buf, pos);
      if r.Bad? then all == Bad else Continues(all, sofar + [r.value], ReadMany(read, r.next, n - 1))
  {
    ContinueOne(read, pos, n, all, sofar);
  }

  /** Decodes one more record, of the n that are still to come. */
  method AppendSession(d: Decoder, sofar: seq<SessRec>, ghost read: nat -> Parse<SessRec>, ghost n: nat,
                       ghost all: Parse<seq<SessRec>>)
    returns (done: bool, recs: seq<SessRec>)
    requires read == SessionReader(d.buf) && n > 0 && Continues(all, sofar, ReadMany(read, d.pos, n))
    modifies d
    ensures if done then Continues(all, recs, ReadMany(read, d.pos, n - 1)) && d.ok == old(d.ok) else all == Bad
  {
    NextSession(read, d.buf, d.pos, n, all, sofar);
    var rec;
    done, rec := DecodeSession(d);
    recs := sofar + [rec];
  }

  method DecodeSessions(d: Decoder, n: nat, ghost read: nat -> Parse<SessRec>) returns (ok: bool, recs: seq<SessRec>)
    requires read == SessionReader(d.buf)
    modifies d
    ensures var r := ReadMany(read, old(d.pos), n);
      ok == r.Got? && (ok ==> recs == r.value && d.pos == r.next && d.ok == old(d.ok))
  {
    recs := [];
    ghost var all := ReadMany(read, d.pos, n);
    StartContinues(all);
    for i := 0 to n
      invariant d.ok == old(d.ok)
      invariant Continues(all, recs, ReadMany(read, d.pos, n - i))
    {
      ok, recs := AppendSession(d, recs, read, n - i, all);
      if !ok { return; }
    }
    ok := true;
  }

  lemma NextTomb(read: nat -> Parse<TombRec>, buf: bytes, pos: nat, n: nat, all: Parse<seq<TombRec>>,
                 sofar: seq<TombRec>)
    requires read == TombReader(buf) && n > 0 && Continues(all, sofar, ReadMany(read, pos, n))
    ensures var r := ReadTomb(buf, pos);
      if r.Bad? then all == Bad else Continues(all, sofar + [r.value], ReadMany(read, r.next, n - 1))
  {
    ContinueOne(read, pos, n, all, sofar);
  }

  /** Decodes one more record, of the n that are still to come. */
  method AppendTomb(d: Decoder, sofar: seq<TombRec>, ghost read: nat -> Parse<TombRec>, ghost n: nat,
                    ghost all: Parse<seq<TombRec>>)
    returns (done: bool, recs: seq<TombRec>)
    requires read == TombReader(d.buf) && n > 0 && Continues(all, sofar, ReadMany(read, d.pos, n))
    modifies d
    ensures if done then Continues(all, recs, ReadMany(read, d.pos, n - 1)) && d.ok == old(d.ok) else all == Bad
  {
    NextTomb(read, d.buf, d.pos, n, all, sofar);
    var rec;
    done, rec := DecodeTomb(d);
    recs := sofar + [rec];
  }

  method DecodeTombs(d: Decoder, n: nat, ghost read: nat -> Parse<TombRec>) returns (ok: bool, recs: seq<TombRec>)
    requires read == TombReader(d.buf)
    modifies d
    ensures var r := ReadMany(read, old(d.pos), n);
      ok == r.Got? && (ok ==> recs == r.value && d.pos == r.next && d.ok == old(d.ok))
  {
    recs := [];
    ghost var all := ReadMany(read, d.pos, n);
    StartContinues(all);
    for i := 0 to n
      invariant d.ok == old(d.ok)
      invariant Continues(all, recs, ReadMany(read, d.pos, n - i))
    {
      ok, recs := AppendTomb(d, recs, read, n - i, all);
      if !ok { return; }
    }
    ok := true;
  }

  /** The count in front of a list. */
  method DecodeCount(d: Decoder) returns (ok: bool, n: nat)
    modifies d
    ensures var r := ReadInt(d.buf, old(d.pos));
      ok == (r.Got? && r.value >= 0) && (ok ==> n == r.value && d.pos == r.next && d.ok == old(d.ok))
  {
    var v: int32;
    ok, v := d.Int();
    if !ok || v < 0 { return false, 0; }
    n := v;
  }

  /** Reads the whole blob, without touching the state. */
  method DecodeSnapshot(blob: bytes)
    returns (ok: bool, store: map<bytes, bytes>, recs: seq<SessRec>, tombs: seq<TombRec>, ghost c: Contents)
    ensures ok == ReadSnapshot(blob).Some?
    ensures ok ==> c == ReadSnapshot(blob).value && store == StoreOf(c.pairs, |c.pairs|)
                   && recs == c.recs && tombs == c.tombs
  {
    store, recs, tombs, c := map[], [], [], Contents([], [], []);
    var d := new Decoder(blob);
    var n;
    ok, n := DecodeCount(d);
    if !ok { return; }
    ghost var pairs;
    ok, store, pairs := DecodeStore(d, n, PairReader(blob));
    if !ok { return; }
    ok, n := DecodeCount(d);
    if !ok { return; }
    ok, recs := DecodeSessions(d, n, SessionReader(blob));
    if !ok { return; }
    ok, n := DecodeCount(d);
    if !ok { return; }
    ok, tombs := DecodeTombs(d, n, TombReader(blob));
    if !ok { return; }
    ok := d.Ok();
    c := Contents(pairs, recs, tombs);
  }

  // --------------------------------------------------------------- restoring

  method RestoreSessions(sessions: SessionTable, recs: seq<SessRec>)
    requires sessions.Valid()
    modifies sessions
    ensures sessions.Valid() && sessions.limits == old(sessions.limits) && sessions.gone == old(sessions.gone)
    ensures sessions.View() == Loaded(recs, |recs|)
  {
    sessions.Clear();
    for i := 0 to |recs|
      invariant sessions.Valid() && sessions.limits == old(sessions.limits) && sessions.gone == old(sessions.gone)
      invariant sessions.View() == Loaded(recs, i)
    {
      sessions.Load(recs[i].cid, recs[i].lastSeq, recs[i].lastIndex);
    }
  }

  /** Clears the tombstones and inserts the records in order, the first of each client. */
  method RestoreTombs(fence: Fence, recs: seq<TombRec>)
    modifies fence
    ensures fence.View() == Entombed(recs, |recs|)
  {
    fence.fenced, fence.fifo := map[], [];
    for i := 0 to |recs|
      invariant fence.View() == Entombed(recs, i)
    {
      if recs[i].cid !in fence.fenced {
        fence.fenced := fence.fenced[recs[i].cid := recs[i].lastSeq];
        fence.fifo := fence.fifo + [recs[i].cid];
      }
    }
  }

  /**
   * Replaces the whole state by what the blob stands for, or leaves it alone when the blob cannot
   * be read to its end.
   */
  method ApplySnapshot(server: Server, blob: bytes) returns (ok: bool)
    requires server.Valid()
    modifies server, server.sessions, server.fence
    ensures server.Valid() && server.Cfg() == old(server.Cfg()) && server.lastCmdIndex == old(server.lastCmdIndex)
    ensures server.sessions.gone == old(server.sessions.gone)
    ensures ok == ReadSnapshot(blob).Some?
    ensures server.View() == if ok then Restored(ReadSnapshot(blob).value) else old(server.View())
  {
    var store, recs, tombs;
    ghost var c;
    ok, store, recs, tombs, c := DecodeSnapshot(blob);
    if !ok { return false; }
    server.store := store;
    RestoreSessions(server.sessions, recs);
    RestoreTombs(server.fence, tombs);
    EntombedSound(tombs, |tombs|);
  }

  // ---------------------------------------------------------------- lockstep

  ghost predicate Apart(left: Server, right: Server) {
    left != right && left.sessions != right.sessions && left.fence != right.fence
  }

  /**
   * One server applies a log and takes a snapshot; another one, whatever it holds, restores it.
   * The restored one then holds what the log made of the first one's state.
   */
  method CatchUp(left: Server, right: Server, log: seq<Logged>) returns (ok: bool)
    requires left.Valid() && right.Valid() && Apart(left, right) && left.Cfg() == right.Cfg()
    requires Fits(StateAfter(left.Cfg(), left.View(), log))
    modifies left, left.sessions, left.fence, right, right.sessions, right.fence
    ensures left.Valid() && right.Valid() && left.Cfg() == right.Cfg() == old(left.Cfg())
    ensures ok && left.View() == right.View() == StateAfter(old(left.Cfg()), old(left.View()), log)
    ensures left.sessions.gone == old(left.sessions.gone) + EvictionsOver(old(left.Cfg()), old(left.View()), log)
    ensures right.sessions.gone == old(right.sessions.gone)
  {
    left.ApplyAll(log);
    var blob := EncodeSnapshot(left);
    SnapshotRoundTrip(blob, left.View());
    ok := ApplySnapshot(right, blob);
  }

  /** Two servers that hold the same go through the same log. */
  method Follow(left: Server, right: Server, log: seq<Logged>)
    requires left.Valid() && right.Valid() && Apart(left, right)
    requires left.Cfg() == right.Cfg() && left.View() == right.View()
    modifies left, left.sessions, left.fence, right, right.sessions, right.fence
    ensures left.Valid() && right.Valid()
    ensures left.View() == right.View() == StateAfter(old(left.Cfg()), old(left.View()), log)
    ensures left.sessions.gone == old(left.sessions.gone) + EvictionsOver(old(left.Cfg()), old(left.View()), log)
    ensures right.sessions.gone == old(right.sessions.gone) + EvictionsOver(old(left.Cfg()), old(left.View()), log)
  {
    left.ApplyAll(log);
    right.ApplyAll(log);
  }

  /**
   * A replica restored from a snapshot stays in lockstep with the one that replayed the log:
   * after every later log both hold the state that replaying everything gives, and on the way
   * both evicted the same sessions in the same order.
   */
  method Lockstep(left: Server, right: Server, log: seq<Logged>, later: seq<Logged>) returns (ok: bool)
    requires left.Valid() && right.Valid() && Apart(left, right) && left.Cfg() == right.Cfg()
    requires Fits(StateAfter(left.Cfg(), left.View(), log))
    modifies left, left.sessions, left.fence, right, right.sessions, right.fence
    ensures left.Valid() && right.Valid() && ok
    ensures left.View() == right.View() == StateAfter(old(left.Cfg()), old(left.View()), log + later)
    ensures left.sessions.gone == old(left.sessions.gone) + EvictionsOver(old(left.Cfg()), old(left.View()), log)
      + EvictionsOver(old(left.Cfg()), StateAfter(old(left.Cfg()), old(left.View()), log), later)
    ensures right.sessions.gone == old(right.sessions.gone)
      + EvictionsOver(old(left.Cfg()), StateAfter(old(left.Cfg()), old(left.View()), log), later)
  {
    AfterBoth(left.Cfg(), left.View(), log, later);
    ok := CatchUp(left, right, log);
    Follow(left, right, later);
  }
}
