/** The commands and messages built on the codec, and that each survives the wire. */
module Messages {
  import opened Wrappers
  import opened Codec

  // ------------------------------------------------------------------- Op

  datatype Op = Op(key: bytes, value: bytes, verb: bytes, clientId: int32, seqId: int64)

  ghost predicate OpFits(op: Op) {
    |op.key| < TWO_64 && |op.value| < TWO_64 && |op.verb| < TWO_64
  }

  function OpFields(op: Op): seq<Field> {
    [B(op.key), B(op.value), B(op.verb), S(op.clientId), S(op.seqId)]
  }

  function ReadOp(s: bytes): Option<Op> {
    var key := ReadBytes(s, 0);
    if key.Bad? then None else
    var value := ReadBytes(s, key.next);
    if value.Bad? then None else
    var verb := ReadBytes(s, value.next);
    if verb.Bad? then None else
    var clientId := ReadInt(s, verb.next);
    if clientId.Bad? then None else
    var seqId := ReadZigzag(s, clientId.next);
    if seqId.Bad? || seqId.next != |s| then None
    else Some(Op(key.value, value.value, verb.value, clientId.value, seqId.value))
  }

  lemma ReadOpIs(s: bytes, op: Op, p1: nat, p2: nat, p3: nat, p4: nat)
    requires ReadBytes(s, 0) == Got(op.key, p1) && ReadBytes(s, p1) == Got(op.value, p2)
    requires ReadBytes(s, p2) == Got(op.verb, p3) && ReadInt(s, p3) == Got(op.clientId, p4)
    requires ReadZigzag(s, p4) == Got(op.seqId, |s|)
    ensures ReadOp(s) == Some(op)
  {
  }

  ghost predicate OpStands(op: Op, fs: seq<Field>) {
    |fs| == 5 && fs[0] == B(op.key) && fs[1] == B(op.value) && fs[2] == B(op.verb)
    && fs[3] == S(op.clientId) && fs[4] == S(op.seqId)
  }

  lemma OpAt(op: Op, fs: seq<Field>, s: bytes)
    requires OpFits(op) && OpStands(op, fs) && s == Encoded(fs)
    ensures ReadOp(s) == Some(op)
  {
    StartIsLength(fs);
    BytesAt(fs, 0);
    BytesAt(fs, 1);
    BytesAt(fs, 2);
    IntAt(fs, 3);
    SignedAt(fs, 4);
    ReadOpIs(s, op, Start(fs, 1), Start(fs, 2), Start(fs, 3), Start(fs, 4));
  }

  /** A command comes out of the log as it went in. */
  lemma OpRoundTrip(op: Op)
    requires OpFits(op)
    ensures ReadOp(Encoded(OpFields(op))) == Some(op)
  {
    OpAt(op, OpFields(op), Encoded(OpFields(op)));
  }

  /** Nothing may follow an operation: no buffer that is accepted goes on as another one. */
  lemma OpEndsThere(s: bytes, more: bytes)
    requires ReadOp(s).Some? && more != []
    ensures ReadOp(s + more).None?
  {
    var key := ReadBytes(s, 0);
    var value := ReadBytes(s, key.next);
    var verb := ReadBytes(s, value.next);
    var clientId := ReadInt(s, verb.next);
    BytesLonger(s, more, 0);
    BytesLonger(s, more, key.next);
    BytesLonger(s, more, value.next);
    IntLonger(s, more, verb.next);
    ZigzagLonger(s, more, clientId.next);
  }

  /** Some fields one behind the other. */
  lemma {:induction false} EncodedOne(fs: seq<Field>)
    requires fs != []
    ensures Encoded(fs) == Encoded(fs[..|fs| - 1]) + FieldBytes(fs[|fs| - 1])
  {
    EncodedMore(fs[..|fs| - 1], fs[|fs| - 1]);
    assert fs[..|fs| - 1] + [fs[|fs| - 1]] == fs;
  }

  lemma EncodedNone(none: seq<Field>)
    requires none == []
    ensures Encoded(none) == []
  {
  }

  lemma EncodedSingle(a: Field)
    ensures Encoded([a]) == FieldBytes(a)
  {
    var none: seq<Field> := [];
    EncodedNone(none);
    EncodedMore(none, a);
    assert none + [a] == [a];
  }

  lemma EncodedTwo(a: Field, b: Field)
    ensures Encoded([a, b]) == FieldBytes(a) + FieldBytes(b)
  {
    EncodedSingle(a);
    EncodedMore([a], b);
    assert [a] + [b] == [a, b];
  }

  lemma EncodedFour(a: Field, b: Field, c: Field, d: Field)
    ensures Encoded([a, b, c, d]) == FieldBytes(a) + FieldBytes(b) + FieldBytes(c) + FieldBytes(d)
  {
    EncodedTwo(a, b);
    EncodedOne([a, b, c]);
    EncodedOne([a, b, c, d]);
    assert [a, b, c][..2] == [a, b] && [a, b, c, d][..3] == [a, b, c];
  }

  lemma OpLayout(op: Op)
    ensures Encoded(OpFields(op))
      == BytesOf(op.key) + BytesOf(op.value) + BytesOf(op.verb) + SignedOf(op.clientId) + SignedOf(op.seqId)
  {
    var fs := OpFields(op);
    EncodedFour(fs[0], fs[1], fs[2], fs[3]);
    EncodedOne(fs);
    assert fs[..4] == [fs[0], fs[1], fs[2], fs[3]];
  }

  method SerializeOp(op: Op) returns (s: bytes)
    requires OpFits(op)
    ensures s == Encoded(OpFields(op))
    ensures s == BytesOf(op.key) + BytesOf(op.value) + BytesOf(op.verb) + SignedOf(op.clientId) + SignedOf(op.seqId)
  {
    var e := new Encoder();
    e.Bytes(op.key);
    e.Bytes(op.value);
    e.Bytes(op.verb);
    e.Int(op.clientId);
    e.Zigzag(op.seqId);
    assert e.fields == OpFields(op);
    s := e.buf;
    OpLayout(op);
  }

  method DeserializeOp(s: bytes) returns (ok: bool, op: Op)
    ensures ok == ReadOp(s).Some? && (ok ==> op == ReadOp(s).value)
  {
    op := Op([], [], [], 0, 0);
    var d := new Decoder(s);
    var done;
    var key, value, verb: bytes, clientId: int32, seqId: int64;
    done, key := d.Bytes();
    if !done { return false, op; }
    done, value := d.Bytes();
    if !done { return false, op; }
    done, verb := d.Bytes();
    if !done { return false, op; }
    done, clientId := d.Int();
    if !done { return false, op; }
    done, seqId := d.Zigzag();
    if !done { return false, op; }
    return d.Ok(), Op(key, value, verb, clientId, seqId);
  }

  // ---------------------------------------------------- the reply to AppendEntries

  datatype AppendEntriesReply = AppendEntriesReply(term: int64, success: bool, nextIndex: int64, readCtx: uint64)

  function ReplyFields(r: AppendEntriesReply): seq<Field> {
    [S(r.term), FlagField(r.success), S(r.nextIndex), U(r.readCtx)]
  }

  function ReadReply(s: bytes): Option<AppendEntriesReply> {
    var term := ReadZigzag(s, 0);
    if term.Bad? then None else
    var success := ReadBool(s, term.next);
    if success.Bad? then None else
    var nextIndex := ReadZigzag(s, success.next);
    if nextIndex.Bad? then None else
    var readCtx := ReadVarint(s, nextIndex.next);
    if readCtx.Bad? || readCtx.next != |s| then None
    else Some(AppendEntriesReply(term.value, success.value, nextIndex.value, readCtx.value))
  }

  lemma ReadReplyIs(s: bytes, r: AppendEntriesReply, p1: nat, p2: nat, p3: nat)
    requires ReadZigzag(s, 0) == Got(r.term, p1) && ReadBool(s, p1) == Got(r.success, p2)
    requires ReadZigzag(s, p2) == Got(r.nextIndex, p3) && ReadVarint(s, p3) == Got(r.readCtx, |s|)
    ensures ReadReply(s) == Some(r)
  {
  }

  lemma ReplyAt(r: AppendEntriesReply, fs: seq<Field>, s: bytes)
    requires fs == ReplyFields(r) && s == Encoded(fs)
    ensures ReadReply(s) == Some(r)
  {
    StartIsLength(fs);
    SignedAt(fs, 0);
    BoolAt(fs, 1, r.success);
    SignedAt(fs, 2);
    VarintAt(fs, 3);
    ReadReplyIs(s, r, Start(fs, 1), Start(fs, 2), Start(fs, 3));
  }

  /** A reply comes back as it was sent, the flag and the hint for the next index included. */
  lemma ReplyRoundTrip(r: AppendEntriesReply)
    ensures ReadReply(Encoded(ReplyFields(r))) == Some(r)
  {
    ReplyAt(r, ReplyFields(r), Encoded(ReplyFields(r)));
  }

  lemma ReplyEndsThere(s: bytes, more: bytes)
    requires ReadReply(s).Some? && more != []
    ensures ReadReply(s + more).None?
  {
    var term := ReadZigzag(s, 0);
    var success := ReadBool(s, term.next);
    var nextIndex := ReadZigzag(s, success.next);
    ZigzagLonger(s, more, 0);
    BoolLonger(s, more, term.next);
    ZigzagLonger(s, more, success.next);
    VarintLonger(s, more, nextIndex.next);
  }

  method SerializeReply(r: AppendEntriesReply) returns (s: bytes)
    ensures s == Encoded(ReplyFields(r))
    ensures s == SignedOf(r.term) + BoolOf(r.success) + SignedOf(r.nextIndex) + VarintOf(r.readCtx)
  {
    var e := new Encoder();
    e.Zigzag(r.term);
    e.Bool(r.success);
    e.Zigzag(r.nextIndex);
    e.Varint(r.readCtx);
    assert e.fields == ReplyFields(r);
    s := e.buf;
    var fs := ReplyFields(r);
    EncodedFour(fs[0], fs[1], fs[2], fs[3]);
  }

  method DeserializeReply(s: bytes) returns (ok: bool, r: AppendEntriesReply)
    ensures ok == ReadReply(s).Some? && (ok ==> r == ReadReply(s).value)
  {
    r := AppendEntriesReply(0, false, 0, 0);
    var d := new Decoder(s);
    var term, nextIndex: int64, readCtx: uint64;
    var done, success;
    done, term := d.Zigzag();
    if !done { return false, r; }
    done, success := d.Bool();
    if !done { return false, r; }
    done, nextIndex := d.Zigzag();
    if !done { return false, r; }
    done, readCtx := d.Varint();
    if !done { return false, r; }
    return d.Ok(), AppendEntriesReply(term, success, nextIndex, readCtx);
  }

  // -------------------------------------------------------- AppendEntries

  datatype WireEntry = WireEntry(term: int64, index: int64, command: bytes, kind: int32,
                                 confServer: int32, confRole: int32)

  datatype AppendEntriesArgs = AppendEntriesArgs(term: int64, leaderId: int32, prevLogIndex: int64, prevLogTerm: int64,
                                                 leaderCommit: int64, readCtx: uint64, entries: seq<WireEntry>)

  ghost predicate ArgsFit(a: AppendEntriesArgs) {
    |a.entries| < TWO_31 && forall i :: 0 <= i < |a.entries| ==> |a.entries[i].command| < TWO_64
  }

  function EntryFields(en: WireEntry): seq<Field> {
    [S(en.term), S(en.index), B(en.command), S(en.kind), S(en.confServer), S(en.confRole)]
  }

  function EntriesFields(entries: seq<WireEntry>): (fs: seq<Field>)
    ensures |fs| == 6 * |entries|
  {
    if entries == [] then [] else EntriesFields(entries[..|entries| - 1]) + EntryFields(entries[|entries| - 1])
  }

  function HeaderFields(a: AppendEntriesArgs): seq<Field>
    requires |a.entries| < TWO_31
  {
    [S(a.term), S(a.leaderId), S(a.prevLogIndex), S(a.prevLogTerm), S(a.leaderCommit), U(a.readCtx), S(|a.entries|)]
  }

  function ArgsFields(a: AppendEntriesArgs): seq<Field>
    requires |a.entries| < TWO_31
  {
    HeaderFields(a) + EntriesFields(a.entries)
  }

  function ReadEntry(s: bytes, pos: nat): Parse<WireEntry> {
    var term := ReadZigzag(s, pos);
    if term.Bad? then Bad else
    var index := ReadZigzag(s, term.next);
    if index.Bad? then Bad else
    var command := ReadBytes(s, index.next);
    if command.Bad? then Bad else
    var kind := ReadInt(s, command.next);
    if kind.Bad? then Bad else
    var confServer := ReadInt(s, kind.next);
    if confServer.Bad? then Bad else
    var confRole := ReadInt(s, confServer.next);
    if confRole.Bad? then Bad
    else Got(WireEntry(term.value, index.value, command.value, kind.value, confServer.value, confRole.value),
             confRole.next)
  }

  /** n values, each read from where the one before ended. */
  function ReadMany<T>(read: nat -> Parse<T>, pos: nat, n: nat): Parse<seq<T>>
    decreases n
  {
    if n == 0 then Got([], pos)
    else
      var first := read(pos);
      if first.Bad? then Bad
      else
        var others := ReadMany(read, first.next, n - 1);
        if others.Bad? then Bad else Got([first.value] + others.value, others.next)
  }

  function EntryReader(s: bytes): nat -> Parse<WireEntry> {
    (pos: nat) => ReadEntry(s, pos)
  }

  function ReadEntries(s: bytes, pos: nat, n: nat): Parse<seq<WireEntry>> {
    ReadMany(EntryReader(s), pos, n)
  }

  datatype Header = Header(args: AppendEntriesArgs, count: int32)

  /** The fields before the entries, and how many entries follow. */
  function ReadHeader(s: bytes): Parse<Header> {
    var term := ReadZigzag(s, 0);
    if term.Bad? then Bad else
    var leaderId := ReadInt(s, term.next);
    if leaderId.Bad? then Bad else
    var prevLogIndex := ReadZigzag(s, leaderId.next);
    if prevLogIndex.Bad? then Bad else
    var prevLogTerm := ReadZigzag(s, prevLogIndex.next);
    if prevLogTerm.Bad? then Bad else
    var leaderCommit := ReadZigzag(s, prevLogTerm.next);
    if leaderCommit.Bad? then Bad else
    var readCtx := ReadVarint(s, leaderCommit.next);
    if readCtx.Bad? then Bad else
    var n := ReadInt(s, readCtx.next);
    if n.Bad? then Bad
    else Got(Header(AppendEntriesArgs(term.value, leaderId.value, prevLogIndex.value, prevLogTerm.value,
                                      leaderCommit.value,
                                      readCtx.value, []), n.value), n.next)
  }

  function ReadArgs(s: bytes): Option<AppendEntriesArgs> {
    var header := ReadHeader(s);
    if header.Bad? || header.value.count < 0 then None
    else
      var entries := ReadEntries(s, header.next, header.value.count);
      if entries.Bad? || entries.next != |s| then None else Some(header.value.args.(entries := entries.value))
  }

  lemma {:induction false} EntryField(entries: seq<WireEntry>, i: nat, k: nat)
    requires i < |entries| && k < 6
    ensures EntriesFields(entries)[6 * i + k] == EntryFields(entries[i])[k]
  {
    var last := |entries| - 1;
    if i < last { EntryField(entries[..last], i, k); }
  }

  lemma ReadEntryIs(s: bytes, en: WireEntry, p0: nat, p1: nat, p2: nat, p3: nat, p4: nat, p5: nat, p6: nat)
    requires ReadZigzag(s, p0) == Got(en.term, p1) && ReadZigzag(s, p1) == Got(en.index, p2)
    requires ReadBytes(s, p2) == Got(en.command, p3) && ReadInt(s, p3) == Got(en.kind, p4)
    requires ReadInt(s, p4) == Got(en.confServer, p5) && ReadInt(s, p5) == Got(en.confRole, p6)
    ensures ReadEntry(s, p0) == Got(en, p6)
  {
  }

  /** The fields of en stand at place p. */
  ghost predicate EntryStands(fs: seq<Field>, p: nat, en: WireEntry) {
    p + 6 <= |fs| && |en.command| < TWO_64
    && fs[p] == S(en.term) && fs[p + 1] == S(en.index) && fs[p + 2] == B(en.command)
    && fs[p + 3] == S(en.kind) && fs[p + 4] == S(en.confServer) && fs[p + 5] == S(en.confRole)
  }

  ghost predicate EntriesStand(fs: seq<Field>, p: nat, entries: seq<WireEntry>) {
    p + 6 * |entries| == |fs| && forall i: nat :: i < |entries| ==> EntryStands(fs, p + 6 * i, entries[i])
  }

  lemma EntryFieldsStand(entries: seq<WireEntry>, i: nat)
    requires i < |entries| && |entries[i].command| < TWO_64
    ensures EntryStands(EntriesFields(entries), 6 * i, entries[i])
  {
    EntryField(entries, i, 0);
    EntryField(entries, i, 1);
    EntryField(entries, i, 2);
    EntryField(entries, i, 3);
    EntryField(entries, i, 4);
    EntryField(entries, i, 5);
  }

  lemma ArgsStand(a: AppendEntriesArgs, fs: seq<Field>)
    requires ArgsFit(a) && fs == ArgsFields(a)
    ensures StartsWithHeader(a, |a.entries|, fs) && EntriesStand(fs, 7, a.entries)
  {
    forall i: nat | i < |a.entries| ensures EntryStands(fs, 7 + 6 * i, a.entries[i]) {
      EntryFieldsStand(a.entries, i);
      var es := EntriesFields(a.entries);
      assert forall j: nat :: j < |es| ==> es[j] == fs[7 + j];
    }
  }

  lemma EntryAt(en: WireEntry, fs: seq<Field>, p: nat)
    requires EntryStands(fs, p, en)
    ensures ReadEntry(Encoded(fs), Start(fs, p)) == Got(en, Start(fs, p + 6))
  {
    SignedAt(fs, p);
    SignedAt(fs, p + 1);
    BytesAt(fs, p + 2);
    IntAt(fs, p + 3);
    IntAt(fs, p + 4);
    IntAt(fs, p + 5);
    ReadEntryIs(Encoded(fs), en, Start(fs, p), Start(fs, p + 1), Start(fs, p + 2), Start(fs, p + 3), Start(fs, p + 4),
                Start(fs, p + 5), Start(fs, p + 6));
  }

  ghost predicate ReadsAt<T>(read: nat -> Parse<T>, ps: seq<nat>, xs: seq<T>, i: nat) {
    i < |xs| && i + 1 < |ps| ==> read(ps[i]) == Got(xs[i], ps[i + 1])
  }

  /** Values that stand one behind the other are read one after the other. */
  lemma {:induction false} ManyRead<T>(read: nat -> Parse<T>, ps: seq<nat>, xs: seq<T>, j: nat, n: nat)
    requires |ps| == |xs| + 1 && j + n == |xs| && forall i: nat :: ReadsAt(read, ps, xs, i)
    ensures ReadMany(read, ps[j], n) == Got(xs[j..], ps[|xs|])
    decreases n
  {
    if n > 0 {
      assert ReadsAt(read, ps, xs, j);
      ManyRead(read, ps, xs, j + 1, n - 1);
      assert xs[j..] == [xs[j]] + xs[j + 1..];
    }
  }

  function Places(fs: seq<Field>, p: nat, n: nat): (ps: seq<nat>)
    requires p + 6 * n == |fs|
    ensures |ps| == n + 1 && forall i :: 0 <= i <= n ==> ps[i] == Start(fs, p + 6 * i)
  {
    seq(n + 1, i requires 0 <= i <= n => Start(fs, p + 6 * i))
  }

  lemma AllPlaced(entries: seq<WireEntry>, fs: seq<Field>, p: nat, s: bytes, ps: seq<nat>)
    requires EntriesStand(fs, p, entries) && s == Encoded(fs) && ps == Places(fs, p, |entries|)
    ensures forall i: nat :: ReadsAt(EntryReader(s), ps, entries, i)
    ensures ps[|entries|] == |s|
  {
    forall i: nat ensures ReadsAt(EntryReader(s), ps, entries, i) {
      if i < |entries| { EntryPlaced(entries, fs, p, s, i, ps); }
    }
    StartIsLength(fs);
  }

  lemma EntriesAt(entries: seq<WireEntry>, fs: seq<Field>, p: nat, s: bytes)
    requires EntriesStand(fs, p, entries) && s == Encoded(fs)
    ensures ReadEntries(s, Start(fs, p), |entries|) == Got(entries, |s|)
  {
    var ps := Places(fs, p, |entries|);
    AllPlaced(entries, fs, p, s, ps);
    ManyRead(EntryReader(s), ps, entries, 0, |entries|);
    assert entries[0..] == entries && ps[0] == Start(fs, p);
  }

  lemma EntryPlaced(entries: seq<WireEntry>, fs: seq<Field>, p: nat, s: bytes, i: nat, ps: seq<nat>)
    requires EntriesStand(fs, p, entries) && s == Encoded(fs) && i < |entries| && |ps| == |entries| + 1
    requires ps[i] == Start(fs, p + 6 * i) && ps[i + 1] == Start(fs, p + 6 * (i + 1))
    ensures ReadsAt(EntryReader(s), ps, entries, i)
  {
    assert EntryStands(fs, p + 6 * i, entries[i]);
    EntryAt(entries[i], fs, p + 6 * i);
  }

  lemma ReadHeaderIs(s: bytes, a: AppendEntriesArgs, n: int32, p1: nat, p2: nat, p3: nat, p4: nat, p5: nat, p6: nat,
                     p7: nat)
    requires ReadZigzag(s, 0) == Got(a.term, p1) && ReadInt(s, p1) == Got(a.leaderId, p2)
    requires ReadZigzag(s, p2) == Got(a.prevLogIndex, p3) && ReadZigzag(s, p3) == Got(a.prevLogTerm, p4)
    requires ReadZigzag(s, p4) == Got(a.leaderCommit, p5) && ReadVarint(s, p5) == Got(a.readCtx, p6)
    requires ReadInt(s, p6) == Got(n, p7)
    ensures ReadHeader(s) == Got(Header(a.(entries := []), n), p7)
  {
  }

  ghost predicate StartsWithHeader(a: AppendEntriesArgs, n: int32, fs: seq<Field>) {
    |fs| >= 7 && fs[0] == S(a.term) && fs[1] == S(a.leaderId) && fs[2] == S(a.prevLogIndex) && fs[3] == S(a.prevLogTerm)
    && fs[4] == S(a.leaderCommit) && fs[5] == U(a.readCtx) && fs[6] == S(n)
  }

  lemma HeaderAt(a: AppendEntriesArgs, n: int32, fs: seq<Field>)
    requires StartsWithHeader(a, n, fs)
    ensures ReadHeader(Encoded(fs)) == Got(Header(a.(entries := []), n), Start(fs, 7))
  {
    SignedAt(fs, 0);
    IntAt(fs, 1);
    SignedAt(fs, 2);
    SignedAt(fs, 3);
    SignedAt(fs, 4);
    VarintAt(fs, 5);
    IntAt(fs, 6);
    ReadHeaderIs(Encoded(fs), a, n, Start(fs, 1), Start(fs, 2), Start(fs, 3), Start(fs, 4), Start(fs, 5),
                 Start(fs, 6), Start(fs, 7));
  }

  /** A request with any number of entries is read back as it was. */
  lemma ArgsRoundTrip(a: AppendEntriesArgs)
    requires ArgsFit(a)
    ensures ReadArgs(Encoded(ArgsFields(a))) == Some(a)
  {
    var fs := ArgsFields(a);
    ArgsStand(a, fs);
    HeaderAt(a, |a.entries|, fs);
    EntriesAt(a.entries, fs, 7, Encoded(fs));
  }

  lemma EntriesGrow(entries: seq<WireEntry>, i: nat)
    requires i < |entries|
    ensures EntriesFields(entries[..i + 1]) == EntriesFields(entries[..i]) + EntryFields(entries[i])
  {
    assert entries[..i + 1][..i] == entries[..i];
  }

  method SerializeEntry(e: Encoder, en: WireEntry)
    requires e.Valid() && |en.command| < TWO_64
    modifies e
    ensures e.Valid() && e.fields == old(e.fields) + EntryFields(en)
  {
    e.Zigzag(en.term);
    e.Zigzag(en.index);
    e.Bytes(en.command);
    e.Int(en.kind);
    e.Int(en.confServer);
    e.Int(en.confRole);
  }

  method SerializeHeader(e: Encoder, a: AppendEntriesArgs)
    requires e.Valid() && |a.entries| < TWO_31
    modifies e
    ensures e.Valid() && e.fields == old(e.fields) + HeaderFields(a)
  {
    e.Zigzag(a.term);
    e.Int(a.leaderId);
    e.Zigzag(a.prevLogIndex);
    e.Zigzag(a.prevLogTerm);
    e.Zigzag(a.leaderCommit);
    e.Varint(a.readCtx);
    e.Int(|a.entries|);
  }

  method SerializeArgs(a: AppendEntriesArgs) returns (s: bytes)
    requires ArgsFit(a)
    ensures s == Encoded(ArgsFields(a))
  {
    var e := new Encoder();
    SerializeHeader(e, a);
    for i := 0 to |a.entries|
      invariant e.Valid() && fresh(e) && e.fields == HeaderFields(a) + EntriesFields(a.entries[..i])
    {
      EntriesGrow(a.entries, i);
      SerializeEntry(e, a.entries[i]);
      assert HeaderFields(a) + (EntriesFields(a.entries[..i]) + EntryFields(a.entries[i]))
        == HeaderFields(a) + EntriesFields(a.entries[..i]) + EntryFields(a.entries[i]);
    }
    assert a.entries[..|a.entries|] == a.entries;
    s := e.buf;
  }

  method DeserializeEntry(d: Decoder) returns (ok: bool, en: WireEntry)
    modifies d
    ensures var r := ReadEntry(d.buf, old(d.pos));
      ok == r.Got? && (ok ==> en == r.value && d.pos == r.next && d.ok == old(d.ok))
  {
    en := WireEntry(0, 0, [], 0, 0, 0);
    var done;
    var term, index: int64, command: bytes, kind, confServer, confRole: int32;
    done, term := d.Zigzag();
    if !done { return false, en; }
    done, index := d.Zigzag();
    if !done { return false, en; }
    done, command := d.Bytes();
    if !done { return false, en; }
    done, kind := d.Int();
    if !done { return false, en; }
    done, confServer := d.Int();
    if !done { return false, en; }
    done, confRole := d.Int();
    if !done { return false, en; }
    return true, WireEntry(term, index, command, kind, confServer, confRole);
  }

  method DeserializeHeader(d: Decoder) returns (ok: bool, a: AppendEntriesArgs, n: int32)
    requires d.pos == 0
    modifies d
    ensures ok == ReadHeader(d.buf).Got?
    ensures ok ==> ReadHeader(d.buf) == Got(Header(a, n), d.pos) && d.ok == old(d.ok)
  {
    a, n := AppendEntriesArgs(0, 0, 0, 0, 0, 0, []), 0;
    var done;
    var term, prevLogIndex, prevLogTerm, leaderCommit: int64, leaderId: int32, readCtx: uint64;
    done, term := d.Zigzag();
    if !done { return false, a, n; }
    done, leaderId := d.Int();
    if !done { return false, a, n; }
    done, prevLogIndex := d.Zigzag();
    if !done { return false, a, n; }
    done, prevLogTerm := d.Zigzag();
    if !done { return false, a, n; }
    done, leaderCommit := d.Zigzag();
    if !done { return false, a, n; }
    done, readCtx := d.Varint();
    if !done { return false, a, n; }
    done, n := d.Int();
    if !done { return false, a, n; }
    return true, AppendEntriesArgs(term, leaderId, prevLogIndex, prevLogTerm, leaderCommit, readCtx, []), n;
  }

  method DeserializeEntries(d: Decoder, n: nat) returns (ok: bool, entries: seq<WireEntry>)
    modifies d
    ensures var r := ReadEntries(d.buf, old(d.pos), n);
      ok == r.Got? && (ok ==> entries == r.value && d.pos == r.next && d.ok == old(d.ok))
  {
    entries := [];
    ghost var all := ReadEntries(d.buf, d.pos, n);
    StartContinues(all);
    for i := 0 to n
      invariant d.ok == old(d.ok)
      invariant Continues(all, entries, ReadEntries(d.buf, d.pos, n - i))
    {
      ContinueOne(EntryReader(d.buf), d.pos, n - i, all, entries);
      var en;
      ok, en := DeserializeEntry(d);
      if !ok { return false, entries; }
      entries := entries + [en];
    }
    ok := true;
  }

  method DeserializeArgs(s: bytes) returns (ok: bool, a: AppendEntriesArgs)
    ensures ok == ReadArgs(s).Some? && (ok ==> a == ReadArgs(s).value)
  {
    var d := new Decoder(s);
    var n;
    ok, a, n := DeserializeHeader(d);
    if !ok || n < 0 { return false, a; }
    var entries;
    ok, entries := DeserializeEntries(d, n);
    a := a.(entries := entries);
    ok := ok && d.Ok();
  }

  /** Reading all is what was read so far followed by reading the rest. */
  ghost predicate Continues<T>(all: Parse<seq<T>>, sofar: seq<T>, rest: Parse<seq<T>>) {
    all == if rest.Bad? then Bad else Got(sofar + rest.value, rest.next)
  }

  lemma StartContinues<T>(all: Parse<seq<T>>)
    ensures Continues(all, [], all)
  {
    if all.Got? { assert [] + all.value == all.value; }
  }

  lemma ContinueOne<T>(read: nat -> Parse<T>, pos: nat, n: nat, all: Parse<seq<T>>, sofar: seq<T>)
    requires n > 0 && Continues(all, sofar, ReadMany(read, pos, n))
    ensures read(pos).Bad? ==> all == Bad
    ensures read(pos).Got? ==>
      Continues(all, sofar + [read(pos).value], ReadMany(read, read(pos).next, n - 1))
  {
    if read(pos).Got? {
      var first := read(pos);
      var rest := ReadMany(read, first.next, n - 1);
      if rest.Got? { assert sofar + ([first.value] + rest.value) == sofar + [first.value] + rest.value; }
    }
  }

  // ------------------------------------------------------ nothing may follow

  lemma HeaderLonger(s: bytes, more: bytes)
    requires ReadHeader(s).Got?
    ensures ReadHeader(s + more) == ReadHeader(s)
  {
    var p1 := ReadZigzag(s, 0).next;
    var p2 := ReadInt(s, p1).next;
    var p3 := ReadZigzag(s, p2).next;
    var p4 := ReadZigzag(s, p3).next;
    var p5 := ReadZigzag(s, p4).next;
    var p6 := ReadVarint(s, p5).next;
    ZigzagLonger(s, more, 0);
    IntLonger(s, more, p1);
    ZigzagLonger(s, more, p2);
    ZigzagLonger(s, more, p3);
    ZigzagLonger(s, more, p4);
    VarintLonger(s, more, p5);
    IntLonger(s, more, p6);
  }

  lemma EntryLonger(s: bytes, more: bytes, pos: nat)
    requires ReadEntry(s, pos).Got?
    ensures ReadEntry(s + more, pos) == ReadEntry(s, pos)
  {
    var p1 := ReadZigzag(s, pos).next;
    var p2 := ReadZigzag(s, p1).next;
    var p3 := ReadBytes(s, p2).next;
    var p4 := ReadInt(s, p3).next;
    var p5 := ReadInt(s, p4).next;
    ZigzagLonger(s, more, pos);
    ZigzagLonger(s, more, p1);
    BytesLonger(s, more, p2);
    IntLonger(s, more, p3);
    IntLonger(s, more, p4);
    IntLonger(s, more, p5);
  }

  lemma {:induction false} ManyLonger<T>(read: nat -> Parse<T>, longer: nat -> Parse<T>, pos: nat, n: nat)
    requires ReadMany(read, pos, n).Got? && forall p :: read(p).Got? ==> longer(p) == read(p)
    ensures ReadMany(longer, pos, n) == ReadMany(read, pos, n)
    decreases n
  {
    if n > 0 { ManyLonger(read, longer, read(pos).next, n - 1); }
  }

  /** Nothing may follow a request either. */
  lemma ArgsEndThere(s: bytes, more: bytes)
    requires ReadArgs(s).Some? && more != []
    ensures ReadArgs(s + more).None?
  {
    var header := ReadHeader(s);
    HeaderLonger(s, more);
    forall p | EntryReader(s)(p).Got? ensures EntryReader(s + more)(p) == EntryReader(s)(p) { EntryLonger(s, more, p); }
    ManyLonger(EntryReader(s), EntryReader(s + more), header.next, header.value.count);
  }
}
