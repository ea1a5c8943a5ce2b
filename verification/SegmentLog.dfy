/** The segment log: an append-only file of log entries, mirrored in memory. */
module SegmentLog {
  import opened Wrappers
  import opened Codec
  import opened Bytes
  import opened Messages
  import opened Pieces
  import opened SegmentFormat
  import opened SegmentMirror

  /** How an entry becomes bytes and back, and what guards the bytes. */
  datatype Format = Format(encode: WireEntry -> bytes, decode: bytes -> WireEntry, check: bytes -> nat)

  function RecordOf(f: Format): WireEntry -> bytes {
    e => Record(f.check, f.encode(e))
  }

  ghost predicate Contiguous(es: seq<WireEntry>) {
    forall i, j :: 0 <= i < |es| && 0 <= j < |es| ==> es[j].index - es[i].index == j - i
  }

  /** Bytes written at pos over what is there. */
  function Written(file: bytes, pos: nat, buf: bytes): bytes
    requires pos <= |file|
  {
    file[..pos] + buf + if pos + |buf| <= |file| then file[pos + |buf|..] else []
  }

  lemma WrittenBehind(file: bytes, buf: bytes)
    ensures Written(file, |file|, buf) == file + buf
  {
  }

  lemma RecordsTakeRoom(f: Format, es: seq<WireEntry>)
    requires es != []
    ensures |Image(RecordOf(f), es)| > 0
  {
    var rs := RecordsOf(RecordOf(f), es);
    EndIsLength(rs, |es|);
    EndGrows(rs, 1, |es|);
    assert End(rs, 0) == 0 && |rs[0]| >= 8;
  }

  lemma ContiguousMore(es: seq<WireEntry>, e: WireEntry)
    requires Contiguous(es) && (es == [] || e.index == es[|es| - 1].index + 1)
    ensures Contiguous(es + [e])
  {
  }

  lemma ContiguousPart(es: seq<WireEntry>, a: nat, b: nat)
    requires Contiguous(es) && a <= b <= |es|
    ensures Contiguous(es[a..b])
  {
  }

  /** es from the first entry behind index on. */
  ghost predicate SplitsAt(es: seq<WireEntry>, index: int, k: nat) {
    k <= |es| && forall i :: 0 <= i < |es| ==> (i < k <==> es[i].index <= index)
  }

  // ------------------------------------------------------------ reopening

  /** Where record i starts. */
  function StartOf(offsets: seq<nat>, i: nat): nat
    requires i <= |offsets|
  {
    if i == 0 then 0 else offsets[i - 1]
  }

  /** What a scan of the bodies leaves in memory. */
  ghost predicate Loaded(f: Format, bodies: seq<bytes>, entries: seq<WireEntry>, offsets: seq<nat>) {
    && |entries| == |offsets| == |bodies|
    && (forall i :: 0 <= i < |bodies| ==> entries[i] == f.decode(bodies[i]))
    && (forall i {:trigger bodies[i]} :: 0 <= i < |bodies| ==> offsets[i] == StartOf(offsets, i) + 8 + |bodies[i]|)
  }

  lemma LoadedMore(f: Format, bodies: seq<bytes>, entries: seq<WireEntry>, offsets: seq<nat>, body: bytes, off: nat)
    requires Loaded(f, bodies, entries, offsets) && off == StartOf(offsets, |offsets|) + 8 + |body|
    ensures Loaded(f, bodies + [body], entries + [f.decode(body)], offsets + [off])
  {
  }

  function Before(bodies: seq<bytes>, r: Scanned): Scanned {
    Scanned(bodies + r.bodies, r.end, r.corrupt)
  }

  lemma BeforeMore(bodies: seq<bytes>, body: bytes, r: Scanned)
    ensures Before(bodies, Prepend(body, r)) == Before(bodies + [body], r)
  {
  }

  /** Reading has come to off, and entries and offsets are what it found. */
  ghost predicate ReadTo(f: Format, look: nat -> Seen, size: nat, off: nat, entries: seq<WireEntry>,
                         offsets: seq<nat>) {
    exists bodies: seq<bytes> :: ReadWith(f, look, size, off, entries, offsets, bodies)
  }

  ghost predicate ReadWith(f: Format, look: nat -> Seen, size: nat, off: nat, entries: seq<WireEntry>,
                           offsets: seq<nat>, bodies: seq<bytes>) {
    && off <= size && off == StartOf(offsets, |offsets|)
    && Scan(look, size, 0) == Before(bodies, Scan(look, size, off))
    && Loaded(f, bodies, entries, offsets)
  }

  lemma ReadNothing(f: Format, look: nat -> Seen, size: nat)
    ensures ReadTo(f, look, size, 0, [], [])
  {
    assert Before([], Scan(look, size, 0)) == Scan(look, size, 0);
    assert ReadWith(f, look, size, 0, [], [], []);
  }

  lemma ReadMore(f: Format, look: nat -> Seen, size: nat, off: nat, entries: seq<WireEntry>, offsets: seq<nat>,
                 body: bytes, next: nat)
    requires ReadTo(f, look, size, off, entries, offsets) && next == off + 8 + |body| <= size
    requires look(off) == WholeRecord(body)
    ensures ReadTo(f, look, size, next, entries + [f.decode(body)], offsets + [next])
  {
    var bodies :| ReadWith(f, look, size, off, entries, offsets, bodies);
    BeforeMore(bodies, body, Scan(look, size, next));
    LoadedMore(f, bodies, entries, offsets, body, next);
    assert ReadWith(f, look, size, next, entries + [f.decode(body)], offsets + [next], bodies + [body]);
  }

  ghost predicate Steps(es: seq<WireEntry>) {
    forall i, j :: 0 <= i < |es| && j == i + 1 < |es| ==> es[j].index == es[i].index + 1
  }

  /** What reopening the file before does. */
  ghost predicate Rebuilt(f: Format, before: bytes, fails: nat -> bool, aborted: bool, entries: seq<WireEntry>,
                          offsets: seq<nat>, file: bytes) {
    exists r: Scanned :: RebuiltFrom(f, before, fails, r, aborted, entries, offsets, file)
  }

  ghost predicate RebuiltFrom(f: Format, before: bytes, fails: nat -> bool, r: Scanned, aborted: bool,
                              entries: seq<WireEntry>, offsets: seq<nat>, file: bytes) {
    && r == Scan(Reader(f.check, before, fails), |before|, 0)
    && aborted == (r.corrupt || !Steps(entries))
    && Loaded(f, r.bodies, entries, offsets)
    && (!aborted ==> file == before[..r.end])
  }

  lemma ReadAll(f: Format, look: nat -> Seen, size: nat, off: nat, entries: seq<WireEntry>, offsets: seq<nat>,
                corrupt: bool)
    requires ReadTo(f, look, size, off, entries, offsets) && off <= size && look(off) == Stop(corrupt)
    ensures var r := Scan(look, size, 0); r.corrupt == corrupt && r.end == off && Loaded(f, r.bodies, entries, offsets)
  {
    var bodies :| ReadWith(f, look, size, off, entries, offsets, bodies);
    assert bodies + [] == bodies;
  }

  /** Reading stopped at off. */
  lemma ReadStops(f: Format, before: bytes, fails: nat -> bool, off: nat, entries: seq<WireEntry>, offsets: seq<nat>,
                  corrupt: bool, aborted: bool, file: bytes)
    requires off <= |before| && ReadTo(f, Reader(f.check, before, fails), |before|, off, entries, offsets)
    requires Reader(f.check, before, fails)(off) == Stop(corrupt)
    requires aborted == (corrupt || !Steps(entries)) && (!aborted ==> file == before[..off])
    ensures Rebuilt(f, before, fails, aborted, entries, offsets, file)
  {
    ReadAll(f, Reader(f.check, before, fails), |before|, off, entries, offsets, corrupt);
    assert RebuiltFrom(f, before, fails, Scan(Reader(f.check, before, fails), |before|, 0), aborted, entries, offsets,
                       file);
  }

  /** What stands at off. */
  method ReadRecord(check: bytes -> nat, file: bytes, fails: nat -> bool, off: nat, ghost look: nat -> Seen)
    returns (seen: Seen)
    requires look == Reader(check, file, fails)
    ensures seen == look(off)
    ensures seen.WholeRecord? ==> off + 8 + |seen.body| <= |file|
  {
    if off + 8 > |file| || fails(off) { return Stop(false); }
    var len := GetLittle(file, off, 4);
    var crc := GetLittle(file, off + 4, 4);
    if len == 0 || len > LONGEST { return Stop(off + 8 < |file|); }
    if off + 8 + len > |file| || fails(off + 8) { return Stop(false); }
    var body := BodyAt(file, off, len);
    if check(body) != crc { return Stop(off + 8 + len < |file|); }
    seen := WholeRecord(body);
  }

  method InSteps(es: seq<WireEntry>) returns (r: bool)
    ensures r == Steps(es)
  {
    var i := 1;
    while i < |es|
      invariant 1 <= i && forall k, l :: 0 <= k < |es| && l == k + 1 < i && l < |es| ==> es[l].index == es[k].index + 1
    {
      if es[i].index != es[i - 1].index + 1 { return false; }
      i := i + 1;
    }
    return true;
  }

  function BehindFirst(logs: seq<WireEntry>): seq<WireEntry> {
    if logs == [] then [] else logs[1..]
  }

  predicate SameEncoding(f: Format, e: WireEntry, g: WireEntry) {
    f.encode(e) == f.encode(g)
  }

  predicate SameEncodings(f: Format, es: seq<WireEntry>, gs: seq<WireEntry>) {
    |es| == |gs| && forall k :: 0 <= k < |es| ==> SameEncoding(f, es[k], gs[k])
  }

  class Store {
    const format: Format
    var entries: seq<WireEntry>
    var offsets: seq<nat>
    var fileSize: nat
    var file: bytes
    /** Entries whose records are still in the file, but which the mirror has forgotten. */
    ghost var dropped: seq<WireEntry>

    ghost predicate Valid()
      reads this
    {
      && fileSize == |file|
      && Mirrors(RecordOf(format), file, offsets, dropped, entries)
      && Contiguous(dropped + entries)
    }

    constructor (format: Format, file: bytes)
      ensures this.format == format && this.file == file
      ensures entries == [] && offsets == [] && fileSize == 0 && dropped == []
    {
      this.format, this.file := format, file;
      entries, offsets, fileSize, dropped := [], [], 0, [];
    }

    /** The record at off goes into the mirror. */
    method TakeRecord(body: bytes, off: nat, ghost look: nat -> Seen) returns (next: nat)
      requires ReadTo(format, look, |file|, off, entries, offsets) && off + 8 + |body| <= |file|
      requires look(off) == WholeRecord(body)
      modifies this`entries, this`offsets
      ensures next == off + 8 + |body| && ReadTo(format, look, |file|, next, entries, offsets)
    {
      next := off + 8 + |body|;
      ReadMore(format, look, |file|, off, entries, offsets, body, next);
      entries := entries + [format.decode(body)];
      offsets := offsets + [next];
    }

    /** Reads record by record, as far as there are whole ones. */
    method ReadRecords(fails: nat -> bool, ghost look: nat -> Seen) returns (off: nat, corrupt: bool)
      requires look == Reader(format.check, file, fails)
      modifies this`entries, this`offsets
      ensures off <= |file| && ReadTo(format, look, |file|, off, entries, offsets) && look(off) == Stop(corrupt)
    {
      entries, offsets := [], [];
      off := 0;
      ReadNothing(format, look, |file|);
      while true
        invariant off <= |file| && ReadTo(format, look, |file|, off, entries, offsets)
        decreases |file| - off
      {
        var seen := ReadRecord(format.check, file, fails, off, look);
        if seen.Stop? { return off, seen.corrupt; }
        off := TakeRecord(seen.body, off, look);
      }
    }

    /**
     * Reopens the file: a torn tail is cut off, and so is everything behind a read that fails;
     * anything else unreadable is fatal.
     */
    method Rebuild(fails: nat -> bool) returns (aborted: bool)
      modifies this
      ensures Rebuilt(format, old(file), fails, aborted, entries, offsets, file)
      ensures dropped == [] && (!aborted ==> fileSize == |file|)
    {
      dropped := [];
      var off, corrupt := ReadRecords(fails, Reader(format.check, file, fails));
      var steps := InSteps(entries);
      aborted := corrupt || !steps;
      ReadStops(format, file, fails, off, entries, offsets, corrupt, aborted, if aborted then file else file[..off]);
      if aborted { return; }
      if off < |file| { file := file[..off]; }
      assert old(file)[..off] == file;
      fileSize := off;
    }

    method WriteRecord(e: WireEntry)
      requires fileSize == |file|
      modifies this`file, this`fileSize, this`offsets
      ensures file == old(file) + RecordOf(format)(e) && fileSize == |file| && offsets == old(offsets) + [fileSize]
    {
      var body := format.encode(e);
      var buf := PutLittle([], Cut32(|body|), 4);
      buf := PutLittle(buf, format.check(body), 4);
      buf := buf + body;
      WrittenBehind(file, buf);
      file := Written(file, fileSize, buf);
      fileSize := fileSize + |buf|;
      offsets := offsets + [fileSize];
    }

    method RewriteFile()
      modifies this`file, this`fileSize, this`offsets, this`dropped
      ensures dropped == [] && fileSize == |file| && Mirrors(RecordOf(format), file, offsets, dropped, entries)
    {
      file, fileSize, offsets := [], 0, [];
      dropped := [];
      MirrorsNothing(RecordOf(format));
      for i := 0 to |entries|
        invariant dropped == [] && fileSize == |file|
        invariant Mirrors(RecordOf(format), file, offsets, [], entries[..i])
      {
        MirrorsAppend(RecordOf(format), file, offsets, [], entries[..i], entries[i]);
        assert entries[..i + 1] == entries[..i] + [entries[i]];
        WriteRecord(entries[i]);
      }
      assert entries[..|entries|] == entries;
    }

    method Append(e: WireEntry) returns (aborted: bool)
      requires Valid()
      modifies this
      ensures aborted == (old(entries) != [] && e.index != old(entries)[|old(entries)| - 1].index + 1)
      ensures !aborted ==> Valid() && entries == old(entries) + [e]
      ensures !aborted ==> dropped == if old(entries) == [] then [] else old(dropped)
    {
      if entries == [] && dropped != [] {
        assert dropped + entries == dropped;
        RecordsTakeRoom(format, dropped);
      }
      if entries == [] && fileSize > 0 { RewriteFile(); }
      if entries != [] && e.index != entries[|entries| - 1].index + 1 { return true; }
      assert entries != [] ==> (dropped + entries)[|dropped + entries| - 1] == entries[|entries| - 1];
      MirrorsAppend(RecordOf(format), file, offsets, dropped, entries, e);
      ContiguousMore(dropped + entries, e);
      assert dropped + (entries + [e]) == dropped + entries + [e];
      WriteRecord(e);
      entries := entries + [e];
      aborted := false;
    }

    /** How many entries, from the front, are at most index. */
    method CountUpto(index: int) returns (k: nat)
      requires Valid()
      ensures SplitsAt(entries, index, k)
    {
      k := 0;
      while k < |entries| && entries[k].index <= index
        invariant k <= |entries| && forall i :: 0 <= i < k ==> entries[i].index <= index
      {
        k := k + 1;
      }
      forall i | 0 <= i < |entries| ensures i < k <==> entries[i].index <= index {
        ghost var all := dropped + entries;
        assert k < |entries| ==> all[|dropped| + i].index - all[|dropped| + k].index == i - k;
      }
    }

    /** Keeps the entries up to index; when none stays, nothing is left of the file either. */
    method TruncateSuffix(index: int)
      requires Valid()
      modifies this
      ensures Valid() && entries <= old(entries) && SplitsAt(old(entries), index, |entries|)
      ensures dropped == if entries == [] then [] else old(dropped)
    {
      var keep := CountUpto(index);
      if keep > 0 {
        MirrorsCut(RecordOf(format), file, offsets, dropped, entries, keep);
        ContiguousPart(dropped + entries, 0, |dropped| + keep);
        assert dropped + entries[..keep] == (dropped + entries)[0..|dropped| + keep];
      } else {
        MirrorsNothing(RecordOf(format));
        dropped := [];
      }
      entries := entries[..keep];
      offsets := offsets[..keep];
      var newSize := if keep > 0 then offsets[keep - 1] else 0;
      file := file[..newSize];
      fileSize := newSize;
    }

    /** Forgets the entries up to index; the file stays as it is. */
    method DropPrefix(index: int)
      requires Valid()
      modifies this`entries, this`offsets, this`dropped
      ensures Valid() && dropped + entries == old(dropped + entries) && |entries| <= |old(entries)|
      ensures SplitsAt(old(entries), index, |old(entries)| - |entries|)
    {
      var drop := CountUpto(index);
      MirrorsDrop(RecordOf(format), file, offsets, dropped, entries, drop);
      assert dropped + entries[..drop] + entries[drop..] == dropped + entries;
      if drop > 0 {
        dropped := dropped + entries[..drop];
        entries := entries[drop..];
        offsets := offsets[drop..];
      }
    }

    /** Forgets the entries up to index, and rewrites the file without them. */
    method TruncatePrefix(index: int)
      requires Valid()
      modifies this
      ensures Valid() && dropped == [] && |entries| <= |old(entries)|
      ensures entries == old(entries)[|old(entries)| - |entries|..]
      ensures SplitsAt(old(entries), index, |old(entries)| - |entries|)
    {
      DropPrefix(index);
      assert |dropped| + |entries| == old(|dropped| + |entries|);
      assert entries == (dropped + entries)[|dropped|..] == old(dropped + entries)[|dropped|..];
      assert old(dropped + entries)[|dropped|..] == old(entries)[|old(entries)| - |entries|..];
      ContiguousPart(dropped + entries, |dropped|, |dropped + entries|);
      assert (dropped + entries)[|dropped|..|dropped + entries|] == entries;
      RewriteFile();
      assert dropped + entries == entries;
    }

    /** Whether the mirror is the log behind its first entry, as far as the encodings tell. */
    method SameAs(logs: seq<WireEntry>) returns (same: bool)
      ensures same <==> |entries| + 1 == |logs| && SameEncodings(format, entries, logs[1..])
    {
      if |entries| + 1 != |logs| { return false; }
      var i := 0;
      while i < |entries|
        invariant i <= |entries| && forall k :: 0 <= k < i ==> SameEncoding(format, entries[k], logs[1..][k])
      {
        if format.encode(entries[i]) != format.encode(logs[i + 1]) {
          assert !SameEncoding(format, entries[i], logs[1..][i]);
          return false;
        }
        i := i + 1;
      }
      same := true;
    }

    /**
     * Makes the file hold the log's entries behind the first; nothing is written when mirror and
     * log have the same encodings.
     */
    method ResetFromLogs(logs: seq<WireEntry>)
      requires Valid()
      modifies this
      ensures fileSize == |file| && Mirrors(RecordOf(format), file, offsets, dropped, entries)
      ensures SameEncodings(format, entries, BehindFirst(logs))
      ensures entries == old(entries) || entries == BehindFirst(logs)
      ensures Contiguous(BehindFirst(logs)) ==> Valid()
    {
      var same := SameAs(logs);
      if same { return; }
      entries := BehindFirst(logs);
      RewriteFile();
      assert dropped + entries == entries;
    }

    /** The sentinel and every entry the snapshot does not cover. */
    method Replay(snapTerm: int64, snapIndex: int64) returns (out: seq<WireEntry>)
      requires Valid()
      ensures exists k: nat :: SplitsAt(entries, snapIndex, k) && out == [Sentinel(snapTerm, snapIndex)] + entries[k..]
    {
      ghost var k := CountUpto(snapIndex);
      out := [Sentinel(snapTerm, snapIndex)];
      for i := 0 to |entries|
        invariant out == [Sentinel(snapTerm, snapIndex)] + if i <= k then [] else entries[k..i]
      {
        if entries[i].index > snapIndex {
          out := out + [entries[i]];
          assert entries[k..i + 1] == entries[k..i] + [entries[i]];
        }
      }
      assert entries[k..|entries|] == entries[k..];
      assert SplitsAt(entries, snapIndex, k);
    }
  }

  function Sentinel(term: int64, index: int64): WireEntry {
    WireEntry(term, index, [], 0, -1, 0)
  }
}
