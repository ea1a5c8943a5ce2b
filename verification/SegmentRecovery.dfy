/** A segment file cut anywhere reopens to exactly the entries whose records are whole. */
module SegmentRecovery {
  import opened Wrappers
  import opened Codec
  import opened Messages
  import opened Pieces
  import opened Checksum
  import opened SegmentFormat
  import opened SegmentMirror
  import opened SegmentLog
  import Crc

  function Bodies(f: Format, es: seq<WireEntry>): (bs: seq<bytes>)
    ensures |bs| == |es|
  {
    seq(|es|, i requires 0 <= i < |es| => f.encode(es[i]))
  }

  /** The format can tell these entries, and their lengths can be written down. */
  ghost predicate Lawful(f: Format, es: seq<WireEntry>) {
    && (forall b :: f.check(b) < TWO_32)
    && (forall i :: 0 <= i < |es| ==> 0 < |f.encode(es[i])| < TWO_32 && f.decode(f.encode(es[i])) == es[i])
  }

  lemma SameRecords(f: Format, es: seq<WireEntry>)
    ensures RecordsOf(RecordOf(f), es) == Records(f.check, Bodies(f, es))
  {
  }

  lemma LoadedEntries(f: Format, es: seq<WireEntry>, k: nat, entries: seq<WireEntry>, offsets: seq<nat>)
    requires Lawful(f, es) && k <= |es| && Loaded(f, Bodies(f, es)[..k], entries, offsets)
    ensures entries == es[..k]
  {
    var bs := Bodies(f, es);
    forall i | 0 <= i < k ensures entries[i] == es[i] {
      assert entries[i] == f.decode(bs[..k][i]);
    }
  }

  /** The offsets read are the ends of the records. */
  lemma {:induction false} LoadedOffsets(rs: seq<bytes>, offsets: seq<nat>, n: nat)
    requires |rs| == |offsets| && n <= |rs|
    requires forall i {:trigger rs[i]} :: 0 <= i < |rs| ==> offsets[i] == StartOf(offsets, i) + |rs[i]|
    ensures StartOf(offsets, n) == End(rs, n)
  {
    if n > 0 {
      LoadedOffsets(rs, offsets, n - 1);
      assert offsets[n - 1] == StartOf(offsets, n - 1) + |rs[n - 1]|;
    }
  }

  lemma ImageOfCut<E>(record: E -> bytes, es: seq<E>, k: nat, before: bytes)
    requires k <= |es| && before <= Image(record, es) && End(RecordsOf(record, es), k) <= |before|
    ensures before[..End(RecordsOf(record, es), k)] == Image(record, es[..k])
  {
    CatStarts(RecordsOf(record, es), k, |es|);
    CatPrefix(RecordsOf(record, es), RecordsOf(record, es[..k]), k);
  }

  lemma LoadedFit(rs: seq<bytes>, offsets: seq<nat>)
    requires |rs| == |offsets|
    requires forall i {:trigger rs[i]} :: 0 <= i < |rs| ==> offsets[i] == StartOf(offsets, i) + |rs[i]|
    ensures OffsetsFit(rs, 0, offsets)
  {
    forall i | 0 <= i < |offsets| ensures offsets[i] == End(rs, 0 + i + 1) { LoadedOffsets(rs, offsets, i + 1); }
  }

  lemma OffsetsOfCut(f: Format, entries: seq<WireEntry>, offsets: seq<nat>)
    requires Loaded(f, Bodies(f, entries), entries, offsets)
    ensures OffsetsFit(RecordsOf(RecordOf(f), entries), 0, offsets)
  {
    var rs := RecordsOf(RecordOf(f), entries);
    OffsetsStep(f, entries, offsets, rs);
    LoadedFit(rs, offsets);
  }

  lemma OffsetsStep(f: Format, entries: seq<WireEntry>, offsets: seq<nat>, rs: seq<bytes>)
    requires Loaded(f, Bodies(f, entries), entries, offsets) && rs == RecordsOf(RecordOf(f), entries)
    ensures |rs| == |offsets|
    ensures forall i {:trigger rs[i]} :: 0 <= i < |rs| ==> offsets[i] == StartOf(offsets, i) + |rs[i]|
  {
    forall i {:trigger rs[i]} | 0 <= i < |rs| ensures offsets[i] == StartOf(offsets, i) + |rs[i]| {
      assert rs[i] == Record(f.check, Bodies(f, entries)[i]);
    }
  }

  lemma CutMirrors(f: Format, es: seq<WireEntry>, k: nat, before: bytes, entries: seq<WireEntry>, offsets: seq<nat>,
                   file: bytes)
    requires k <= |es| && entries == es[..k] && Loaded(f, Bodies(f, es)[..k], entries, offsets)
    requires before <= Image(RecordOf(f), es) && End(RecordsOf(RecordOf(f), es), k) <= |before|
    requires file == before[..End(RecordsOf(RecordOf(f), es), k)]
    ensures Mirrors(RecordOf(f), file, offsets, [], entries)
  {
    assert Bodies(f, es)[..k] == Bodies(f, entries);
    assert [] + entries == entries;
    ImageOfCut(RecordOf(f), es, k, before);
    OffsetsOfCut(f, entries, offsets);
  }

  /** Entry i's record is longer than allowed, and the cut leaves a byte of its body. */
  ghost predicate Oversized(f: Format, es: seq<WireEntry>, n: nat, i: nat) {
    TooLong(Bodies(f, es), RecordsOf(RecordOf(f), es), n, i)
  }

  /** k records are whole in the first n bytes, and no more. */
  ghost predicate WholeRecords(f: Format, es: seq<WireEntry>, n: nat, k: nat) {
    var rs := RecordsOf(RecordOf(f), es);
    k <= |es| && End(rs, k) <= n && (k < |es| ==> n < End(rs, k + 1))
  }

  lemma ScanOfCut(f: Format, es: seq<WireEntry>, before: bytes) returns (k: nat)
    requires Lawful(f, es) && before <= Image(RecordOf(f), es)
    ensures WholeRecords(f, es, |before|, k)
    ensures var r := Scan(Reader(f.check, before, NoFault), |before|, 0);
      (r.corrupt <==> exists i: nat :: Oversized(f, es, |before|, i))
      && (!r.corrupt ==> r.end == End(RecordsOf(RecordOf(f), es), k) && r.bodies == Bodies(f, es)[..k])
  {
    var bs, rs := Bodies(f, es), RecordsOf(RecordOf(f), es);
    SameRecords(f, es);
    CutFileSeen(f.check, bs, rs, before);
    ScanFrom(Reader(f.check, before, NoFault), bs, rs, |before|, 0);
    k :| ScansTo(bs, rs, |before|, 0, Scan(Reader(f.check, before, NoFault), |before|, 0), k);
    assert forall i: nat :: Oversized(f, es, |before|, i) <==> TooLong(bs, rs, |before|, i);
    assert bs[0..k] == bs[..k];
  }

  /** Reopening a cut file fails only for an oversized record, and otherwise finds the whole records. */
  lemma CutIsRestored(f: Format, es: seq<WireEntry>, before: bytes, aborted: bool, entries: seq<WireEntry>,
                      offsets: seq<nat>, file: bytes)
    requires Lawful(f, es) && Contiguous(es) && before <= Image(RecordOf(f), es)
    requires Rebuilt(f, before, NoFault, aborted, entries, offsets, file)
    ensures aborted <==> exists i: nat :: Oversized(f, es, |before|, i)
    ensures !aborted ==> WholeRecords(f, es, |before|, |entries|) && entries == es[..|entries|]
    ensures !aborted ==> Mirrors(RecordOf(f), file, offsets, [], entries) && Contiguous(entries)
  {
    var k := ScanOfCut(f, es, before);
    if !Scan(Reader(f.check, before, NoFault), |before|, 0).corrupt {
      LoadedEntries(f, es, k, entries, offsets);
      CutMirrors(f, es, k, before, entries, offsets, before[..End(RecordsOf(RecordOf(f), es), k)]);
    }
  }

  /** The scan of an intact file gives the bodies before the first failing read. */
  lemma ScanToFault(f: Format, es: seq<WireEntry>, before: bytes, fails: nat -> bool, n: nat)
    requires Lawful(f, es) && before == Image(RecordOf(f), es)
    requires forall i :: 0 <= i < |es| ==> |f.encode(es[i])| <= LONGEST
    requires FirstFault(fails, RecordsOf(RecordOf(f), es), n)
    ensures n <= |es| && End(RecordsOf(RecordOf(f), es), n) <= |before|
    ensures Scan(Reader(f.check, before, fails), |before|, 0)
      == Scanned(Bodies(f, es)[..n], End(RecordsOf(RecordOf(f), es), n), false)
  {
    var bs, rs := Bodies(f, es), RecordsOf(RecordOf(f), es);
    SameRecords(f, es);
    SeenUpToFault(f.check, bs, rs, before, fails, n);
    EndGrows(rs, 0, n);
    ScanUpTo(Reader(f.check, before, fails), bs, rs, |before|, n, false, 0);
    assert bs[0..n] == bs[..n];
  }

  /**
   * Reopening takes a read that fails for the end of the file: of an intact file it keeps exactly
   * the records before the first failing read, and cuts the others off, without aborting.
   */
  lemma KeptUpToFault(f: Format, es: seq<WireEntry>, before: bytes, fails: nat -> bool, n: nat, aborted: bool,
                      entries: seq<WireEntry>, offsets: seq<nat>, file: bytes)
    requires Lawful(f, es) && Contiguous(es) && before == Image(RecordOf(f), es)
    requires forall i :: 0 <= i < |es| ==> |f.encode(es[i])| <= LONGEST
    requires FirstFault(fails, RecordsOf(RecordOf(f), es), n)
    requires Rebuilt(f, before, fails, aborted, entries, offsets, file)
    ensures !aborted && entries == es[..n] && file == Image(RecordOf(f), es[..n])
  {
    ScanToFault(f, es, before, fails, n);
    LoadedEntries(f, es, n, entries, offsets);
    ImageOfCut(RecordOf(f), es, n, before);
  }

  /**
   * Whatever follows intact records, unless it is a further one: reopening aborts exactly if it is
   * more than a record cut short, and otherwise cuts it off and keeps the records.
   */
  lemma TailDecides(f: Format, es: seq<WireEntry>, tail: bytes, aborted: bool, entries: seq<WireEntry>,
                    offsets: seq<nat>, file: bytes)
    requires Lawful(f, es) && Contiguous(es) && !StartsWhole(f.check, tail)
    requires forall i :: 0 <= i < |es| ==> |f.encode(es[i])| <= LONGEST
    requires Rebuilt(f, Image(RecordOf(f), es) + tail, NoFault, aborted, entries, offsets, file)
    ensures aborted <==> Damaged(f.check, tail)
    ensures !aborted ==> entries == es && file == Image(RecordOf(f), es)
  {
    var bs, rs, before := Bodies(f, es), RecordsOf(RecordOf(f), es), Image(RecordOf(f), es) + tail;
    SameRecords(f, es);
    TailScanned(f.check, bs, rs, tail, before);
    EndIsLength(rs, |rs|);
    assert bs[..|es|] == bs && es[..|es|] == es;
    LoadedEntries(f, es, |es|, entries, offsets);
  }

  /** Entries resurrected from records the mirror had forgotten are left out again by the snapshot. */
  lemma ReplayForgets(dropped: seq<WireEntry>, entries: seq<WireEntry>, snapIndex: int, k: nat)
    requires SplitsAt(dropped + entries, snapIndex, k) && forall e :: e in dropped ==> e.index <= snapIndex
    ensures k >= |dropped| && SplitsAt(entries, snapIndex, k - |dropped|)
    ensures (dropped + entries)[k..] == entries[k - |dropped|..]
  {
    var all := dropped + entries;
    assert dropped != [] ==> all[|dropped| - 1] == dropped[|dropped| - 1] && dropped[|dropped| - 1] in dropped;
    forall i | 0 <= i < |entries| ensures i < k - |dropped| <==> entries[i].index <= snapIndex {
      assert all[|dropped| + i] == entries[i];
    }
  }

  // -------------------------------------------------------- Raft's own format

  function Check(body: bytes): nat {
    Number(RawSum(body))
  }

  function BodyOf(e: WireEntry): bytes {
    Encoded(EntryFields(e))
  }

  function RaftFormat(decode: bytes -> WireEntry): Format {
    Format(BodyOf, decode, Check)
  }

  /** A body that does not parse may be decoded to anything. */
  ghost predicate Decodes(body: bytes, e: WireEntry) {
    ReadEntry(body, 0).Got? ==> e == ReadEntry(body, 0).value
  }

  lemma CheckFits(body: bytes)
    ensures Check(body) < TWO_32
  {
    Bytes.RadixIs();
    NumberFits(RawSum(body));
  }

  lemma BodyReadsBack(e: WireEntry)
    requires |e.command| < TWO_64
    ensures ReadEntry(BodyOf(e), 0) == Got(e, |BodyOf(e)|) && |BodyOf(e)| > 0
  {
    var fs := EntryFields(e);
    EntryAt(e, fs, 0);
    StartIsLength(fs);
  }

  /** Raft's format tells entries of any size its length fields can hold. */
  lemma RaftIsLawful(decode: bytes -> WireEntry, es: seq<WireEntry>)
    requires forall body :: Decodes(body, decode(body))
    requires forall i :: 0 <= i < |es| ==> |es[i].command| < TWO_64 && |BodyOf(es[i])| < TWO_32
    ensures Lawful(RaftFormat(decode), es)
  {
    forall b ensures Check(b) < TWO_32 { CheckFits(b); }
    forall i | 0 <= i < |es| ensures 0 < |BodyOf(es[i])| && decode(BodyOf(es[i])) == es[i] { BodyReadsBack(es[i]); }
  }

  /** Nothing stops an entry from being longer than a reader accepts, and the file is then unreadable. */
  lemma OversizedIsFatal(f: Format, e: WireEntry, aborted: bool, entries: seq<WireEntry>, offsets: seq<nat>,
                         file: bytes)
    requires Lawful(f, [e]) && |f.encode(e)| > LONGEST
    requires Rebuilt(f, Image(RecordOf(f), [e]), NoFault, aborted, entries, offsets, file)
    ensures aborted
  {
    var rs := RecordsOf(RecordOf(f), [e]);
    EndIsLength(rs, 1);
    assert End(rs, 0) == 0 && rs[0] == Record(f.check, f.encode(e)) && End(rs, 1) == |rs[0]|;
    assert Bodies(f, [e])[0] == f.encode(e);
    assert Oversized(f, [e], |Image(RecordOf(f), [e])|, 0);
    CutIsRestored(f, [e], Image(RecordOf(f), [e]), aborted, entries, offsets, file);
  }

  /** Such an entry exists: its command alone is too long. The store takes it and cannot be reopened. */
  method AppendOversized(f: Format, e: WireEntry) returns (refused: bool, aborted: bool)
    requires Lawful(f, [e]) && |f.encode(e)| > LONGEST
    ensures !refused && aborted
  {
    var store := new Store(f, []);
    assert store.dropped + store.entries == [];
    MirrorsNothing(RecordOf(f));
    refused := store.Append(e);
    assert store.dropped + store.entries == [e];
    aborted := store.Rebuild(NoFault);
    OversizedIsFatal(f, e, aborted, store.entries, store.offsets, store.file);
  }

  /** In Raft's format every command longer than the limit makes such an entry. */
  lemma LongCommandIsOversized(e: WireEntry)
    requires |e.command| > LONGEST
    ensures |BodyOf(e)| > LONGEST
  {
    var fs := EntryFields(e);
    FieldStands(fs, 2);
    StartIsLength(fs);
  }

  method EncodeEntry(e: WireEntry) returns (body: bytes)
    requires |e.command| < TWO_64
    ensures body == BodyOf(e)
  {
    var en := new Encoder();
    SerializeEntry(en, e);
    assert en.fields == EntryFields(e);
    body := en.buf;
  }

  /** A field that cannot be read keeps its default. */
  method DecodeEntry(body: bytes) returns (e: WireEntry)
    ensures Decodes(body, e)
  {
    var d := new Decoder(body);
    var term, index: int64, command: bytes, kind, confServer, confRole: int32;
    var ok1, ok2, ok3, ok4, ok5, ok6;
    ok1, term := d.Zigzag();
    ok2, index := d.Zigzag();
    ok3, command := d.Bytes();
    ok4, kind := d.Int();
    ok5, confServer := d.Int();
    ok6, confRole := d.Int();
    e := WireEntry(if ok1 then term else 0, if ok2 then index else 0, if ok3 then command else [],
                   if ok4 then kind else 0, if ok5 then confServer else -1, if ok6 then confRole else 0);
  }

  method CheckEntry(body: bytes) returns (crc: nat)
    ensures crc == Check(body)
  {
    var word := Crc.Crc32Raw(0, Octets(body));
    crc := Number(word);
  }
}
