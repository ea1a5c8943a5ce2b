/**
 * The in-memory mirror of a file of records: the entries, and the offset behind each one's
 * record. Nothing here depends on what an entry or its record is.
 */
module SegmentMirror {
  import opened Wrappers
  import opened Pieces

  function RecordsOf<E>(record: E -> bytes, es: seq<E>): (rs: seq<bytes>)
    ensures |rs| == |es|
  {
    seq(|es|, i requires 0 <= i < |es| => record(es[i]))
  }

  /** The records of all of them, one behind the other. */
  function Image<E>(record: E -> bytes, es: seq<E>): bytes {
    Cat(RecordsOf(record, es), |es|)
  }

  /** offsets[i] is the end of record skip + i. */
  ghost predicate OffsetsFit(rs: seq<bytes>, skip: nat, offsets: seq<nat>) {
    skip + |offsets| == |rs| && forall i :: 0 <= i < |offsets| ==> offsets[i] == End(rs, skip + i + 1)
  }

  /** The file holds the records of dropped, whose entries are forgotten, and of entries. */
  ghost predicate Mirrors<E>(record: E -> bytes, file: bytes, offsets: seq<nat>, dropped: seq<E>, entries: seq<E>) {
    file == Image(record, dropped + entries) && OffsetsFit(RecordsOf(record, dropped + entries), |dropped|, offsets)
  }

  lemma OffsetsGrow(rs: seq<bytes>, skip: nat, offsets: seq<nat>, r: bytes)
    requires OffsetsFit(rs, skip, offsets)
    ensures OffsetsFit(rs + [r], skip, offsets + [|Cat(rs, |rs|)| + |r|])
  {
    Appended(rs, r);
    EndIsLength(rs, |rs|);
    var more := offsets + [|Cat(rs, |rs|)| + |r|];
    forall i | 0 <= i < |more| ensures more[i] == End(rs + [r], skip + i + 1) {
      CatPrefix(rs, rs + [r], if i < |offsets| then skip + i + 1 else 0);
    }
  }

  lemma MirrorsAppend<E>(record: E -> bytes, file: bytes, offsets: seq<nat>, dropped: seq<E>, entries: seq<E>, e: E)
    requires Mirrors(record, file, offsets, dropped, entries)
    ensures Mirrors(record, file + record(e), offsets + [|file| + |record(e)|], dropped, entries + [e])
  {
    var rs := RecordsOf(record, dropped + entries);
    assert dropped + (entries + [e]) == dropped + entries + [e];
    assert RecordsOf(record, dropped + entries + [e]) == rs + [record(e)];
    Appended(rs, record(e));
    OffsetsGrow(rs, |dropped|, offsets, record(e));
  }

  /** Cutting the file behind the first keep entries. */
  lemma MirrorsCut<E>(record: E -> bytes, file: bytes, offsets: seq<nat>, dropped: seq<E>, entries: seq<E>, keep: nat)
    requires Mirrors(record, file, offsets, dropped, entries) && 0 < keep <= |entries|
    ensures offsets[keep - 1] <= |file|
    ensures Mirrors(record, file[..offsets[keep - 1]], offsets[..keep], dropped, entries[..keep])
  {
    var rs, n := RecordsOf(record, dropped + entries), |dropped| + keep;
    assert dropped + entries[..keep] == (dropped + entries)[..n];
    var cut := RecordsOf(record, dropped + entries[..keep]);
    assert forall i :: 0 <= i < n ==> rs[i] == cut[i];
    CatStarts(rs, n, |rs|);
    CatPrefix(rs, cut, n);
    forall i | 0 <= i < keep ensures offsets[..keep][i] == End(cut, |dropped| + i + 1) {
      CatPrefix(rs, cut, |dropped| + i + 1);
    }
  }

  /** Forgetting the first n entries, but not their records. */
  lemma MirrorsDrop<E>(record: E -> bytes, file: bytes, offsets: seq<nat>, dropped: seq<E>, entries: seq<E>, n: nat)
    requires Mirrors(record, file, offsets, dropped, entries) && n <= |entries|
    ensures Mirrors(record, file, offsets[n..], dropped + entries[..n], entries[n..])
  {
    assert dropped + entries[..n] + entries[n..] == dropped + entries;
  }

  lemma MirrorsNothing<E>(record: E -> bytes)
    ensures Mirrors(record, [], [], [], [])
  {
  }
}
