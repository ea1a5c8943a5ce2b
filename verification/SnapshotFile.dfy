/** The snapshot blob as it is written: with CRC-32, taken over the header and continued over the payload. */
module SnapshotFile {
  import opened Wrappers
  import opened Codec
  import opened Bytes
  import opened Checksum
  import opened Registers
  import opened SnapshotBlob
  import Crc

  function CrcCheck(head: bytes, payload: bytes): nat {
    Number(Sum(Sum(0, head), payload))
  }

  lemma CrcFits(head: bytes, payload: bytes)
    ensures CrcCheck(head, payload) < Radix(4)
  {
    NumberFits(Sum(Sum(0, head), payload));
  }

  lemma SumsDiffer(a: bytes, b: bytes, c: bytes, d: bytes, p: nat)
    requires DifferAt(a + b, c + d, p)
    ensures Sum(Sum(0, a), b) != Sum(Sum(0, c), d)
  {
    SumSplits(0, a, b);
    SumSplits(0, c, d);
    SumShows(0, a + b, c + d, p);
  }

  lemma CrcDiffers(a: bytes, b: bytes, c: bytes, d: bytes, p: nat)
    requires DifferAt(a + b, c + d, p)
    ensures CrcCheck(a, b) != CrcCheck(c, d)
  {
    SumsDiffer(a, b, c, d, p);
    if CrcCheck(a, b) == CrcCheck(c, d) { NumberInjective(Sum(Sum(0, a), b), Sum(Sum(0, c), d)); }
  }

  lemma CrcNotices()
    ensures Notices(CrcCheck)
  {
    forall a, b, c, d, p: nat | |a| == |c| && DifferAt(a + b, c + d, p) ensures CrcCheck(a, b) != CrcCheck(c, d) {
      CrcDiffers(a, b, c, d, p);
    }
  }

  /** A stored snapshot comes back as it was, exactly when its size fits the length field. */
  lemma SnapshotComesBack(index: int64, term: int64, raw: bytes)
    ensures Decode(CrcCheck, Encode(CrcCheck, index, term, raw))
      == if |raw| < TWO_31 then Loaded(index, term, raw) else Corrupt
  {
    forall a, b ensures CrcCheck(a, b) < Radix(4) { CrcFits(a, b); }
    BlobRoundTrip(CrcCheck, index, term, raw);
  }

  /** Any single changed byte behind the magic of a stored snapshot is reported as corruption. */
  lemma ChangedByteIsCorruption(index: int64, term: int64, raw: bytes, changed: bytes, p: nat)
    requires |raw| < TWO_31 && DifferAt(Encode(CrcCheck, index, term, raw), changed, p) && p >= 8
    ensures Decode(CrcCheck, changed) == Corrupt
  {
    SnapshotComesBack(index, term, raw);
    CrcNotices();
    EncodedVersion(index, term, raw);
    OneByteIsNoticed(CrcCheck, Encode(CrcCheck, index, term, raw), changed, p);
  }

  lemma EncodedVersion(index: int64, term: int64, raw: bytes)
    ensures var s := Encode(CrcCheck, index, term, raw); |s| >= 8 && Version(s) == 3
  {
    CrcFits(Head(index, term, |raw|), raw);
    StampedParts(CrcCheck, Head(index, term, |raw|), raw);
    HeadFields(index, term, |raw|, Encode(CrcCheck, index, term, raw));
  }

  // ------------------------------------------------------------ the methods

  method Checked(head: bytes, payload: bytes) returns (sum: nat)
    ensures sum == CrcCheck(head, payload)
  {
    var crc := Crc.Crc32Update(0, Octets(head));
    crc := Crc.Crc32Update(crc, Octets(payload));
    sum := Number(crc);
  }

  method EncodeSnapshotBlob(index: int64, term: int64, raw: bytes) returns (out: bytes)
    ensures out == Encode(CrcCheck, index, term, raw)
    ensures var head := [82, 65, 70, 84, 83, 78, 80, 51] + Little(Unsigned(index, 8), 8) + Little(Unsigned(term, 8), 8)
        + Little(Unsigned(|raw|, 4), 4);
      out == head + Little(CrcCheck(head, raw), 4) + raw
  {
    out := Magic(3);
    out := PutLittle(out, Unsigned(index, 8), 8);
    out := PutLittle(out, Unsigned(term, 8), 8);
    out := PutLittle(out, Unsigned(|raw|, 4), 4);
    var sum := Checked(out, raw);
    out := PutLittle(out, sum, 4);
    out := out + raw;
  }

  method SumFits(blob: bytes, header: nat) returns (fits: bool)
    requires 4 <= header <= |blob|
    ensures fits == SumMatches(CrcCheck, blob, header)
  {
    var want := GetLittle(blob, header - 4, 4);
    var sum := Checked(blob[..header - 4], blob[header..]);
    fits := sum == want;
  }

  method DecodeSnapshotBlob(blob: bytes) returns (ok: bool, corrupt: bool, index: int64, term: int64, raw: bytes)
    ensures ok ==> Decode(CrcCheck, blob) == Loaded(index, term, raw)
    ensures !ok ==> Decode(CrcCheck, blob) == if corrupt then Corrupt else Absent
  {
    ok, corrupt, index, term, raw := false, false, 0, 0, [];
    if |blob| < HeaderSize(1) { return; }
    var version := Version(blob);
    if version == 0 { return; }
    var header := HeaderSize(version);
    if |blob| < header { corrupt := true; return; }
    var idx: int64 := if version == 3 then GetInt64(blob, 8) else GetInt32(blob, 8);
    var t: int64 := if version == 3 then GetInt64(blob, 16) else GetInt32(blob, 12);
    var len := GetInt32(blob, if version == 3 then 24 else 16);
    if len < 0 || |blob| != header + len { corrupt := true; return; }
    if version != 1 {
      var fits := SumFits(blob, header);
      if !fits { corrupt := true; return; }
    }
    ok, index, term, raw := true, idx, t, blob[header..];
  }
}
