/**
 * The snapshot blob: a versioned header, a checksum over header and payload, and the payload.
 * What a reader finds is a snapshot, no snapshot at all, or a corrupt one. The format is
 * described for any checksum, which sees the header and the payload one after the other.
 */
module SnapshotBlob {
  import opened Wrappers
  import opened Codec
  import opened Pieces
  import opened Bytes
  import opened Registers

  datatype Outcome = Loaded(index: int64, term: int64, raw: bytes) | Absent | Corrupt

  /** RAFTSNP1, RAFTSNP2 or RAFTSNP3. */
  function Magic(version: nat): (m: bytes)
    requires version < 10
    ensures |m| == 8
  {
    [82, 65, 70, 84, 83, 78, 80, (48 + version) as byte]
  }

  /** 0 stands for another format. */
  function Version(blob: bytes): (version: nat)
    requires |blob| >= 8
    ensures version <= 3
  {
    if blob[..8] == Magic(3) then 3 else if blob[..8] == Magic(2) then 2 else if blob[..8] == Magic(1) then 1 else 0
  }

  function HeaderSize(version: nat): nat {
    if version == 3 then 32 else if version == 2 then 24 else 20
  }

  /** The two's complement number of n bytes for v, and back. */
  function Unsigned(v: int, n: nat): (u: nat)
    ensures u < Radix(n)
  {
    v % Radix(n)
  }

  function Signed32(u: nat): int32
    requires u < Radix(4)
  {
    RadixIs();
    if u < TWO_31 then u else u - TWO_32
  }

  function Signed64(u: nat): int64
    requires u < Radix(8)
  {
    RadixIs();
    if u < TWO_63 then u else u - TWO_64
  }

  function GetInt32(s: bytes, pos: nat): int32
    requires pos + 4 <= |s|
  {
    LittleBelow(s, pos, 4);
    Signed32(LittleAt(s, pos, 4))
  }

  function GetInt64(s: bytes, pos: nat): int64
    requires pos + 8 <= |s|
  {
    LittleBelow(s, pos, 8);
    Signed64(LittleAt(s, pos, 8))
  }

  // ------------------------------------------------------------- the format

  type Check = (bytes, bytes) -> nat

  /** The header without its checksum. */
  function Head(index: int64, term: int64, size: nat): (h: bytes)
    ensures |h| == 28
  {
    Magic(3) + Little(Unsigned(index, 8), 8) + Little(Unsigned(term, 8), 8) + Little(Unsigned(size, 4), 4)
  }

  function Stamped(check: Check, head: bytes, raw: bytes): bytes {
    head + Little(check(head, raw), 4) + raw
  }

  function Encode(check: Check, index: int64, term: int64, raw: bytes): bytes {
    Stamped(check, Head(index, term, |raw|), raw)
  }

  /** The checksum in front of position header is that of everything else. */
  predicate SumMatches(check: Check, blob: bytes, header: nat)
    requires 4 <= header <= |blob|
  {
    LittleAt(blob, header - 4, 4) == check(blob[..header - 4], blob[header..])
  }

  function Payload(blob: bytes, version: nat): Outcome
    requires 1 <= version <= 3 && |blob| >= HeaderSize(version)
  {
    var raw := blob[HeaderSize(version)..];
    if version == 3 then Loaded(GetInt64(blob, 8), GetInt64(blob, 16), raw)
            else Loaded(GetInt32(blob, 8), GetInt32(blob, 12), raw)
  }

  function Length(blob: bytes, version: nat): int32
    requires 1 <= version <= 3 && |blob| >= HeaderSize(version)
  {
    GetInt32(blob, if version == 3 then 24 else 16)
  }

  function Decode(check: Check, blob: bytes): Outcome {
    if |blob| < HeaderSize(1) then Absent else
    var version := Version(blob);
    if version == 0 then Absent
    else if |blob| < HeaderSize(version) then Corrupt
    else if Length(blob, version) < 0 || |blob| != HeaderSize(version) + Length(blob, version) then Corrupt
    else if version != 1 && !SumMatches(check, blob, HeaderSize(version)) then Corrupt
    else Payload(blob, version)
  }

  // ------------------------------------------------------------ round trip

  lemma SignedBack(v: int64)
    ensures Signed64(Unsigned(v, 8)) == v
  {
    RadixIs();
  }

  /** Four parts, one behind the other. */
  lemma FourParts(s: bytes, m: bytes, a: bytes, b: bytes, c: bytes)
    requires |m + a + b + c| <= |s| && s[..|m + a + b + c|] == m + a + b + c
    ensures s[..|m|] == m && Holds(s, |m|, a) && Holds(s, |m| + |a|, b) && Holds(s, |m| + |a| + |b|, c)
  {
    assert Holds(s, 0, m + a + b + c);
    HoldsParts(s, 0, m + a + b, c);
    HoldsParts(s, 0, m + a, b);
    HoldsParts(s, 0, m, a);
  }

  lemma HeadStands(index: int64, term: int64, size: nat, s: bytes)
    requires |s| >= 28 && s[..28] == Head(index, term, size)
    ensures s[..8] == Magic(3)
    ensures Holds(s, 8, Little(Unsigned(index, 8), 8)) && Holds(s, 16, Little(Unsigned(term, 8), 8))
    ensures Holds(s, 24, Little(Unsigned(size, 4), 4))
  {
    FourParts(s, Magic(3), Little(Unsigned(index, 8), 8), Little(Unsigned(term, 8), 8), Little(Unsigned(size, 4), 4));
  }

  lemma HeadFields(index: int64, term: int64, size: nat, s: bytes)
    requires |s| >= 28 && s[..28] == Head(index, term, size)
    ensures Version(s) == 3 && GetInt64(s, 8) == index && GetInt64(s, 16) == term
    ensures GetInt32(s, 24) == Signed32(Unsigned(size, 4))
  {
    HeadStands(index, term, size, s);
    LittleBack(s, 8, Unsigned(index, 8), 8);
    LittleBack(s, 16, Unsigned(term, 8), 8);
    LittleBack(s, 24, Unsigned(size, 4), 4);
    SignedBack(index);
    SignedBack(term);
  }

  lemma ThreeSlices(a: bytes, b: bytes, c: bytes)
    ensures var s := a + b + c; s[..|a|] == a && s[|a| + |b|..] == c && Holds(s, |a|, b)
  {
  }

  lemma StampedParts(check: Check, head: bytes, raw: bytes)
    requires |head| == 28 && check(head, raw) < Radix(4)
    ensures var s := Stamped(check, head, raw);
      |s| == 32 + |raw| && s[..28] == head && s[32..] == raw && SumMatches(check, s, 32)
  {
    ThreeSlices(head, Little(check(head, raw), 4), raw);
    LittleBack(Stamped(check, head, raw), 28, check(head, raw), 4);
  }

  lemma SizeBack(size: nat)
    ensures Signed32(Unsigned(size, 4)) == size <==> size < TWO_31
  {
    RadixIs();
  }

  /** A version 3 blob whose checksum fits is loaded when its length field is right. */
  lemma DecodeIs(check: Check, s: bytes, index: int64, term: int64, raw: bytes)
    requires |s| == 32 + |raw| && Version(s) == 3 && s[32..] == raw && SumMatches(check, s, 32)
    requires GetInt64(s, 8) == index && GetInt64(s, 16) == term
    ensures Decode(check, s) == if GetInt32(s, 24) == |raw| then Loaded(index, term, raw) else Corrupt
  {
  }

  /** A blob gives back what was stored, exactly when its size fits the header's length field. */
  lemma BlobRoundTrip(check: Check, index: int64, term: int64, raw: bytes)
    requires forall a, b :: check(a, b) < Radix(4)
    ensures Decode(check, Encode(check, index, term, raw))
      == if |raw| < TWO_31 then Loaded(index, term, raw) else Corrupt
  {
    var s := Encode(check, index, term, raw);
    StampedParts(check, Head(index, term, |raw|), raw);
    HeadFields(index, term, |raw|, s);
    SizeBack(|raw|);
    DecodeIs(check, s, index, term, raw);
  }

  /** A blob is taken for no snapshot exactly if it is short or starts with none of the three names. */
  lemma AbsentExactly(check: Check, blob: bytes)
    ensures Decode(check, blob) == Absent
      <==> |blob| < 20 || !(blob[..7] == [82, 65, 70, 84, 83, 78, 80] && 49 <= blob[7] <= 51)
  {
    if |blob| >= 20 {
      assert blob[..8] == blob[..7] + [blob[7]];
      assert Magic(1) == Magic(1)[..7] + [49] && Magic(2) == Magic(1)[..7] + [50] && Magic(3) == Magic(1)[..7] + [51];
    }
  }

  lemma OldStands(version: nat, a: bytes, b: bytes, c: bytes, s: bytes)
    requires 1 <= version <= 2 && |a| == |b| == |c| == 4 && |s| >= 20 && s[..20] == Magic(version) + a + b + c
    ensures s[..8] == Magic(version) && Holds(s, 8, a) && Holds(s, 12, b) && Holds(s, 16, c)
  {
    FourParts(s, Magic(version), a, b, c);
  }

  lemma VersionIs(version: nat, s: bytes)
    requires 1 <= version <= 2 && |s| >= 8 && s[..8] == Magic(version)
    ensures Version(s) == version
  {
    assert Magic(version)[7] == (48 + version) as byte;
  }

  lemma Int32Back(s: bytes, pos: nat, v: int32)
    requires Holds(s, pos, Little(Unsigned(v, 4), 4))
    ensures GetInt32(s, pos) == v
  {
    RadixIs();
    LittleBack(s, pos, Unsigned(v, 4), 4);
  }

  lemma OldFields(version: nat, index: int32, term: int32, size: nat, s: bytes)
    requires 1 <= version <= 2 && size < TWO_31 && |s| >= 20 && s[..20] == OldHead(version, index, term, size)
    ensures Version(s) == version && GetInt32(s, 8) == index && GetInt32(s, 12) == term && GetInt32(s, 16) == size
  {
    RadixIs();
    OldStands(version, Little(Unsigned(index, 4), 4), Little(Unsigned(term, 4), 4), Little(Unsigned(size, 4), 4), s);
    VersionIs(version, s);
    Int32Back(s, 8, index);
    Int32Back(s, 12, term);
    Int32Back(s, 16, size);
  }

  /** The header of the older versions, without a checksum. */
  function OldHead(version: nat, index: int32, term: int32, size: nat): (h: bytes)
    requires 1 <= version <= 2
    ensures |h| == 20
  {
    Magic(version) + Little(Unsigned(index, 4), 4) + Little(Unsigned(term, 4), 4) + Little(Unsigned(size, 4), 4)
  }

  /** Blobs of the older versions are still loaded: the first without a checksum, the second with one. */
  lemma OldVersionsLoad(check: Check, index: int32, term: int32, raw: bytes)
    requires |raw| < TWO_31 && forall a, b :: check(a, b) < Radix(4)
    ensures Decode(check, OldHead(1, index, term, |raw|) + raw) == Loaded(index, term, raw)
    ensures var head := OldHead(2, index, term, |raw|);
      Decode(check, head + Little(check(head, raw), 4) + raw) == Loaded(index, term, raw)
  {
    var one := OldHead(1, index, term, |raw|) + raw;
    assert one[..20] == OldHead(1, index, term, |raw|) && one[20..] == raw;
    OldFields(1, index, term, |raw|, one);
    var head := OldHead(2, index, term, |raw|);
    var two := head + Little(check(head, raw), 4) + raw;
    ThreeSlices(head, Little(check(head, raw), 4), raw);
    assert two[..20] == head;
    OldFields(2, index, term, |raw|, two);
    LittleBack(two, 20, check(head, raw), 4);
  }

  // ------------------------------------------------------------- corruption

  /** The checksum sees any single changed byte. */
  ghost predicate Notices(check: Check) {
    forall a, b, c, d, p: nat {:trigger check(a, b), check(c, d), DifferAt(a + b, c + d, p)} ::
      |a| == |c| && DifferAt(a + b, c + d, p) ==> check(a, b) != check(c, d)
  }

  /** A change outside the stored checksum is a change of what is summed. */
  lemma CoveredDiffers(a: bytes, b: bytes, p: nat, header: nat)
    requires DifferAt(a, b, p) && 4 <= header <= |a| && !(header - 4 <= p < header)
    ensures DifferAt(a[..header - 4] + a[header..], b[..header - 4] + b[header..], if p < header then p else p - 4)
  {
    var c, d := a[..header - 4] + a[header..], b[..header - 4] + b[header..];
    forall i | 0 <= i < |c| && i != (if p < header then p else p - 4) ensures c[i] == d[i] {
      var k := if i < header - 4 then i else i + 4;
      assert c[i] == a[k] && d[i] == b[k];
    }
  }

  lemma StampChanged(check: Check, a: bytes, b: bytes, p: nat, header: nat)
    requires DifferAt(a, b, p) && 4 <= header <= |a| && SumMatches(check, a, header) && header - 4 <= p < header
    ensures !SumMatches(check, b, header)
  {
    assert a[..header - 4] == b[..header - 4] && a[header..] == b[header..];
    LittleInjective(a, b, header - 4, 4, p);
  }

  lemma CoveredChanged(check: Check, a: bytes, b: bytes, p: nat, header: nat)
    requires Notices(check) && DifferAt(a, b, p) && 4 <= header <= |a|
    requires SumMatches(check, a, header) && !(header - 4 <= p < header)
    ensures !SumMatches(check, b, header)
  {
    CoveredDiffers(a, b, p, header);
    LittleSame(a, b, header - 4, 4);
    assert check(a[..header - 4], a[header..]) != check(b[..header - 4], b[header..]);
  }

  /** In a readable blob with a checksum, any single changed byte behind the magic is noticed. */
  lemma OneByteIsNoticed(check: Check, a: bytes, b: bytes, p: nat)
    requires Notices(check) && Decode(check, a).Loaded? && Version(a) != 1
    requires DifferAt(a, b, p) && p >= 8
    ensures Decode(check, b) == Corrupt
  {
    var header := HeaderSize(Version(a));
    assert a[..8] == b[..8];
    if header - 4 <= p < header {
      StampChanged(check, a, b, p, header);
    } else {
      CoveredChanged(check, a, b, p, header);
    }
  }

  /** The oldest format has no checksum: a changed payload byte is read as if it were the payload. */
  lemma OldFormatTrustsItsPayload(check: Check, a: bytes, b: bytes, p: nat)
    requires Decode(check, a).Loaded? && Version(a) == 1
    requires DifferAt(a, b, p) && p >= 20
    ensures Decode(check, b) == Loaded(Decode(check, a).index, Decode(check, a).term, b[20..])
  {
    assert a[..8] == b[..8];
    LittleSame(a, b, 8, 4);
    LittleSame(a, b, 12, 4);
    LittleSame(a, b, 16, 4);
  }
}
