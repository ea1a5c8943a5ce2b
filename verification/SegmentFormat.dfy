/**
 * The segment file: one record behind the other, each with its length and checksum in front.
 * Nothing here depends on which checksum it is.
 * A file cut anywhere holds exactly the records that are whole.
 */
module SegmentFormat {
  import opened Wrappers
  import opened Codec
  import opened Bytes
  import opened Pieces

  /** No record body may be longer. */
  const LONGEST: nat := 0x1000_0000

  function Framed(len: nat, sum: nat, body: bytes): (r: bytes)
    ensures |r| == 8 + |body|
  {
    Little(len, 4) + Little(sum, 4) + body
  }

  /** A record: its length, its checksum and its body. */
  function Record(check: bytes -> nat, body: bytes): (r: bytes)
    ensures |r| == 8 + |body|
  {
    Framed(Cut32(|body|), check(body), body)
  }

  /** The length first, then the checksum, then the body. */
  lemma RecordLayout(check: bytes -> nat, body: bytes)
    requires |body| < TWO_32
    ensures var r := Record(check, body);
      r[..4] == Little(|body|, 4) && r[4..8] == Little(check(body), 4) && r[8..] == body
  {
    EightAndBody(Little(|body|, 4), Little(check(body), 4), body);
  }

  lemma EightAndBody(a: bytes, b: bytes, body: bytes)
    requires |a| == |b| == 4
    ensures var r := a + b + body; r[..4] == a && r[4..8] == b && r[8..] == body
  {
  }

  function Records(check: bytes -> nat, bodies: seq<bytes>): (rs: seq<bytes>)
    ensures |rs| == |bodies|
  {
    seq(|bodies|, i requires 0 <= i < |bodies| => Record(check, bodies[i]))
  }

  // -------------------------------------------------------------- scanning

  /** The whole records' bodies, where they end, and whether what follows is no torn tail. */
  datatype Scanned = Scanned(bodies: seq<bytes>, end: nat, corrupt: bool)

  function BodyAt(file: bytes, off: nat, len: nat): bytes
    requires off + 8 + len <= |file|
  {
    file[off + 8..off + 8 + len]
  }

  predicate SumFits(check: bytes -> nat, file: bytes, off: nat, len: nat)
    requires off + 8 + len <= |file|
  {
    check(BodyAt(file, off, len)) == LittleAt(file, off + 4, 4)
  }

  /** What stands at a place: a whole record, or nothing more that can be read. */
  datatype Seen = WholeRecord(body: bytes) | Stop(corrupt: bool)

  /** No read fails. */
  predicate NoFault(off: nat) {
    false
  }

  /**
   * A torn tail is the end; anything else unreadable is corruption. A read from a place where
   * reading fails is taken for the end as well.
   */
  function RecordAt(check: bytes -> nat, file: bytes, fails: nat -> bool, off: nat): Seen {
    if off + 8 > |file| || fails(off) then Stop(false) else
    var len := LittleAt(file, off, 4);
    if len == 0 || len > LONGEST then Stop(off + 8 < |file|)
    else if off + 8 + len > |file| || fails(off + 8) then Stop(false)
    else if !SumFits(check, file, off, len) then Stop(off + 8 + len < |file|)
    else WholeRecord(BodyAt(file, off, len))
  }

  function Reader(check: bytes -> nat, file: bytes, fails: nat -> bool): nat -> Seen {
    (off: nat) => RecordAt(check, file, fails, off)
  }

  /** Reading record by record from off on, in a file of this size. */
  function Scan(look: nat -> Seen, size: nat, off: nat): (r: Scanned)
    requires off <= size
    ensures off <= r.end <= size
    decreases size - off
  {
    match look(off)
    case Stop(corrupt) => Scanned([], off, corrupt)
    case WholeRecord(body) =>
      if off + 8 + |body| > size then Scanned([], off, false) else Prepend(body, Scan(look, size, off + 8 + |body|))
  }

  function Prepend(body: bytes, r: Scanned): Scanned {
    Scanned([body] + r.bodies, r.end, r.corrupt)
  }

  // ---------------------------------------------------------- one record

  lemma FrameParts(s: bytes, pos: nat, len: nat, sum: nat, body: bytes)
    requires Holds(s, pos, Framed(len, sum, body))
    ensures Holds(s, pos, Little(len, 4)) && Holds(s, pos + 4, Little(sum, 4)) && Holds(s, pos + 8, body)
  {
    ThreeParts(s, pos, Little(len, 4), Little(sum, 4), body);
  }

  /** A header that is whole is read as it was written. */
  lemma HeaderReads(s: bytes, pos: nat, len: nat, sum: nat, body: bytes, file: bytes)
    requires Holds(s, pos, Framed(len, sum, body)) && len < Radix(4) && sum < Radix(4) && file <= s && pos + 8 <= |file|
    ensures LittleAt(file, pos, 4) == len && LittleAt(file, pos + 4, 4) == sum
  {
    FrameParts(s, pos, len, sum, body);
    LittleBack(s, pos, len, 4);
    LittleBack(s, pos + 4, sum, 4);
    LittleSame(file, s, pos, 4);
    LittleSame(file, s, pos + 4, 4);
  }

  /** So is a body. */
  lemma BodyReads(s: bytes, pos: nat, len: nat, sum: nat, body: bytes, file: bytes)
    requires Holds(s, pos, Framed(len, sum, body)) && file <= s && pos + 8 + |body| <= |file|
    ensures BodyAt(file, pos, |body|) == body
  {
    FrameParts(s, pos, len, sum, body);
    assert BodyAt(file, pos, |body|) == s[pos + 8..pos + 8 + |body|];
  }

  // ---------------------------------------------------------- torn anywhere

  lemma WholeSeen(check: bytes -> nat, s: bytes, off: nat, body: bytes, file: bytes)
    requires Holds(s, off, Framed(|body|, check(body), body)) && check(body) < Radix(4) && |body| < Radix(4)
    requires 0 < |body| <= LONGEST && file <= s && off + 8 + |body| <= |file|
    ensures RecordAt(check, file, NoFault, off) == WholeRecord(body)
  {
    HeaderReads(s, off, |body|, check(body), body, file);
    BodyReads(s, off, |body|, check(body), body, file);
  }

  lemma TornSeen(check: bytes -> nat, s: bytes, off: nat, body: bytes, file: bytes)
    requires Holds(s, off, Framed(|body|, check(body), body)) && check(body) < Radix(4) && |body| < Radix(4)
    requires 0 < |body| && file <= s && off <= |file|
    requires |body| > LONGEST || |file| < off + 8 + |body|
    ensures RecordAt(check, file, NoFault, off) == Stop(|body| > LONGEST && off + 8 < |file|)
  {
    if off + 8 <= |file| { HeaderReads(s, off, |body|, check(body), body, file); }
  }

  /** Every length field holds its record's length, and every checksum fits. */
  ghost predicate Measurable(check: bytes -> nat, bodies: seq<bytes>) {
    (forall i :: 0 <= i < |bodies| ==> 0 < |bodies[i]| < TWO_32) && forall b :: check(b) < TWO_32
  }

  /** How many records are whole in the first n bytes, when k are. */
  function Whole(rs: seq<bytes>, n: nat, k: nat): (m: nat)
    requires k <= |rs| && End(rs, k) <= n
    ensures k <= m <= |rs| && End(rs, m) <= n && (m < |rs| ==> n < End(rs, m + 1))
    decreases |rs| - k
  {
    if k < |rs| && End(rs, k + 1) <= n then Whole(rs, n, k + 1) else k
  }

  /** Record i is longer than allowed, and a byte of its body is there. */
  ghost predicate TooLong(bodies: seq<bytes>, rs: seq<bytes>, n: nat, i: nat) {
    i < |bodies| && i < |rs| && |bodies[i]| > LONGEST && End(rs, i) + 8 < n
  }

  lemma RecordIs(check: bytes -> nat, body: bytes)
    requires |body| < TWO_32
    ensures Record(check, body) == Framed(|body|, check(body), body)
  {
  }

  lemma OneRecord(check: bytes -> nat, bodies: seq<bytes>, rs: seq<bytes>, k: nat)
    requires rs == Records(check, bodies) && k < |bodies| && |bodies[k]| < TWO_32
    ensures var b := bodies[k];
      Holds(Cat(rs, |rs|), End(rs, k), Framed(|b|, check(b), b)) && End(rs, k + 1) == End(rs, k) + 8 + |b|
  {
    RecordIs(check, bodies[k]);
    PieceStands(rs, k, |rs|);
  }

  /** Scanning n bytes from record k on finds the records up to m, or a file that is no torn one. */
  ghost predicate ScansTo(bodies: seq<bytes>, rs: seq<bytes>, n: nat, k: nat, r: Scanned, m: nat)
    requires |rs| == |bodies| && k <= |rs| && End(rs, k) <= n
  {
    && m == Whole(rs, n, k)
    && (r.corrupt <==> exists i: nat :: k <= i && TooLong(bodies, rs, n, i))
    && (!r.corrupt ==> r.end == End(rs, m) && r.bodies == bodies[k..m])
  }

  ghost predicate ScansAs(bodies: seq<bytes>, rs: seq<bytes>, n: nat, k: nat, r: Scanned)
    requires |rs| == |bodies| && k <= |rs| && End(rs, k) <= n
  {
    exists m: nat :: ScansTo(bodies, rs, n, k, r, m)
  }

  lemma TornAs(bodies: seq<bytes>, rs: seq<bytes>, n: nat, k: nat)
    requires |rs| == |bodies| && k < |rs| && End(rs, k) <= n && End(rs, k + 1) == End(rs, k) + 8 + |bodies[k]|
    requires |bodies[k]| > LONGEST || n < End(rs, k + 1)
    ensures ScansAs(bodies, rs, n, k, Scanned([], End(rs, k), |bodies[k]| > LONGEST && End(rs, k) + 8 < n))
  {
    if !TooLong(bodies, rs, n, k) {
      forall i: nat | k <= i ensures !TooLong(bodies, rs, n, i) {
        if k < i < |rs| { EndGrows(rs, k + 1, i); }
      }
    }
    assert ScansTo(bodies, rs, n, k, Scanned([], End(rs, k), |bodies[k]| > LONGEST && End(rs, k) + 8 < n),
                     Whole(rs, n, k));
  }

  lemma WholeAs(bodies: seq<bytes>, rs: seq<bytes>, n: nat, k: nat, r: Scanned, rest: Scanned)
    requires |rs| == |bodies| && k < |rs| && End(rs, k) <= End(rs, k + 1) <= n
    requires |bodies[k]| <= LONGEST && ScansAs(bodies, rs, n, k + 1, rest) && r == Prepend(bodies[k], rest)
    ensures ScansAs(bodies, rs, n, k, r)
  {
    assert !TooLong(bodies, rs, n, k);
    assert ScansTo(bodies, rs, n, k, r, Whole(rs, n, k));
  }

  lemma DoneAs(bodies: seq<bytes>, rs: seq<bytes>, n: nat)
    requires |rs| == |bodies| && End(rs, |rs|) == n
    ensures ScansAs(bodies, rs, n, |rs|, Scanned([], n, false))
  {
    assert ScansTo(bodies, rs, n, |rs|, Scanned([], n, false), |rs|);
  }

  /** What is seen at the start of record k when n bytes are left of the file. */
  ghost predicate SeesRecord(look: nat -> Seen, bodies: seq<bytes>, rs: seq<bytes>, n: nat, k: nat)
    requires |rs| == |bodies|
  {
    k < |bodies| && End(rs, k) <= n ==>
      End(rs, k + 1) == End(rs, k) + 8 + |bodies[k]|
      && look(End(rs, k)) == if |bodies[k]| <= LONGEST && End(rs, k + 1) <= n then WholeRecord(bodies[k])
                             else Stop(|bodies[k]| > LONGEST && End(rs, k) + 8 < n)
  }

  ghost predicate SeesFile(look: nat -> Seen, bodies: seq<bytes>, rs: seq<bytes>, n: nat) {
    |rs| == |bodies| && n <= End(rs, |rs|) && look(n) == Stop(false)
    && forall k: nat :: SeesRecord(look, bodies, rs, n, k)
  }

  /** Scanning from record k on. */
  lemma {:induction false} ScanFrom(look: nat -> Seen, bodies: seq<bytes>, rs: seq<bytes>, n: nat, k: nat)
    requires SeesFile(look, bodies, rs, n) && k <= |bodies| && End(rs, k) <= n
    ensures ScansAs(bodies, rs, n, k, Scan(look, n, End(rs, k)))
    decreases |bodies| - k
  {
    if k == |bodies| {
      DoneAs(bodies, rs, n);
    } else {
      assert SeesRecord(look, bodies, rs, n, k);
      if |bodies[k]| <= LONGEST && End(rs, k + 1) <= n {
        ScanFrom(look, bodies, rs, n, k + 1);
        WholeAs(bodies, rs, n, k, Scan(look, n, End(rs, k)), Scan(look, n, End(rs, k + 1)));
      } else {
        TornAs(bodies, rs, n, k);
      }
    }
  }

  ghost predicate CutFile(check: bytes -> nat, bodies: seq<bytes>, rs: seq<bytes>, file: bytes) {
    Measurable(check, bodies) && rs == Records(check, bodies) && file <= Cat(rs, |rs|)
  }

  lemma CutRecordSeen(check: bytes -> nat, bodies: seq<bytes>, rs: seq<bytes>, file: bytes, k: nat)
    requires CutFile(check, bodies, rs, file) && k < |bodies| && End(rs, k) <= |file|
    ensures SeesRecord(Reader(check, file, NoFault), bodies, rs, |file|, k)
  {
    RadixIs();
    OneRecord(check, bodies, rs, k);
    if |bodies[k]| <= LONGEST && End(rs, k + 1) <= |file| {
      WholeSeen(check, Cat(rs, |rs|), End(rs, k), bodies[k], file);
    } else {
      TornSeen(check, Cat(rs, |rs|), End(rs, k), bodies[k], file);
    }
  }

  /** A cut file is seen as the records it holds. */
  lemma CutFileSeen(check: bytes -> nat, bodies: seq<bytes>, rs: seq<bytes>, file: bytes)
    requires CutFile(check, bodies, rs, file)
    ensures SeesFile(Reader(check, file, NoFault), bodies, rs, |file|)
  {
    EndIsLength(rs, |rs|);
    forall k: nat ensures SeesRecord(Reader(check, file, NoFault), bodies, rs, |file|, k) {
      if k < |bodies| && End(rs, k) <= |file| { CutRecordSeen(check, bodies, rs, file, k); }
    }
  }

  // ------------------------------------------------------- reads that fail

  /** Reading the header or the body that starts at off fails. */
  predicate FaultAt(fails: nat -> bool, off: nat) {
    fails(off) || fails(off + 8)
  }

  /** A record is seen as it is, or as the end of the file when reading it fails. */
  lemma SeenDespite(check: bytes -> nat, file: bytes, fails: nat -> bool, off: nat, body: bytes)
    requires Reader(check, file, NoFault)(off) == WholeRecord(body)
    ensures Reader(check, file, fails)(off) == if FaultAt(fails, off) then Stop(false) else WholeRecord(body)
  {
  }

  /** Record n is the first one whose reading fails, or n is their number. */
  ghost predicate FirstFault(fails: nat -> bool, rs: seq<bytes>, n: nat) {
    n <= |rs| && (forall k: nat :: k < n ==> !FaultAt(fails, End(rs, k))) && (n < |rs| ==> FaultAt(fails, End(rs, n)))
  }

  /** The look shows the records up to n, and nothing at n. */
  ghost predicate SeesUpTo(look: nat -> Seen, bodies: seq<bytes>, rs: seq<bytes>, n: nat, corrupt: bool) {
    |rs| == |bodies| && n <= |bodies| && look(End(rs, n)) == Stop(corrupt)
    && forall k: nat :: k < n ==> SeesWhole(look, bodies, rs, k)
  }

  ghost predicate SeesWhole(look: nat -> Seen, bodies: seq<bytes>, rs: seq<bytes>, k: nat)
    requires k < |bodies| == |rs|
  {
    End(rs, k + 1) == End(rs, k) + 8 + |bodies[k]| && look(End(rs, k)) == WholeRecord(bodies[k])
  }

  lemma {:induction false} ScanUpTo(look: nat -> Seen, bodies: seq<bytes>, rs: seq<bytes>, size: nat, n: nat,
                                    corrupt: bool, k: nat)
    requires SeesUpTo(look, bodies, rs, n, corrupt) && k <= n && End(rs, k) <= End(rs, n) <= size
    ensures Scan(look, size, End(rs, k)) == Scanned(bodies[k..n], End(rs, n), corrupt)
    decreases n - k
  {
    if k < n {
      assert SeesWhole(look, bodies, rs, k);
      EndGrows(rs, k + 1, n);
      ScanUpTo(look, bodies, rs, size, n, corrupt, k + 1);
      assert bodies[k..n] == [bodies[k]] + bodies[k + 1..n];
    }
  }

  lemma OneDespite(check: bytes -> nat, bodies: seq<bytes>, rs: seq<bytes>, file: bytes, fails: nat -> bool, k: nat)
    requires CutFile(check, bodies, rs, file) && file == Cat(rs, |rs|)
    requires k < |bodies| == |rs| && |bodies[k]| <= LONGEST
    ensures End(rs, k + 1) == End(rs, k) + 8 + |bodies[k]|
    ensures Reader(check, file, fails)(End(rs, k))
      == if FaultAt(fails, End(rs, k)) then Stop(false) else WholeRecord(bodies[k])
  {
    EndIsLength(rs, |rs|);
    EndGrows(rs, k, |rs|);
    EndGrows(rs, k + 1, |rs|);
    CutRecordSeen(check, bodies, rs, file, k);
    SeenDespite(check, file, fails, End(rs, k), bodies[k]);
  }

  /** A whole file without oversized records shows the records before the first one that cannot be read. */
  lemma SeenUpToFault(check: bytes -> nat, bodies: seq<bytes>, rs: seq<bytes>, file: bytes, fails: nat -> bool, n: nat)
    requires CutFile(check, bodies, rs, file) && file == Cat(rs, |rs|) && |rs| == |bodies|
    requires (forall i :: 0 <= i < |bodies| ==> |bodies[i]| <= LONGEST) && FirstFault(fails, rs, n)
    ensures SeesUpTo(Reader(check, file, fails), bodies, rs, n, false) && End(rs, n) <= |file|
  {
    EndIsLength(rs, |rs|);
    EndGrows(rs, n, |rs|);
    forall k: nat | k < n ensures SeesWhole(Reader(check, file, fails), bodies, rs, k) {
      OneDespite(check, bodies, rs, file, fails, k);
    }
    if n < |rs| { OneDespite(check, bodies, rs, file, fails, n); }
  }

  // ------------------------------------------------- what follows the records

  /** tail starts with a whole record whose checksum fits. */
  predicate StartsWhole(check: bytes -> nat, tail: bytes) {
    |tail| >= 8
    && var len := LittleAt(tail, 0, 4); 0 < len <= LONGEST && 8 + len <= |tail| && SumFits(check, tail, 0, len)
  }

  /** tail is more than a record cut short: its length is none, or its checksum wrong, and more follows. */
  predicate Damaged(check: bytes -> nat, tail: bytes) {
    |tail| > 8
    && var len := LittleAt(tail, 0, 4);
    len == 0 || len > LONGEST || (8 + len < |tail| && !SumFits(check, tail, 0, len))
  }

  lemma {:induction false} LittleShifted(a: bytes, b: bytes, p: nat, n: nat)
    requires p + n <= |b|
    ensures LittleAt(a + b, |a| + p, n) == LittleAt(b, p, n)
    decreases n
  {
    if n > 0 { LittleShifted(a, b, p + 1, n - 1); }
  }

  lemma BodyShifted(a: bytes, b: bytes, len: nat)
    requires 8 + len <= |b|
    ensures BodyAt(a + b, |a|, len) == BodyAt(b, 0, len)
  {
    assert (a + b)[|a| + 8..|a| + 8 + len] == b[8..8 + len];
  }

  /** What is seen behind front is decided by what follows it. */
  lemma TailSeen(check: bytes -> nat, front: bytes, tail: bytes)
    requires !StartsWhole(check, tail)
    ensures RecordAt(check, front + tail, NoFault, |front|) == Stop(Damaged(check, tail))
  {
    if |tail| >= 8 {
      LittleShifted(front, tail, 0, 4);
      LittleShifted(front, tail, 4, 4);
      var len := LittleAt(tail, 0, 4);
      if 8 + len <= |tail| { BodyShifted(front, tail, len); }
    }
  }

  lemma FrontSeen(check: bytes -> nat, bodies: seq<bytes>, rs: seq<bytes>, file: bytes, k: nat)
    requires Measurable(check, bodies) && rs == Records(check, bodies) && Cat(rs, |rs|) <= file
    requires k < |bodies| && |bodies[k]| <= LONGEST
    ensures End(rs, k + 1) == End(rs, k) + 8 + |bodies[k]|
    ensures Reader(check, file, NoFault)(End(rs, k)) == WholeRecord(bodies[k])
  {
    RadixIs();
    OneRecord(check, bodies, rs, k);
    EndIsLength(rs, |rs|);
    EndGrows(rs, k + 1, |rs|);
    var whole := Cat(rs, |rs|);
    assert file == whole + file[|whole|..];
    HoldsLonger(whole, file[|whole|..], End(rs, k), Framed(|bodies[k]|, check(bodies[k]), bodies[k]));
    WholeSeen(check, file, End(rs, k), bodies[k], file);
  }

  lemma AllSeen(check: bytes -> nat, bodies: seq<bytes>, rs: seq<bytes>, file: bytes)
    requires Measurable(check, bodies) && rs == Records(check, bodies) && Cat(rs, |rs|) <= file
    requires forall i :: 0 <= i < |bodies| ==> |bodies[i]| <= LONGEST
    ensures forall k: nat :: k < |bodies| ==> SeesWhole(Reader(check, file, NoFault), bodies, rs, k)
  {
    forall k: nat | k < |bodies| ensures SeesWhole(Reader(check, file, NoFault), bodies, rs, k) {
      FrontSeen(check, bodies, rs, file, k);
    }
  }

  /** Whole records with anything behind them are scanned up to there. */
  lemma TailScanned(check: bytes -> nat, bodies: seq<bytes>, rs: seq<bytes>, tail: bytes, file: bytes)
    requires Measurable(check, bodies) && rs == Records(check, bodies) && file == Cat(rs, |rs|) + tail
    requires !StartsWhole(check, tail) && forall i :: 0 <= i < |bodies| ==> |bodies[i]| <= LONGEST
    ensures End(rs, |rs|) <= |file|
    ensures Scan(Reader(check, file, NoFault), |file|, 0) == Scanned(bodies, End(rs, |rs|), Damaged(check, tail))
  {
    EndIsLength(rs, |rs|);
    TailSeen(check, Cat(rs, |rs|), tail);
    AllSeen(check, bodies, rs, file);
    ScanUpTo(Reader(check, file, NoFault), bodies, rs, |file|, |bodies|, Damaged(check, tail), 0);
    assert bodies[0..|bodies|] == bodies;
  }
}
