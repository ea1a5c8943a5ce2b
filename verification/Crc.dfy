/**
 * CRC-32 with the reversed polynomial 0xEDB88320 (section 3.2.9 of IEEE Std 802.3): the
 * table-driven form is the bit-serial shift register, it can be continued over split data,
 * and no single changed octet goes unseen.
 */
module Crc {
  import opened Registers

  type octets = seq<bv8>

  /** The low bit of b taken in: the shift register of the standard. */
  function ShiftIn(c: bv32, b: bv32): bv32 {
    if (c ^ b) & 1 == 1 then 0xEDB8_8320 ^ (c >> 1) else c >> 1
  }

  /** What the table is built from. */
  function BitStep(c: bv32): bv32 {
    if c & 1 == 1 then 0xEDB8_8320 ^ (c >> 1) else c >> 1
  }

  function Xor(a: bv32, b: bv32): bv32 {
    a ^ b
  }

  function Half(a: bv32): bv32 {
    a >> 1
  }

  function Low(a: bv32): bv32 {
    a & 0xff
  }

  function Rest(a: bv32): bv32 {
    a >> 8
  }

  function Widen(b: bv8): bv32 {
    b as bv32
  }

  function Crc32(): Register<bv32, bv8> {
    Register(BitStep, ShiftIn, Xor, Half, 0, Low, Rest, Widen, 8)
  }

  // ------------------------------------------------------ facts about words

  lemma XorLow(u: bv32, v: bv32)
    ensures (u ^ v) & 1 == (u & 1) ^ (v & 1) == (u ^ (v & 1)) & 1
  {
  }

  lemma XorShift(u: bv32, v: bv32)
    ensures (u ^ v) >> 1 == (u >> 1) ^ (v >> 1)
  {
  }

  lemma LowIsBit(u: bv32)
    ensures u & 1 == 0 || u & 1 == 1
  {
  }

  lemma XorTwo(p: bv32, u: bv32, v: bv32)
    ensures (p ^ u) ^ (p ^ v) == u ^ v && (p ^ u) ^ v == p ^ (u ^ v) && u ^ (p ^ v) == p ^ (u ^ v)
  {
  }

  lemma StepXor(u: bv32, v: bv32)
    ensures BitStep(u ^ v) == BitStep(u) ^ BitStep(v)
  {
    XorLow(u, v);
    XorShift(u, v);
    LowIsBit(u);
    LowIsBit(v);
    XorTwo(0xEDB8_8320, u >> 1, v >> 1);
  }

  lemma StepInjective(u: bv32, v: bv32)
    requires BitStep(u) == BitStep(v)
    ensures u == v
  {
  }

  lemma XorAssoc(a: bv32, b: bv32, c: bv32)
    ensures a ^ (b ^ c) == (a ^ b) ^ c
  {
  }

  lemma MixedFacts(c: bv32, b: bv32)
    ensures (c ^ b) >> 1 == (c >> 1) ^ (b >> 1)
    ensures 0xEDB8_8320 ^ ((c ^ b) >> 1) == (0xEDB8_8320 ^ (c >> 1)) ^ (b >> 1)
  {
    XorShift(c, b);
    XorAssoc(0xEDB8_8320, c >> 1, b >> 1);
  }

  lemma MixedStep(c: bv32, b: bv32)
    ensures BitStep(c ^ b) == ShiftIn(c, b) ^ (b >> 1)
  {
    MixedFacts(c, b);
  }

  lemma IterEight<T>(f: T -> T, c: seq<T>)
    requires |c| == 9 && f(c[0]) == c[1] && f(c[1]) == c[2] && f(c[2]) == c[3] && f(c[3]) == c[4]
    requires f(c[4]) == c[5] && f(c[5]) == c[6] && f(c[6]) == c[7] && f(c[7]) == c[8]
    ensures Iter(f, c[0], 8) == c[8]
  {
    assert Iter(f, c[0], 8) == Iter(f, c[1], 7) == Iter(f, c[2], 6);
    assert Iter(f, c[2], 6) == Iter(f, c[3], 5) == Iter(f, c[4], 4);
    assert Iter(f, c[4], 4) == Iter(f, c[5], 3) == Iter(f, c[6], 2);
    assert Iter(f, c[6], 2) == Iter(f, c[7], 1) == Iter(f, c[8], 0);
  }

  /** The right shifts of h. */
  function Shifts(h: bv32): seq<bv32> {
    [h, h >> 1, h >> 2, h >> 3, h >> 4, h >> 5, h >> 6, h >> 7, h >> 8]
  }

  lemma ShiftsAdd(h: bv32)
    ensures Half(h) == h >> 1 && Half(h >> 1) == h >> 2 && Half(h >> 2) == h >> 3 && Half(h >> 3) == h >> 4
    ensures Half(h >> 4) == h >> 5 && Half(h >> 5) == h >> 6 && Half(h >> 6) == h >> 7 && Half(h >> 7) == h >> 8
  {
  }

  lemma EvenStep(a: bv32)
    requires a & 1 == 0
    ensures BitStep(a) == Half(a)
  {
  }

  lemma HighIsEven(h: bv32)
    requires h & 0xff == 0
    ensures h & 1 == 0 && (h >> 1) & 1 == 0 && (h >> 2) & 1 == 0 && (h >> 3) & 1 == 0
    ensures (h >> 4) & 1 == 0 && (h >> 5) & 1 == 0 && (h >> 6) & 1 == 0 && (h >> 7) & 1 == 0
  {
  }

  lemma HighSteps(h: bv32)
    requires h & 0xff == 0
    ensures BitStep(h) == Half(h) && BitStep(h >> 1) == Half(h >> 1) && BitStep(h >> 2) == Half(h >> 2)
    ensures BitStep(h >> 3) == Half(h >> 3)
    ensures BitStep(h >> 4) == Half(h >> 4) && BitStep(h >> 5) == Half(h >> 5)
    ensures BitStep(h >> 6) == Half(h >> 6) && BitStep(h >> 7) == Half(h >> 7)
  {
    HighIsEven(h);
    EvenStep(h);
    EvenStep(h >> 1);
    EvenStep(h >> 2);
    EvenStep(h >> 3);
    EvenStep(h >> 4);
    EvenStep(h >> 5);
    EvenStep(h >> 6);
    EvenStep(h >> 7);
  }

  lemma EightHalves(h: bv32)
    ensures Iter(Half, h, 8) == h >> 8
  {
    ShiftsAdd(h);
    IterEight(Half, Shifts(h));
  }

  /** A word without low bits is only shifted. */
  lemma HighShifts(h: bv32)
    requires h & 0xff == 0
    ensures Iter(BitStep, h, 8) == h >> 8
  {
    ShiftsAdd(h);
    HighSteps(h);
    IterEight(BitStep, Shifts(h));
  }

  // ---------------------------------------------------------- the laws hold

  /** What f does to a combination is the combination of what it does: so do k steps of it. */
  lemma {:induction false} IterCombines<T(!new)>(f: T -> T, op: (T, T) -> T, u: T, v: T, k: nat)
    requires forall a, b :: f(op(a, b)) == op(f(a), f(b))
    ensures Iter(f, op(u, v), k) == op(Iter(f, u, k), Iter(f, v, k))
    decreases k
  {
    if k > 0 { IterCombines(f, op, f(u), f(v), k - 1); }
  }

  lemma Halves(x: bv32)
    ensures x == Xor(Low(x), x & 0xFFFF_FF00) && (x & 0xFFFF_FF00) & 0xff == 0 && (x & 0xFFFF_FF00) >> 8 == Rest(x)
  {
  }

  lemma LinearSteps(x: bv32, low: bv32, high: bv32, rest: bv32, k: nat)
    requires x == Xor(low, high) && Iter(BitStep, high, k) == rest
    ensures Iter(BitStep, x, k) == Xor(Iter(BitStep, low, k), rest)
  {
    forall a, b ensures BitStep(Xor(a, b)) == Xor(BitStep(a), BitStep(b)) { StepXor(a, b); }
    IterCombines(BitStep, Xor, low, high, k);
  }

  lemma EightSteps(x: bv32)
    ensures Iter(BitStep, x, 8) == Xor(Iter(BitStep, Low(x), 8), Rest(x))
  {
    Halves(x);
    HighShifts(x & 0xFFFF_FF00);
    LinearSteps(x, Low(x), x & 0xFFFF_FF00, Rest(x), 8);
  }

  lemma RestShifts(c: bv32, b: bv8)
    ensures Rest(Xor(c, Widen(b))) == Rest(c)
  {
  }

  lemma CrcSplits()
    ensures Splits(Crc32())
  {
    forall x ensures Iter(BitStep, x, 8) == Xor(Iter(BitStep, Low(x), 8), Rest(x)) { EightSteps(x); }
    forall c, b ensures Rest(Xor(c, Widen(b))) == Rest(c) { RestShifts(c, b); }
  }

  lemma XorZero(c: bv32)
    ensures Xor(c, 0) == c
  {
  }

  lemma OctetGone(b: bv8)
    ensures Widen(b) >> 8 == 0
  {
  }

  lemma CrcMixes()
    ensures Mixes(Crc32())
  {
    forall c, b ensures BitStep(Xor(c, b)) == Xor(ShiftIn(c, b), Half(b)) { MixedStep(c, b); }
    forall c ensures Xor(c, 0) == c { XorZero(c); }
    forall b ensures Iter(Half, Widen(b), 8) == 0 { EightHalves(Widen(b)); OctetGone(b); }
  }

  lemma SameOctet(u: bv32, v: bv32, d: bv32)
    requires Xor(u, d) == Xor(v, d)
    ensures u == v
  {
  }

  lemma SameState(c: bv32, a: bv8, b: bv8)
    requires Xor(c, Widen(a)) == Xor(c, Widen(b))
    ensures a == b
  {
  }

  lemma CrcRecovers()
    ensures Recovers(Crc32())
  {
    forall a, b | BitStep(a) == BitStep(b) ensures a == b { StepInjective(a, b); }
    forall u, v, b | Xor(u, Widen(b)) == Xor(v, Widen(b)) ensures u == v { SameOctet(u, v, Widen(b)); }
    forall u, a, b | Xor(u, Widen(a)) == Xor(u, Widen(b)) ensures a == b { SameState(u, a, b); }
  }

  // ---------------------------------------------------------------- CRC-32

  function Not(c: bv32): bv32 {
    c ^ 0xFFFF_FFFF
  }

  lemma NotTwice()
    ensures forall c :: Not(Not(c)) == c
  {
  }

  /** The register after data. */
  function Run(c: bv32, data: octets): bv32 {
    TableRun(Crc32(), c, data, |data|)
  }

  /** A finished value, continued over more data. */
  function Update(crc: bv32, data: octets): bv32 {
    Continue(Crc32(), Not, crc, data)
  }

  /** The table-driven form computes the shift register of the standard. */
  lemma RunIsSerial(c: bv32, data: octets)
    ensures Run(c, data) == SerialRun(Crc32(), c, data, |data|)
  {
    CrcMixes();
    CrcSplits();
    TableIsSerial(Crc32(), c, data, |data|);
  }

  /** Streaming: the value over split data is the value over the whole. */
  lemma UpdateSplits(crc: bv32, a: octets, b: octets)
    ensures Update(crc, a + b) == Update(Update(crc, a), b)
  {
    NotTwice();
    ContinueSplits(Crc32(), Not, crc, a, b);
  }

  /** Data that differs in exactly one octet never has the same value. */
  lemma UpdateShows(crc: bv32, a: octets, b: octets, p: nat)
    requires DifferAt(a, b, p)
    ensures Update(crc, a) != Update(crc, b)
  {
    NotTwice();
    CrcSplits();
    CrcRecovers();
    ContinueShows(Crc32(), Not, crc, a, b, p);
  }

  // ----------------------------------------------------------------- residue

  /** The octets of a word, the lowest first. */
  function OctetsOf(c: bv32): octets {
    [(c & 0xff) as bv8, ((c >> 8) & 0xff) as bv8, ((c >> 16) & 0xff) as bv8, (c >> 24) as bv8]
  }

  lemma OctetWords(c: bv32)
    ensures Widen(OctetsOf(c)[0]) == c & 0xff && Widen(OctetsOf(c)[1]) == (c >> 8) & 0xff
    ensures Widen(OctetsOf(c)[2]) == (c >> 16) & 0xff && Widen(OctetsOf(c)[3]) == c >> 24
  {
  }

  lemma StepsFF()
    ensures Iter(BitStep, 0xff, 8) == 0x2d02_ef8d
  {
    IterEight(BitStep, [0xff, 0xedb8_835f, 0x9b64_c28f, 0xa00a_e267, 0xbdbd_f213, 0xb366_7a29, 0xb40b_be34, 0x5a05_df1a,
                        0x2d02_ef8d]);
  }

  lemma Steps72()
    ensures Iter(BitStep, 0x72, 8) == 0xbe0b_1010
  {
    IterEight(BitStep, [0x72, 0x39, 0xedb8_833c, 0x76dc_419e, 0x3b6e_20cf, 0xf00f_9347, 0x95bf_4a83, 0xa767_2661,
                        0xbe0b_1010]);
  }

  lemma Steps00()
    ensures Iter(BitStep, 0, 8) == 0
  {
    IterEight(BitStep, [0, 0, 0, 0, 0, 0, 0, 0, 0]);
  }

  lemma StepsED()
    ensures Iter(BitStep, 0xed, 8) == 0xdebb_9ec5
  {
    IterEight(BitStep, [0xed, 0xedb8_8356, 0x76dc_41ab, 0xd6d6_a3f5, 0x86d3_d2da, 0x4369_e96d, 0xcc0c_7796, 0x6606_3bcb,
                        0xdebb_9ec5]);
  }

  /** What the register says goes out as it is shifted out: only constants are looked up. */
  lemma LowConstants(r: bv32)
    ensures Low(Xor(r, Not(r) & 0xff)) == 0xff
    ensures Low(Xor(0x2d02_ef8d ^ (r >> 8), (Not(r) >> 8) & 0xff)) == 0x72
    ensures Low(Xor(0xbe26_12ff ^ (r >> 16), (Not(r) >> 16) & 0xff)) == 0
    ensures Low(Xor(0x00be_2612 ^ (r >> 24), Not(r) >> 24)) == 0xed
  {
  }

  lemma RestFirst(r: bv32)
    ensures Xor(0x2d02_ef8d, Rest(r)) == 0x2d02_ef8d ^ (r >> 8)
  {
  }

  lemma ShiftsTwice(c: bv32, r: bv32)
    ensures (c ^ (r >> 8)) >> 8 == (c >> 8) ^ (r >> 16) && (c ^ (r >> 16)) >> 8 == (c >> 8) ^ (r >> 24)
    ensures (c ^ (r >> 24)) >> 8 == c >> 8
  {
  }

  lemma RestSecond(r: bv32)
    ensures Xor(0xbe0b_1010, Rest(0x2d02_ef8d ^ (r >> 8))) == 0xbe26_12ff ^ (r >> 16)
  {
    ShiftsTwice(0x2d02_ef8d, r);
    XorAssoc(0xbe0b_1010, 0x002d_02ef, r >> 16);
  }

  lemma RestThird(r: bv32)
    ensures Xor(0, Rest(0xbe26_12ff ^ (r >> 16))) == 0x00be_2612 ^ (r >> 24)
  {
    ShiftsTwice(0xbe26_12ff, r);
  }

  lemma RestFourth(r: bv32)
    ensures Xor(0xdebb_9ec5, Rest(0x00be_2612 ^ (r >> 24))) == 0xdebb_20e3
  {
    ShiftsTwice(0x00be_2612, r);
  }

  lemma FourLookups(r: bv32, o: octets)
    requires o == OctetsOf(Not(r))
    ensures Run(r, o) == 0xdebb_20e3
  {
    OctetWords(Not(r));
    LowConstants(r);
    RestFirst(r);
    RestSecond(r);
    RestThird(r);
    RestFourth(r);
    StepsFF();
    Steps72();
    Steps00();
    StepsED();
    var c := Crc32();
    assert TableRun(c, r, o, 1) == 0x2d02_ef8d ^ (r >> 8);
    assert TableRun(c, r, o, 2) == 0xbe26_12ff ^ (r >> 16);
    assert TableRun(c, r, o, 3) == 0x00be_2612 ^ (r >> 24);
    assert TableRun(c, r, o, 4) == 0xdebb_20e3;
  }

  /** Whatever the data: data followed by its own checksum has the residue of CRC-32. */
  lemma Residue(data: octets)
    ensures Update(0, data + OctetsOf(Update(0, data))) == 0x2144_df1c
  {
    var crc := Update(0, data);
    UpdateSplits(0, data, OctetsOf(crc));
    NotTwice();
    FourLookups(Not(crc), OctetsOf(crc));
  }

  // ------------------------------------------------------------ the methods

  function Entry(b: bv8): bv32 {
    Iter(BitStep, Widen(b), 8)
  }

  ghost predicate IsTable(t: array<bv32>, n: nat)
    reads t
  {
    t.Length == 256 && n <= 256 && forall b: bv8 :: b as int < n ==> t[b as int] == Entry(b)
  }

  method TableEntry(b: bv8) returns (c: bv32)
    ensures c == Entry(b)
  {
    c := b as bv32;
    var k := 0;
    while k < 8
      invariant k <= 8 && Iter(BitStep, c, 8 - k) == Entry(b)
    {
      c := BitStep(c);
      k := k + 1;
    }
  }

  lemma NumberedOnce(i: nat)
    requires i < 256
    ensures forall b: bv8 {:trigger Entry(b)} :: b as int == i ==> b == i as bv8
  {
  }

  method MakeTable() returns (t: array<bv32>)
    ensures IsTable(t, 256) && fresh(t)
  {
    t := new bv32[256];
    for i := 0 to 256
      invariant IsTable(t, i)
    {
      t[i] := TableEntry(i as bv8);
      NumberedOnce(i);
    }
  }

  lemma LowFits(c: bv32)
    ensures c & 0xff < 0x100 && Widen((c & 0xff) as bv8) == Low(c)
  {
  }

  lemma LookupIs(c: bv32, b: bv8, x: bv32, low: bv8, word: bv32)
    requires x == c ^ (b as bv32) && Widen(low) == Low(x) && word == Entry(low)
    ensures Xor(word, Rest(c)) == Lookup(Crc32(), c, b)
  {
  }

  method WordOf(table: array<bv32>, low: bv8) returns (word: bv32)
    requires IsTable(table, 256)
    ensures word == Entry(low)
  {
    word := table[low as int];
  }

  method LowOctet(x: bv32) returns (low: bv8)
    ensures Widen(low) == Low(x)
  {
    LowFits(x);
    low := (x & 0xff) as bv8;
  }

  method NextWord(table: array<bv32>, crc: bv32, b: bv8) returns (next: bv32)
    requires IsTable(table, 256)
    ensures next == Lookup(Crc32(), crc, b)
  {
    var x := Xor(crc, Widen(b));
    var low := LowOctet(x);
    var word := WordOf(table, low);
    next := Xor(word, Rest(crc));
    LookupIs(crc, b, x, low, word);
  }

  method Crc32Raw(crc: bv32, data: octets) returns (r: bv32)
    ensures r == Run(crc, data)
  {
    var table := MakeTable();
    r := crc;
    for i := 0 to |data|
      invariant IsTable(table, 256)
      invariant r == TableRun(Crc32(), crc, data, i)
    {
      r := NextWord(table, r, data[i]);
    }
  }

  method Crc32Update(crc: bv32, data: octets) returns (r: bv32)
    ensures r == Update(crc, data)
  {
    var c := Crc32Raw(crc ^ 0xFFFF_FFFF, data);
    r := c ^ 0xFFFF_FFFF;
  }
}
