/** CRC-32 over byte strings, as a number that can be written down. */
module Checksum {
  import opened Wrappers
  import Codec
  import Bytes
  import Registers
  import Crc

  function Octets(s: bytes): (o: Crc.octets)
    ensures |o| == |s|
  {
    seq(|s|, i requires 0 <= i < |s| => s[i] as bv8)
  }

  /** The finished value of s, continuing from crc. */
  function Sum(crc: bv32, s: bytes): bv32 {
    Crc.Update(crc, Octets(s))
  }

  /** The register after s, started at zero and not inverted. */
  function RawSum(s: bytes): bv32 {
    Crc.Run(0, Octets(s))
  }

  function Number(crc: bv32): Codec.uint64 {
    crc as nat
  }

  lemma OctetsSplit(a: bytes, b: bytes)
    ensures Octets(a + b) == Octets(a) + Octets(b)
  {
  }

  /** Summing piece by piece is summing the whole. */
  lemma SumSplits(crc: bv32, a: bytes, b: bytes)
    ensures Sum(crc, a + b) == Sum(Sum(crc, a), b)
  {
    OctetsSplit(a, b);
    Crc.UpdateSplits(crc, Octets(a), Octets(b));
  }

  lemma NextOctet(b: bv8)
    requires b as int < 255
    ensures (b + 1) as int == b as int + 1
  {
  }

  /** Every number below 256 is an octet's. */
  lemma {:induction false} OctetOf(k: nat) returns (b: bv8)
    requires k < 256
    ensures b as int == k
  {
    if k == 0 {
      b := 0;
    } else {
      b := OctetOf(k - 1);
      NextOctet(b);
      b := b + 1;
    }
  }

  lemma BackAndForth(b: bv8)
    ensures (b as int) as bv8 == b
  {
  }

  lemma OctetNumber(k: byte)
    ensures (k as bv8) as int == k as int
  {
    var b := OctetOf(k as int);
    BackAndForth(b);
  }

  lemma OctetsDiffer(a: bytes, b: bytes, p: nat)
    requires Registers.DifferAt(a, b, p)
    ensures Registers.DifferAt(Octets(a), Octets(b), p)
  {
    OctetNumber(a[p]);
    OctetNumber(b[p]);
  }

  /** One changed byte changes the sum. */
  lemma SumShows(crc: bv32, a: bytes, b: bytes, p: nat)
    requires Registers.DifferAt(a, b, p)
    ensures Sum(crc, a) != Sum(crc, b)
  {
    OctetsDiffer(a, b, p);
    Crc.UpdateShows(crc, Octets(a), Octets(b), p);
  }

  lemma NumberFits(c: bv32)
    ensures Number(c) < Bytes.Radix(4)
  {
    Bytes.RadixIs();
  }

  function Word(n: nat): bv32
    requires n < 0x1_0000_0000
  {
    n as bv32
  }

  lemma WordOfNumber(c: bv32)
    ensures Number(c) < 0x1_0000_0000 && Word(Number(c)) == c
  {
  }

  lemma NumberInjective(u: bv32, v: bv32)
    requires Number(u) == Number(v)
    ensures u == v
  {
    WordOfNumber(u);
    WordOfNumber(v);
  }
}
