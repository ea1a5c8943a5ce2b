/** Numbers of a fixed number of bytes, least or most significant byte first. */
module Bytes {
  import opened Wrappers
  import opened Codec
  import opened Pieces

  const TWO_8: nat := 0x100

  function Radix(n: nat): (r: nat)
    ensures r > 0
  {
    if n == 0 then 1 else TWO_8 * Radix(n - 1)
  }

  lemma RadixIs()
    ensures Radix(4) == 0x1_0000_0000 && Radix(8) == 0x1_0000_0000_0000_0000
  {
    assert Radix(4) == TWO_8 * TWO_8 * TWO_8 * TWO_8;
  }

  /** v cut to 32 bits. */
  function Cut32(v: nat): (u: nat)
    ensures u < TWO_32
  {
    if v < TWO_32 then v else v % TWO_32
  }

  /** v in n bytes, the least significant first; what does not fit is cut off. */
  function Little(v: nat, n: nat): (s: bytes)
    ensures |s| == n
    decreases n
  {
    if n == 0 then [] else [(v % TWO_8) as byte] + Little(v / TWO_8, n - 1)
  }

  function LittleAt(s: bytes, pos: nat, n: nat): (v: nat)
    requires pos + n <= |s|
    decreases n
  {
    if n == 0 then 0 else s[pos] as nat + TWO_8 * LittleAt(s, pos + 1, n - 1)
  }

  /** v in n bytes, the most significant first. */
  function Big(v: nat, n: nat): (s: bytes)
    ensures |s| == n
    decreases n
  {
    if n == 0 then [] else Big(v / TWO_8, n - 1) + [(v % TWO_8) as byte]
  }

  function BigAt(s: bytes, pos: nat, n: nat): nat
    requires pos + n <= |s|
    decreases n
  {
    if n == 0 then 0 else TWO_8 * BigAt(s, pos, n - 1) + s[pos + n - 1] as nat
  }

  lemma {:induction false} LittleBack(s: bytes, pos: nat, v: nat, n: nat)
    requires v < Radix(n) && Holds(s, pos, Little(v, n))
    ensures LittleAt(s, pos, n) == v
    decreases n
  {
    if n > 0 {
      HoldsParts(s, pos, [(v % TWO_8) as byte], Little(v / TWO_8, n - 1));
      assert s[pos..pos + 1][0] == (v % TWO_8) as byte;
      LittleBack(s, pos + 1, v / TWO_8, n - 1);
    }
  }

  lemma {:induction false} BigBack(s: bytes, pos: nat, v: nat, n: nat)
    requires v < Radix(n) && Holds(s, pos, Big(v, n))
    ensures BigAt(s, pos, n) == v
    decreases n
  {
    if n > 0 {
      HoldsParts(s, pos, Big(v / TWO_8, n - 1), [(v % TWO_8) as byte]);
      assert s[pos + (n - 1)..pos + n][0] == (v % TWO_8) as byte;
      BigBack(s, pos, v / TWO_8, n - 1);
    }
  }

  lemma DivThen(v: nat, p: nat)
    requires p > 0
    ensures v / TWO_8 / p == v / (TWO_8 * p)
  {
    var q, r := v / (TWO_8 * p), v % (TWO_8 * p);
    assert v == TWO_8 * (p * q) + r;
    assert v / TWO_8 == p * q + r / TWO_8;
    assert r / TWO_8 < p;
    DivIs(p, q, r / TWO_8);
  }

  /** Byte i of a number is its digit i in base 256, counted from the front or from the back. */
  lemma {:induction false} LittleDigit(v: nat, n: nat, i: nat)
    requires i < n
    ensures Little(v, n)[i] as nat == v / Radix(i) % TWO_8
    decreases n
  {
    if i > 0 {
      LittleDigit(v / TWO_8, n - 1, i - 1);
      DivThen(v, Radix(i - 1));
    } else {
      assert v / 1 == v;
    }
  }

  lemma {:induction false} BigDigit(v: nat, n: nat, i: nat)
    requires i < n
    ensures Big(v, n)[n - 1 - i] as nat == v / Radix(i) % TWO_8
    decreases n
  {
    if i > 0 {
      BigDigit(v / TWO_8, n - 1, i - 1);
      DivThen(v, Radix(i - 1));
    } else {
      assert v / 1 == v;
    }
  }

  lemma {:induction false} LittleBelow(s: bytes, pos: nat, n: nat)
    requires pos + n <= |s|
    ensures LittleAt(s, pos, n) < Radix(n)
    decreases n
  {
    if n > 0 { LittleBelow(s, pos + 1, n - 1); }
  }

  /** Different bytes are different numbers. */
  lemma {:induction false} LittleInjective(s: bytes, t: bytes, pos: nat, n: nat, p: nat)
    requires |s| == |t| && pos + n <= |s| && pos <= p < pos + n && s[p] != t[p]
    ensures LittleAt(s, pos, n) != LittleAt(t, pos, n)
    decreases n
  {
    if p > pos { LittleInjective(s, t, pos + 1, n - 1, p); }
  }

  lemma {:induction false} LittleSame(s: bytes, t: bytes, pos: nat, n: nat)
    requires pos + n <= |s| && pos + n <= |t| && forall i :: pos <= i < pos + n ==> s[i] == t[i]
    ensures LittleAt(s, pos, n) == LittleAt(t, pos, n)
    decreases n
  {
    if n > 0 { LittleSame(s, t, pos + 1, n - 1); }
  }

  lemma {:induction false} BigSame(s: bytes, p: nat, t: bytes, q: nat, n: nat)
    requires p + n <= |s| && q + n <= |t| && forall i :: p <= i < p + n ==> s[i] == t[i - p + q]
    ensures BigAt(s, p, n) == BigAt(t, q, n)
    decreases n
  {
    if n > 0 { BigSame(s, p, t, q, n - 1); }
  }

  // ------------------------------------------------------------ the loops

  /** Pushes the n low bytes of v, the lowest first. */
  method PutLittle(s: bytes, v: nat, n: nat) returns (r: bytes)
    ensures r == s + Little(v, n)
  {
    r := s;
    var rest: nat, i := v, 0;
    while i < n
      invariant 0 <= i <= n && rest >= 0 && s + Little(v, n) == r + Little(rest, n - i)
    {
      r := r + [(rest % TWO_8) as byte];
      rest, i := rest / TWO_8, i + 1;
    }
  }

  method GetLittle(s: bytes, pos: nat, n: nat) returns (v: nat)
    requires pos + n <= |s|
    ensures v == LittleAt(s, pos, n)
  {
    v := 0;
    var i := n;
    while i > 0
      invariant 0 <= i <= n && v == LittleAt(s, pos + i, n - i)
    {
      i := i - 1;
      v := v * TWO_8 + s[pos + i] as nat;
    }
  }
}
