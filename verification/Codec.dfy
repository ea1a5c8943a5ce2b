/**
 * The binary codec: varints of seven bits a byte, zigzag for signed numbers, and length
 * prefixes. An Encoder appends; a Decoder moves through a buffer and remembers a failure.
 */
module Codec {
  import opened Wrappers
  import opened Pieces

  const TWO_7: nat := 0x80
  const TWO_31: int := 0x8000_0000
  const TWO_32: nat := 0x1_0000_0000
  const TWO_63: int := 0x8000_0000_0000_0000
  const TWO_64: nat := 0x1_0000_0000_0000_0000

  type uint64 = v: nat | v < TWO_64
  type int64 = v: int | -TWO_63 <= v < TWO_63
  type int32 = v: int | -TWO_31 <= v < TWO_31

  // ------------------------------------------------------------ the formats

  function VarintOf(v: nat): bytes {
    if v < TWO_7 then [v as byte] else [(v % TWO_7 + TWO_7) as byte] + VarintOf(v / TWO_7)
  }

  function ZigzagOf(v: int64): uint64 {
    if v >= 0 then 2 * v else -2 * v - 1
  }

  function UnZigzag(x: uint64): int64 {
    if x % 2 == 0 then x / 2 else -(x / 2) - 1
  }

  /** A 64-bit value cut to 32 bits. */
  function Narrow(x: int64): int32 {
    (x + TWO_31) % TWO_32 - TWO_31
  }

  function BytesOf(s: bytes): bytes {
    VarintOf(|s|) + s
  }

  function BoolOf(b: bool): bytes {
    VarintOf(if b then 1 else 0)
  }

  function SignedOf(v: int64): bytes {
    VarintOf(ZigzagOf(v))
  }

  // ---------------------------------------------------- reading, as functions

  /** What reading gives: a value and the place behind it, or a failure. */
  datatype Parse<+T> = Bad | Got(value: T, next: nat)

  /** The number whose seven-bit digits, least first, stand from pos on; at most ten of them. */
  function Digits(buf: bytes, pos: nat, shift: nat): (r: Parse<nat>)
    ensures r.Got? ==> pos < r.next <= |buf|
    decreases |buf| - pos
  {
    if pos >= |buf| || shift >= 64 then Bad
    else
      var b := buf[pos] as nat;
      if b < TWO_7 then Got(b, pos + 1)
      else
        var rest := Digits(buf, pos + 1, shift + 7);
        if rest.Bad? then Bad else Got(b - TWO_7 + TWO_7 * rest.value, rest.next)
  }

  /** Bits past the 64th are lost. */
  function ReadVarint(buf: bytes, pos: nat): (r: Parse<uint64>)
    ensures r.Got? ==> pos < r.next <= |buf|
  {
    var r := Digits(buf, pos, 0);
    if r.Bad? then Bad else Got(r.value % TWO_64, r.next)
  }

  function ReadZigzag(buf: bytes, pos: nat): Parse<int64> {
    var r := ReadVarint(buf, pos);
    if r.Bad? then Bad else Got(UnZigzag(r.value), r.next)
  }

  function ReadInt(buf: bytes, pos: nat): Parse<int32> {
    var r := ReadZigzag(buf, pos);
    if r.Bad? then Bad else Got(Narrow(r.value), r.next)
  }

  function ReadBool(buf: bytes, pos: nat): Parse<bool> {
    var r := ReadVarint(buf, pos);
    if r.Bad? then Bad else Got(r.value != 0, r.next)
  }

  function ReadBytes(buf: bytes, pos: nat): Parse<bytes> {
    var r := ReadVarint(buf, pos);
    if r.Bad? || r.value > |buf| - r.next then Bad else Got(buf[r.next..r.next + r.value], r.next + r.value)
  }

  // ------------------------------------------------------------- arithmetic

  function Pow2(n: nat): (r: nat)
    ensures r > 0
  {
    if n == 0 then 1 else 2 * Pow2(n - 1)
  }

  lemma Pow2Step(n: nat)
    ensures Pow2(n + 7) == TWO_7 * Pow2(n)
  {
    assert Pow2(n + 7) == 2 * Pow2(n + 6) && Pow2(n + 6) == 2 * Pow2(n + 5) && Pow2(n + 5) == 2 * Pow2(n + 4);
    assert Pow2(n + 4) == 2 * Pow2(n + 3) && Pow2(n + 3) == 2 * Pow2(n + 2) && Pow2(n + 2) == 2 * Pow2(n + 1);
  }

  function Limit(k: nat): (r: nat)
    ensures r > 0
  {
    if k == 0 then 1 else TWO_7 * Limit(k - 1)
  }

  /** k seven-bit digits are enough below 128 to the k. */
  lemma {:induction false} DigitsEnough(v: nat, k: nat)
    requires k > 0 && v < Limit(k)
    ensures |VarintOf(v)| <= k
  {
    if v >= TWO_7 { DigitsEnough(v / TWO_7, k - 1); }
  }

  /** Byte i is digit i of the number in base 128, the least first, and all but the last are marked. */
  lemma {:induction false} VarintDigit(v: nat, i: nat)
    requires i < |VarintOf(v)|
    ensures VarintOf(v)[i] as nat == v / Limit(i) % TWO_7 + if i < |VarintOf(v)| - 1 then TWO_7 else 0
    decreases i
  {
    if i > 0 {
      VarintDigit(v / TWO_7, i - 1);
      DivTwice(v, Limit(i - 1));
    } else {
      assert v / 1 == v;
    }
  }

  lemma DivTwice(v: nat, p: nat)
    requires p > 0
    ensures v / TWO_7 / p == v / (TWO_7 * p)
  {
    var q, r := v / (TWO_7 * p), v % (TWO_7 * p);
    assert v == TWO_7 * (p * q) + r;
    assert v / TWO_7 == p * q + r / TWO_7;
    assert r / TWO_7 < p;
    DivIs(p, q, r / TWO_7);
  }

  lemma DivIs(p: nat, q: nat, r: nat)
    requires r < p
    ensures (p * q + r) / p == q
  {
    var d := (p * q + r) / p;
    assert p * d <= p * q + r < p * (d + 1);
    if d < q { TimesOrder(p, d + 1, q); }
    if d > q { TimesOrder(p, q + 1, d); }
  }

  lemma TimesOrder(p: nat, a: nat, b: nat)
    requires a <= b
    ensures p * a <= p * b
  {
    assert p * b == p * a + p * (b - a);
  }

  /** No byte is wasted. */
  lemma {:induction false} VarintIsShortest(v: nat)
    ensures v < Limit(|VarintOf(v)|) && (|VarintOf(v)| > 1 ==> v >= Limit(|VarintOf(v)| - 1))
  {
    if v >= TWO_7 { VarintIsShortest(v / TWO_7); }
  }

  /** Signed numbers are numbered by their size, each negative one right before its opposite. */
  lemma ZigzagOrder(a: int64, b: int64)
    ensures ZigzagOf(0) == 0
    ensures a > 0 ==> ZigzagOf(a) == ZigzagOf(-a) + 1
    ensures 0 <= a < b ==> ZigzagOf(a) < ZigzagOf(-b) < ZigzagOf(b)
    ensures b == a + 1 > 0 ==> ZigzagOf(-b) == ZigzagOf(a) + 1
  {
  }

  /** Narrowing keeps the low 32 bits. */
  lemma NarrowIs(x: int64)
    ensures (x - Narrow(x)) % TWO_32 == 0 && (-TWO_31 <= x < TWO_31 ==> Narrow(x) == x)
  {
  }

  lemma TenDigits(v: uint64)
    ensures |VarintOf(v)| <= 10
  {
    assert Limit(3) == 0x20_0000;
    assert Limit(6) == 0x400_0000_0000;
    assert Limit(9) == 0x8000_0000_0000_0000;
    assert Limit(10) == 0x40_0000_0000_0000_0000;
    DigitsEnough(v, 10);
  }

  // ----------------------------------------------------------- round trips

  /** Reading what was written gives it back and stops right behind it. */
  lemma {:induction false} DigitsBack(buf: bytes, pos: nat, v: nat, shift: nat)
    requires shift + 7 * |VarintOf(v)| < 71 && Holds(buf, pos, VarintOf(v))
    ensures Digits(buf, pos, shift) == Got(v, pos + |VarintOf(v)|)
    decreases v
  {
    assert buf[pos..pos + |VarintOf(v)|][0] == VarintOf(v)[0];
    if v >= TWO_7 {
      HoldsParts(buf, pos, [VarintOf(v)[0]], VarintOf(v / TWO_7));
      DigitsBack(buf, pos + 1, v / TWO_7, shift + 7);
    }
  }

  lemma VarintRoundTrip(buf: bytes, pos: nat, v: uint64)
    requires Holds(buf, pos, VarintOf(v))
    ensures ReadVarint(buf, pos) == Got(v, pos + |VarintOf(v)|)
  {
    TenDigits(v);
    DigitsBack(buf, pos, v, 0);
  }

  lemma ZigzagRoundTrip(buf: bytes, pos: nat, v: int64)
    requires Holds(buf, pos, SignedOf(v))
    ensures ReadZigzag(buf, pos) == Got(v, pos + |SignedOf(v)|)
  {
    VarintRoundTrip(buf, pos, ZigzagOf(v));
  }

  lemma IntRoundTrip(buf: bytes, pos: nat, v: int32)
    requires Holds(buf, pos, SignedOf(v))
    ensures ReadInt(buf, pos) == Got(v, pos + |SignedOf(v)|)
  {
    ZigzagRoundTrip(buf, pos, v);
  }

  lemma BoolRoundTrip(buf: bytes, pos: nat, b: bool)
    requires Holds(buf, pos, BoolOf(b))
    ensures ReadBool(buf, pos) == Got(b, pos + |BoolOf(b)|)
  {
    VarintRoundTrip(buf, pos, if b then 1 else 0);
  }

  lemma BytesRoundTrip(buf: bytes, pos: nat, s: bytes)
    requires |s| < TWO_64 && Holds(buf, pos, BytesOf(s))
    ensures ReadBytes(buf, pos) == Got(s, pos + |BytesOf(s)|)
  {
    HoldsParts(buf, pos, VarintOf(|s|), s);
    VarintRoundTrip(buf, pos, |s|);
  }

  /** Reading fails exactly if none of the ten bytes that may be there ends the number. */
  lemma {:induction false} DigitsFail(buf: bytes, pos: nat, shift: nat)
    ensures Digits(buf, pos, shift).Bad?
      <==> forall i :: pos <= i < |buf| && shift + 7 * (i - pos) < 64 ==> buf[i] as nat >= TWO_7
    decreases |buf| - pos
  {
    if pos < |buf| && shift < 64 && buf[pos] as nat >= TWO_7 {
      DigitsFail(buf, pos + 1, shift + 7);
    }
  }

  lemma VarintFails(buf: bytes, pos: nat)
    ensures ReadVarint(buf, pos).Bad? <==> forall i :: pos <= i < |buf| && i < pos + 10 ==> buf[i] as nat >= TWO_7
  {
    DigitsFail(buf, pos, 0);
  }

  /** A byte string is read exactly if all the bytes announced are there, and they are it. */
  lemma BytesAreThere(buf: bytes, pos: nat)
    ensures var n, r := ReadVarint(buf, pos), ReadBytes(buf, pos);
      (r.Got? <==> n.Got? && n.next + n.value <= |buf|)
      && (r.Got? ==> |r.value| == n.value && Holds(buf, n.next, r.value) && r.next == n.next + n.value)
  {
  }

  /** An encoding is never a proper prefix of another: what follows cannot change what is read. */
  lemma SelfDelimiting(a: uint64, b: uint64, rest: bytes)
    requires VarintOf(a) + rest == VarintOf(b)
    ensures a == b && rest == []
  {
    var buf := VarintOf(b);
    HoldsParts(buf, 0, VarintOf(a), rest);
    VarintRoundTrip(buf, 0, a);
    VarintRoundTrip(buf, 0, b);
  }

  // ------------------------------------------------- what follows is not read

  /** What could be read is read the same when more bytes follow. */
  lemma {:induction false} DigitsLonger(s: bytes, more: bytes, pos: nat, shift: nat)
    requires Digits(s, pos, shift).Got?
    ensures Digits(s + more, pos, shift) == Digits(s, pos, shift)
    decreases |s| - pos
  {
    if s[pos] as nat >= TWO_7 { DigitsLonger(s, more, pos + 1, shift + 7); }
  }

  lemma VarintLonger(s: bytes, more: bytes, pos: nat)
    requires ReadVarint(s, pos).Got?
    ensures ReadVarint(s + more, pos) == ReadVarint(s, pos)
  {
    DigitsLonger(s, more, pos, 0);
  }

  lemma ZigzagLonger(s: bytes, more: bytes, pos: nat)
    requires ReadZigzag(s, pos).Got?
    ensures ReadZigzag(s + more, pos) == ReadZigzag(s, pos)
  {
    VarintLonger(s, more, pos);
  }

  lemma IntLonger(s: bytes, more: bytes, pos: nat)
    requires ReadInt(s, pos).Got?
    ensures ReadInt(s + more, pos) == ReadInt(s, pos)
  {
    VarintLonger(s, more, pos);
  }

  lemma BoolLonger(s: bytes, more: bytes, pos: nat)
    requires ReadBool(s, pos).Got?
    ensures ReadBool(s + more, pos) == ReadBool(s, pos)
  {
    VarintLonger(s, more, pos);
  }

  lemma BytesLonger(s: bytes, more: bytes, pos: nat)
    requires ReadBytes(s, pos).Got?
    ensures ReadBytes(s + more, pos) == ReadBytes(s, pos)
  {
    VarintLonger(s, more, pos);
    var n := ReadVarint(s, pos);
    assert (s + more)[n.next..n.next + n.value] == s[n.next..n.next + n.value];
  }

  // -------------------------------------------------------- lists of fields

  /** One encoded field: unsigned, signed, or a byte string. */
  datatype Field = U(v: uint64) | S(i: int64) | B(s: bytes)

  function FieldBytes(f: Field): bytes {
    match f
    case U(v) => VarintOf(v)
    case S(i) => SignedOf(i)
    case B(s) => BytesOf(s)
  }

  /** The encoded fields, each for itself. */
  function Parts(fs: seq<Field>): (ps: seq<bytes>)
    ensures |ps| == |fs|
  {
    seq(|fs|, i requires 0 <= i < |fs| => FieldBytes(fs[i]))
  }

  /** All fields, one behind the other. */
  function Encoded(fs: seq<Field>): bytes {
    Cat(Parts(fs), |fs|)
  }

  /** Where field i starts. */
  function Start(fs: seq<Field>, i: nat): nat
    requires i <= |fs|
  {
    End(Parts(fs), i)
  }

  lemma StartIsLength(fs: seq<Field>)
    ensures |Encoded(fs)| == Start(fs, |fs|)
  {
    EndIsLength(Parts(fs), |fs|);
  }

  lemma EncodedMore(fs: seq<Field>, f: Field)
    ensures Encoded(fs + [f]) == Encoded(fs) + FieldBytes(f)
  {
    assert Parts(fs + [f]) == Parts(fs) + [FieldBytes(f)];
    Appended(Parts(fs), FieldBytes(f));
  }

  /** Field i stands at its start. */
  lemma FieldStands(fs: seq<Field>, i: nat)
    requires i < |fs|
    ensures Holds(Encoded(fs), Start(fs, i), FieldBytes(fs[i]))
    ensures Start(fs, i + 1) == Start(fs, i) + |FieldBytes(fs[i])|
  {
    PieceStands(Parts(fs), i, |fs|);
  }

  lemma VarintAt(fs: seq<Field>, i: nat)
    requires i < |fs| && fs[i].U?
    ensures ReadVarint(Encoded(fs), Start(fs, i)) == Got(fs[i].v, Start(fs, i + 1))
  {
    FieldStands(fs, i);
    VarintRoundTrip(Encoded(fs), Start(fs, i), fs[i].v);
  }

  lemma SignedAt(fs: seq<Field>, i: nat)
    requires i < |fs| && fs[i].S?
    ensures ReadZigzag(Encoded(fs), Start(fs, i)) == Got(fs[i].i, Start(fs, i + 1))
  {
    FieldStands(fs, i);
    ZigzagRoundTrip(Encoded(fs), Start(fs, i), fs[i].i);
  }

  lemma IntAt(fs: seq<Field>, i: nat)
    requires i < |fs| && fs[i].S? && -TWO_31 <= fs[i].i < TWO_31
    ensures ReadInt(Encoded(fs), Start(fs, i)) == Got(fs[i].i, Start(fs, i + 1))
  {
    FieldStands(fs, i);
    IntRoundTrip(Encoded(fs), Start(fs, i), fs[i].i);
  }

  /** The field of a flag. */
  function FlagField(b: bool): Field {
    U(if b then 1 else 0)
  }

  lemma BoolAt(fs: seq<Field>, i: nat, b: bool)
    requires i < |fs| && fs[i] == FlagField(b)
    ensures ReadBool(Encoded(fs), Start(fs, i)) == Got(b, Start(fs, i + 1))
  {
    FieldStands(fs, i);
    BoolRoundTrip(Encoded(fs), Start(fs, i), b);
  }

  lemma BytesAt(fs: seq<Field>, i: nat)
    requires i < |fs| && fs[i].B? && |fs[i].s| < TWO_64
    ensures ReadBytes(Encoded(fs), Start(fs, i)) == Got(fs[i].s, Start(fs, i + 1))
  {
    FieldStands(fs, i);
    BytesRoundTrip(Encoded(fs), Start(fs, i), fs[i].s);
  }

  // ----------------------------------------------------------- the encoder

  class Encoder {
    var buf: bytes
    ghost var fields: seq<Field>

    /** The buffer is the fields written, in order. */
    ghost predicate Valid()
      reads this
    {
      buf == Encoded(fields)
    }

    constructor ()
      ensures Valid() && fields == []
    {
      buf := [];
      fields := [];
    }

    method Append(v: uint64)
      modifies this`buf
      ensures buf == old(buf) + VarintOf(v)
    {
      var rest: nat := v;
      while rest >= TWO_7
        invariant old(buf) + VarintOf(v) == buf + VarintOf(rest)
      {
        buf := buf + [(rest % TWO_7 + TWO_7) as byte];
        rest := rest / TWO_7;
      }
      buf := buf + [rest as byte];
    }

    /** Notes down the field whose bytes were just appended. */
    ghost method Note(f: Field)
      requires buf == Encoded(fields) + FieldBytes(f)
      modifies this`fields
      ensures Valid() && fields == old(fields) + [f]
    {
      EncodedMore(fields, f);
      fields := fields + [f];
    }

    method Varint(v: uint64)
      requires Valid()
      modifies this
      ensures Valid() && fields == old(fields) + [U(v)]
    {
      Append(v);
      Note(U(v));
    }

    method Zigzag(v: int64)
      requires Valid()
      modifies this
      ensures Valid() && fields == old(fields) + [S(v)]
    {
      Append(ZigzagOf(v));
      Note(S(v));
    }

    method Int(v: int32)
      requires Valid()
      modifies this
      ensures Valid() && fields == old(fields) + [S(v)]
    {
      Zigzag(v);
    }

    method Bool(b: bool)
      requires Valid()
      modifies this
      ensures Valid() && fields == old(fields) + [FlagField(b)]
    {
      Varint(if b then 1 else 0);
    }

    method Bytes(s: bytes)
      requires Valid() && |s| < TWO_64
      modifies this
      ensures Valid() && fields == old(fields) + [B(s)]
    {
      Append(|s|);
      buf := buf + s;
      assert buf == Encoded(fields) + (VarintOf(|s|) + s);
      Note(B(s));
    }
  }

  // ----------------------------------------------------------- the decoder

  /** result holds, mod 2^64, the digits from start to pos; the others come above shift bits. */
  ghost predicate SoFar(buf: bytes, start: nat, pos: nat, shift: nat, result: nat) {
    var whole, rest := Digits(buf, start, 0), Digits(buf, pos, shift);
    whole.Bad? == rest.Bad?
    && (rest.Got? ==> whole.next == rest.next)
    && (rest.Got? ==> whole.value % TWO_64 == (result + rest.value * Pow2(shift)) % TWO_64)
  }

  lemma ModSum(a: nat, b: nat)
    ensures (a % TWO_64 + b) % TWO_64 == (a + b) % TWO_64
  {
  }

  /** Taking digit d at p out of the digits d and, above it, w. */
  lemma DigitOut(result: nat, d: nat, w: nat, p: nat)
    ensures (result + (d + TWO_7 * w) * p) % TWO_64 == ((result + d * p) % TWO_64 + w * (TWO_7 * p)) % TWO_64
  {
    assert (d + TWO_7 * w) * p == d * p + w * (TWO_7 * p);
    ModSum(result + d * p, w * (TWO_7 * p));
  }

  lemma HighDigit(buf: bytes, pos: nat, shift: nat)
    requires pos < |buf| && shift < 64 && buf[pos] as nat >= TWO_7
    ensures var rest := Digits(buf, pos + 1, shift + 7);
      Digits(buf, pos, shift) == if rest.Bad? then Bad else Got(buf[pos] as nat % TWO_7 + TWO_7 * rest.value, rest.next)
  {
  }

  lemma CarryOn(whole: nat, result: nat, d: nat, w: nat, p: nat, q: nat, sum: nat)
    requires whole % TWO_64 == (result + (d + TWO_7 * w) * p) % TWO_64
    requires q == TWO_7 * p && sum == (result + d * p) % TWO_64
    ensures whole % TWO_64 == (sum + w * q) % TWO_64
  {
    DigitOut(result, d, w, p);
  }

  lemma OneMore(buf: bytes, start: nat, pos: nat, shift: nat, result: nat, sum: nat)
    requires SoFar(buf, start, pos, shift, result) && pos < |buf| && shift < 64
    requires sum == (result + buf[pos] as nat % TWO_7 * Pow2(shift)) % TWO_64
    ensures if (buf[pos] as nat) < TWO_7 then ReadVarint(buf, start) == Got(sum, pos + 1)
      else SoFar(buf, start, pos + 1, shift + 7, sum)
  {
    var d := buf[pos] as nat % TWO_7;
    if buf[pos] as nat >= TWO_7 {
      Pow2Step(shift);
      HighDigit(buf, pos, shift);
      var whole, rest := Digits(buf, start, 0), Digits(buf, pos + 1, shift + 7);
      if rest.Got? { CarryOn(whole.value, result, d, rest.value, Pow2(shift), Pow2(shift + 7), sum); }
    }
  }

  class Decoder {
    const buf: bytes
    var pos: nat
    var ok: bool

    constructor (buf: bytes)
      ensures this.buf == buf && pos == 0 && ok
    {
      this.buf := buf;
      pos, ok := 0, true;
    }

    /** Moved past what r read, or failed as r did. */
    twostate predicate Follows<T>(r: Parse<T>)
      reads this
    {
      if r.Got? then pos == r.next && ok == old(ok) else !ok
    }

    method Varint() returns (done: bool, v: uint64)
      modifies this
      ensures var r := ReadVarint(buf, old(pos)); Follows(r) && done == r.Got? && (done ==> v == r.value)
    {
      var result: uint64, shift := 0, 0;
      while true
        invariant ok == old(ok)
        invariant SoFar(buf, old(pos), pos, shift, result)
        decreases |buf| - pos
      {
        if pos >= |buf| { ok := false; return false, 0; }
        var b := buf[pos] as nat;
        if shift >= 64 { pos := pos + 1; ok := false; return false, 0; }
        var sum := (result + b % TWO_7 * Pow2(shift)) % TWO_64;
        OneMore(buf, old(pos), pos, shift, result, sum);
        pos := pos + 1;
        if b < TWO_7 { return true, sum; }
        result, shift := sum, shift + 7;
      }
    }

    method Zigzag() returns (done: bool, v: int64)
      modifies this
      ensures var r := ReadZigzag(buf, old(pos)); Follows(r) && done == r.Got? && (done ==> v == r.value)
    {
      var x: uint64;
      done, x := Varint();
      v := UnZigzag(x);
    }

    method Int() returns (done: bool, v: int32)
      modifies this
      ensures var r := ReadInt(buf, old(pos)); Follows(r) && done == r.Got? && (done ==> v == r.value)
    {
      var x: int64;
      done, x := Zigzag();
      v := Narrow(x);
    }

    method Bool() returns (done: bool, v: bool)
      modifies this
      ensures var r := ReadBool(buf, old(pos)); Follows(r) && done == r.Got? && (done ==> v == r.value)
    {
      var x: uint64;
      done, x := Varint();
      v := x != 0;
    }

    method Bytes() returns (done: bool, s: bytes)
      modifies this
      ensures var r := ReadBytes(buf, old(pos)); Follows(r) && done == r.Got? && (done ==> s == r.value)
    {
      var n: uint64;
      done, n := Varint();
      if !done { return false, []; }
      if n > |buf| - pos { ok := false; return false, []; }
      s := buf[pos..pos + n];
      pos := pos + n;
    }

    /** Nothing failed and nothing is left over. */
    predicate Ok()
      reads this
    {
      ok && pos == |buf|
    }
  }
}
