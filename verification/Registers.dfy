/**
 * Shift registers in general: taking data in bit by bit, or eight steps at a time with the
 * help of a table. W is the register's word and B a piece of data.
 */
module Registers {
  datatype Register<!W, !B> = Register(step: W -> W, shiftIn: (W, W) -> W, xor: (W, W) -> W, half: W -> W, zero: W,
                                       low: W -> W, rest: W -> W, widen: B -> W, width: nat)

  /** f, k times. */
  function Iter<T>(f: T -> T, c: T, k: nat): T
    decreases k
  {
    if k == 0 then c else Iter(f, f(c), k - 1)
  }

  /** The k low bits of b taken in, lowest first: the reference. */
  function Serial<W, B>(r: Register<W, B>, c: W, b: W, k: nat): W
    decreases k
  {
    if k == 0 then c else Serial(r, r.shiftIn(c, b), r.half(b), k - 1)
  }

  /** The table's word for the low part, and the rest shifted. */
  function Lookup<W, B>(r: Register<W, B>, c: W, b: B): W {
    r.xor(Iter(r.step, r.low(r.xor(c, r.widen(b))), r.width), r.rest(c))
  }

  /** The word after n pieces of data, bit by bit. */
  function SerialRun<W, B>(r: Register<W, B>, c: W, data: seq<B>, n: nat): W
    requires n <= |data|
  {
    if n == 0 then c else Serial(r, SerialRun(r, c, data, n - 1), r.widen(data[n - 1]), r.width)
  }

  /** The word after n pieces of data, one look-up each. */
  function TableRun<W, B>(r: Register<W, B>, c: W, data: seq<B>, n: nat): W
    requires n <= |data|
  {
    if n == 0 then c else Lookup(r, TableRun(r, c, data, n - 1), data[n - 1])
  }

  // --------------------------------------------------------------- the laws

  /** A step on mixed-in data is a shift that takes the data's low bit in. */
  ghost predicate Mixes<W(!new), B(!new)>(r: Register<W, B>) {
    && (forall c, b {:trigger r.shiftIn(c, b)} {:trigger r.step(r.xor(c, b))} ::
          r.step(r.xor(c, b)) == r.xor(r.shiftIn(c, b), r.half(b)))
    && (forall c :: r.xor(c, r.zero) == c)
    && (forall b :: Iter(r.half, r.widen(b), r.width) == r.zero)
  }

  /** Looking up the low part does all the steps of a piece of data. */
  ghost predicate Splits<W(!new), B(!new)>(r: Register<W, B>) {
    && (forall x :: Iter(r.step, x, r.width) == r.xor(Iter(r.step, r.low(x), r.width), r.rest(x)))
    && (forall c, b {:trigger r.xor(c, r.widen(b))} :: r.rest(r.xor(c, r.widen(b))) == r.rest(c))
  }

  ghost predicate Recovers<W(!new), B(!new)>(r: Register<W, B>) {
    && (forall a, b :: r.step(a) == r.step(b) ==> a == b)
    && (forall u, v, b :: r.xor(u, r.widen(b)) == r.xor(v, r.widen(b)) ==> u == v)
    && (forall u, a, b :: r.xor(u, r.widen(a)) == r.xor(u, r.widen(b)) ==> a == b)
  }

  // --------------------------------------------------------------- the proofs

  lemma LookupIsSteps<W(!new), B(!new)>(r: Register<W, B>, c: W, b: B)
    requires Splits(r)
    ensures Lookup(r, c, b) == Iter(r.step, r.xor(c, r.widen(b)), r.width)
  {
  }

  lemma {:induction false} StepsAreSerial<W(!new), B(!new)>(r: Register<W, B>, c: W, b: W, k: nat)
    requires Mixes(r)
    ensures Iter(r.step, r.xor(c, b), k) == r.xor(Serial(r, c, b, k), Iter(r.half, b, k))
    decreases k
  {
    if k > 0 { StepsAreSerial(r, r.shiftIn(c, b), r.half(b), k - 1); }
  }

  /** One look-up takes in one piece of data. */
  lemma LookupIsSerial<W(!new), B(!new)>(r: Register<W, B>, c: W, b: B)
    requires Mixes(r) && Splits(r)
    ensures Lookup(r, c, b) == Serial(r, c, r.widen(b), r.width)
  {
    LookupIsSteps(r, c, b);
    StepsAreSerial(r, c, r.widen(b), r.width);
  }

  lemma {:induction false} TableIsSerial<W(!new), B(!new)>(r: Register<W, B>, c: W, data: seq<B>, n: nat)
    requires Mixes(r) && Splits(r) && n <= |data|
    ensures TableRun(r, c, data, n) == SerialRun(r, c, data, n)
  {
    if n > 0 {
      TableIsSerial(r, c, data, n - 1);
      LookupIsSerial(r, TableRun(r, c, data, n - 1), data[n - 1]);
    }
  }

  lemma {:induction false} RunPrefix<W, B>(r: Register<W, B>, c: W, a: seq<B>, b: seq<B>, n: nat)
    requires n <= |a| && n <= |b| && forall i :: 0 <= i < n ==> a[i] == b[i]
    ensures TableRun(r, c, a, n) == TableRun(r, c, b, n)
  {
    if n > 0 { RunPrefix(r, c, a, b, n - 1); }
  }

  /** Running over a prefix and then over the rest is running over all. */
  lemma {:induction false} RunSplits<W, B>(r: Register<W, B>, c: W, a: seq<B>, b: seq<B>, n: nat)
    requires n <= |b|
    ensures TableRun(r, c, a + b, |a| + n) == TableRun(r, TableRun(r, c, a, |a|), b, n)
  {
    if n == 0 {
      RunPrefix(r, c, a, a + b, |a|);
    } else {
      RunSplits(r, c, a, b, n - 1);
      assert (a + b)[|a| + n - 1] == b[n - 1];
    }
  }

  /** A value kept inverted, continued over more data. */
  function Continue<W, B>(r: Register<W, B>, not: W -> W, value: W, data: seq<B>): W {
    not(TableRun(r, not(value), data, |data|))
  }

  /** Streaming: the value over split data is the value over the whole. */
  lemma ContinueSplits<W(!new), B>(r: Register<W, B>, not: W -> W, value: W, a: seq<B>, b: seq<B>)
    requires forall c :: not(not(c)) == c
    ensures Continue(r, not, value, a + b) == Continue(r, not, Continue(r, not, value, a), b)
  {
    RunSplits(r, not(value), a, b, |b|);
  }

  lemma {:induction false} IterInjective<T(!new)>(f: T -> T, u: T, v: T, k: nat)
    requires (forall a, b :: f(a) == f(b) ==> a == b) && Iter(f, u, k) == Iter(f, v, k)
    ensures u == v
    decreases k
  {
    if k > 0 { IterInjective(f, f(u), f(v), k - 1); }
  }

  /** With the data known the state can be recovered, and with the state known the data. */
  lemma LookupInjective<W(!new), B(!new)>(r: Register<W, B>, u: W, a: B, v: W, b: B)
    requires Splits(r) && Recovers(r) && Lookup(r, u, a) == Lookup(r, v, b)
    ensures u == v <==> a == b
  {
    LookupIsSteps(r, u, a);
    LookupIsSteps(r, v, b);
    IterInjective(r.step, r.xor(u, r.widen(a)), r.xor(v, r.widen(b)), r.width);
  }

  lemma LookupShows<W(!new), B(!new)>(r: Register<W, B>, u: W, a: B, v: W, b: B)
    requires Splits(r) && Recovers(r) && (u == v) != (a == b)
    ensures Lookup(r, u, a) != Lookup(r, v, b)
  {
    if Lookup(r, u, a) == Lookup(r, v, b) { LookupInjective(r, u, a, v, b); }
  }

  ghost predicate DifferAt<B(!new)>(a: seq<B>, b: seq<B>, p: nat) {
    |a| == |b| && p < |a| && a[p] != b[p] && forall i :: 0 <= i < |a| && i != p ==> a[i] == b[i]
  }

  /** A single difference in the data never gets lost. */
  lemma {:induction false} RunShows<W(!new), B(!new)>(r: Register<W, B>, c: W, a: seq<B>, b: seq<B>, p: nat, n: nat)
    requires Splits(r) && Recovers(r) && DifferAt(a, b, p) && p < n <= |a|
    ensures TableRun(r, c, a, n) != TableRun(r, c, b, n)
  {
    if n == p + 1 { RunPrefix(r, c, a, b, p); } else { RunShows(r, c, a, b, p, n - 1); }
    LookupShows(r, TableRun(r, c, a, n - 1), a[n - 1], TableRun(r, c, b, n - 1), b[n - 1]);
  }

  lemma ContinueShows<W(!new), B(!new)>(r: Register<W, B>, not: W -> W, value: W, a: seq<B>, b: seq<B>, p: nat)
    requires Splits(r) && Recovers(r) && DifferAt(a, b, p) && forall c :: not(not(c)) == c
    ensures Continue(r, not, value, a) != Continue(r, not, value, b)
  {
    RunShows(r, not(value), a, b, p, |a|);
    assert not(Continue(r, not, value, a)) != not(Continue(r, not, value, b));
  }
}
