/** Byte strings one behind the other, and where each of them starts. */
module Pieces {
  import opened Wrappers

  /** part stands at pos. */
  predicate Holds(buf: bytes, pos: nat, part: bytes) {
    pos + |part| <= |buf| && buf[pos..pos + |part|] == part
  }

  lemma HoldsParts(buf: bytes, pos: nat, a: bytes, b: bytes)
    requires Holds(buf, pos, a + b)
    ensures Holds(buf, pos, a) && Holds(buf, pos + |a|, b)
  {
    var both := buf[pos..pos + |a + b|];
    assert both[..|a|] == a && both[|a|..] == b;
  }

  lemma HoldsLonger(a: bytes, b: bytes, pos: nat, part: bytes)
    requires Holds(a, pos, part)
    ensures Holds(a + b, pos, part)
  {
    assert (a + b)[pos..pos + |part|] == a[pos..pos + |part|];
  }

  /** The first n pieces. */
  function Cat(ps: seq<bytes>, n: nat): bytes
    requires n <= |ps|
  {
    if n == 0 then [] else Cat(ps, n - 1) + ps[n - 1]
  }

  /** Where piece n - 1 ends and piece n starts. */
  function End(ps: seq<bytes>, n: nat): nat
    requires n <= |ps|
  {
    if n == 0 then 0 else End(ps, n - 1) + |ps[n - 1]|
  }

  lemma {:induction false} EndIsLength(ps: seq<bytes>, n: nat)
    requires n <= |ps|
    ensures |Cat(ps, n)| == End(ps, n)
  {
    if n > 0 { EndIsLength(ps, n - 1); }
  }

  lemma {:induction false} EndGrows(ps: seq<bytes>, m: nat, n: nat)
    requires m <= n <= |ps|
    ensures End(ps, m) <= End(ps, n)
  {
    if m < n { EndGrows(ps, m, n - 1); }
  }

  lemma {:induction false} CatPrefix(ps: seq<bytes>, qs: seq<bytes>, n: nat)
    requires n <= |ps| && n <= |qs| && forall i :: 0 <= i < n ==> ps[i] == qs[i]
    ensures Cat(ps, n) == Cat(qs, n) && End(ps, n) == End(qs, n)
  {
    if n > 0 { CatPrefix(ps, qs, n - 1); }
  }

  lemma {:induction false} CatStarts(ps: seq<bytes>, m: nat, n: nat)
    requires m <= n <= |ps|
    ensures End(ps, m) <= |Cat(ps, n)| && Cat(ps, n)[..End(ps, m)] == Cat(ps, m)
  {
    EndIsLength(ps, m);
    if m < n { CatStarts(ps, m, n - 1); }
  }

  /** Piece i stands at the end of the pieces before it. */
  lemma {:induction false} PieceStands(ps: seq<bytes>, i: nat, n: nat)
    requires i < n <= |ps|
    ensures Holds(Cat(ps, n), End(ps, i), ps[i])
  {
    if i == n - 1 {
      EndIsLength(ps, i);
    } else {
      PieceStands(ps, i, n - 1);
      HoldsLonger(Cat(ps, n - 1), ps[n - 1], End(ps, i), ps[i]);
    }
  }

  lemma Appended(ps: seq<bytes>, p: bytes)
    ensures Cat(ps + [p], |ps| + 1) == Cat(ps, |ps|) + p && End(ps + [p], |ps| + 1) == End(ps, |ps|) + |p|
  {
    CatPrefix(ps, ps + [p], |ps|);
  }

  lemma ThreeParts(s: bytes, pos: nat, a: bytes, b: bytes, c: bytes)
    requires Holds(s, pos, a + b + c)
    ensures Holds(s, pos, a) && Holds(s, pos + |a|, b) && Holds(s, pos + |a| + |b|, c)
  {
    HoldsParts(s, pos, a + b, c);
    HoldsParts(s, pos, a, b);
  }
}
