/** The order of the keys of a std::map: byte by byte, a prefix before what it is a prefix of. */
module KeyOrder {
  import opened Wrappers
  import opened Sequences

  predicate Less(a: bytes, b: bytes)
    decreases |a|
  {
    b != [] && (a == [] || a[0] < b[0] || (a[0] == b[0] && Less(a[1..], b[1..])))
  }

  lemma {:induction false} LessIrreflexive(a: bytes)
    ensures !Less(a, a)
    decreases |a|
  {
    if a != [] { LessIrreflexive(a[1..]); }
  }

  lemma {:induction false} LessTotal(a: bytes, b: bytes)
    ensures Less(a, b) || Less(b, a) || a == b
    decreases |a|
  {
    if a != [] && b != [] && a[0] == b[0] {
      LessTotal(a[1..], b[1..]);
      assert a == [a[0]] + a[1..] && b == [b[0]] + b[1..];
    }
  }

  lemma {:induction false} LessTransitive(a: bytes, b: bytes, c: bytes)
    requires Less(a, b) && Less(b, c)
    ensures Less(a, c)
    decreases |a|
  {
    if a != [] && a[0] == b[0] == c[0] { LessTransitive(a[1..], b[1..], c[1..]); }
  }

  ghost predicate Ascending(keys: seq<bytes>) {
    forall i, j :: 0 <= i < j < |keys| ==> Less(keys[i], keys[j])
  }

  lemma AscendingDistinct(keys: seq<bytes>)
    requires Ascending(keys)
    ensures Distinct(keys)
  {
    forall i, j | 0 <= i < j < |keys| ensures keys[i] != keys[j] { LessIrreflexive(keys[i]); }
  }

  ghost predicate LeastOf(k: bytes, keys: set<bytes>) {
    k in keys && forall x :: x in keys && x != k ==> Less(k, x)
  }

  /** The key the iteration comes to first. */
  method Least(keys: set<bytes>) returns (k: bytes)
    requires keys != {}
    ensures LeastOf(k, keys)
  {
    k :| k in keys;
    var others := keys - {k};
    while others != {}
      invariant others <= keys && k !in others && LeastOf(k, keys - others)
      decreases others
    {
      var x :| x in others;
      others := others - {x};
      LessTotal(k, x);
      if Less(x, k) {
        forall y | y in keys - others && y != x ensures Less(x, y) {
          if y != k { LessTransitive(x, k, y); }
        }
        k := x;
      }
    }
    assert keys - others == keys;
  }

  /** A set has one ascending list. */
  lemma {:induction false} AscendingOnce(a: seq<bytes>, b: seq<bytes>)
    requires Ascending(a) && Ascending(b) && forall k :: k in a <==> k in b
    ensures a == b
    decreases |a|
  {
    if a == [] {
      EmptyOrFirst(b);
    } else {
      assert a[0] in a && a[0] in b && b[0] in b && b[0] in a;
      FrontIsLeast(a, b[0]);
      FrontIsLeast(b, a[0]);
      if Less(a[0], b[0]) && Less(b[0], a[0]) {
        LessTransitive(a[0], b[0], a[0]);
        LessIrreflexive(a[0]);
      }
      forall k ensures k in a[1..] <==> k in b[1..] {
        TailMembers(a, k);
        TailMembers(b, k);
      }
      AscendingOnce(a[1..], b[1..]);
      assert a == [a[0]] + a[1..] && b == [b[0]] + b[1..];
    }
  }

  lemma EmptyOrFirst(b: seq<bytes>)
    ensures b == [] || b[0] in b
  {
  }

  lemma FrontIsLeast(a: seq<bytes>, k: bytes)
    requires Ascending(a) && k in a
    ensures k == a[0] || Less(a[0], k)
  {
  }

  lemma TailMembers(a: seq<bytes>, k: bytes)
    requires Ascending(a) && a != []
    ensures k in a[1..] <==> k in a && k != a[0]
  {
    LessIrreflexive(a[0]);
    if k in a && k != a[0] {
      var i :| 0 <= i < |a| && a[i] == k;
      assert a[1..][i - 1] == k;
    }
  }
}
