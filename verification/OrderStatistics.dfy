/** Sorting, counting and majorities: what the pick matched[size - quorum] means. */
module OrderStatistics {

  predicate Ascending(s: seq<nat>) {
    forall i, j :: 0 <= i <= j < |s| ==> s[i] <= s[j]
  }

  function Insert(s: seq<nat>, x: nat): seq<nat> {
    if s == [] || x <= s[0] then [x] + s else [s[0]] + Insert(s[1..], x)
  }

  function Sorted(s: seq<nat>): (r: seq<nat>)
    ensures |r| == |s|
  {
    if s == [] then [] else
      InsertLength(Sorted(s[1..]), s[0]);
      Insert(Sorted(s[1..]), s[0])
  }

  lemma {:induction false} InsertLength(s: seq<nat>, x: nat)
    ensures |Insert(s, x)| == |s| + 1
  {
    if s != [] && x > s[0] { InsertLength(s[1..], x); }
  }

  lemma {:induction false} InsertMultiset(s: seq<nat>, x: nat)
    ensures multiset(Insert(s, x)) == multiset(s) + multiset{x}
  {
    if s != [] && x > s[0] {
      InsertMultiset(s[1..], x);
      assert s == [s[0]] + s[1..];
    }
  }

  lemma {:induction false} InsertAscending(s: seq<nat>, x: nat)
    requires Ascending(s)
    ensures Ascending(Insert(s, x))
  {
    if s == [] || x <= s[0] {
    } else {
      InsertAscending(s[1..], x);
      InsertMultiset(s[1..], x);
      var r := Insert(s[1..], x);
      forall k | 0 <= k < |r| ensures s[0] <= r[k] {
        assert r[k] in multiset(r);
        assert r[k] in s[1..] || r[k] == x;
      }
    }
  }

  lemma {:induction false} SortedIsSort(s: seq<nat>)
    ensures Ascending(Sorted(s))
    ensures multiset(Sorted(s)) == multiset(s)
  {
    if s != [] {
      SortedIsSort(s[1..]);
      InsertAscending(Sorted(s[1..]), s[0]);
      InsertMultiset(Sorted(s[1..]), s[0]);
      assert s == [s[0]] + s[1..];
    }
  }

  function CountAtLeast(s: seq<nat>, n: nat): nat {
    if s == [] then 0 else (if s[0] >= n then 1 else 0) + CountAtLeast(s[1..], n)
  }

  lemma {:induction false} CountInsert(s: seq<nat>, x: nat, n: nat)
    ensures CountAtLeast(Insert(s, x), n) == CountAtLeast(s, n) + (if x >= n then 1 else 0)
  {
    if s == [] || x <= s[0] {
      assert ([x] + s)[1..] == s;
    } else {
      CountInsert(s[1..], x, n);
      assert ([s[0]] + Insert(s[1..], x))[1..] == Insert(s[1..], x);
    }
  }

  lemma {:induction false} CountSorted(s: seq<nat>, n: nat)
    ensures CountAtLeast(Sorted(s), n) == CountAtLeast(s, n)
  {
    if s != [] {
      CountSorted(s[1..], n);
      CountInsert(Sorted(s[1..]), s[0], n);
    }
  }

  lemma {:induction false} CountAscending(s: seq<nat>, k: nat, n: nat)
    requires Ascending(s) && k < |s|
    ensures s[k] >= n ==> CountAtLeast(s, n) >= |s| - k
    ensures s[k] < n ==> CountAtLeast(s, n) < |s| - k
  {
    CountBound(s[1..], n);
    if k > 0 {
      CountAscending(s[1..], k - 1, n);
    } else if s[0] >= n {
      CountAll(s, n);
    }
  }

  lemma {:induction false} CountBound(s: seq<nat>, n: nat)
    ensures CountAtLeast(s, n) <= |s|
  {
    if s != [] { CountBound(s[1..], n); }
  }

  lemma {:induction false} CountAll(s: seq<nat>, n: nat)
    requires forall i :: 0 <= i < |s| ==> s[i] >= n
    ensures CountAtLeast(s, n) == |s|
  {
    if s != [] { CountAll(s[1..], n); }
  }

  /**
   * matched[size - quorum] of the ascending match indexes is the largest index that
   * at least a quorum of voters has reached.
   */
  lemma QuorumPick(s: seq<nat>, quorum: nat, n: nat)
    requires 1 <= quorum <= |s|
    ensures n <= Sorted(s)[|s| - quorum] <==> CountAtLeast(s, n) >= quorum
  {
    SortedIsSort(s);
    CountAscending(Sorted(s), |s| - quorum, n);
    CountSorted(s, n);
  }

  ghost function AtLeast(s: seq<nat>, n: nat): set<nat> {
    set i: nat | i < |s| && s[i] >= n
  }

  lemma {:induction false} CountIsCard(s: seq<nat>, n: nat)
    ensures |AtLeast(s, n)| == CountAtLeast(s, n)
  {
    if s != [] {
      var last := |s| - 1;
      var init := s[..last];
      CountIsCard(init, n);
      CountAppend(init, s[last], n);
      assert s == init + [s[last]];
      if s[last] >= n {
        assert AtLeast(s, n) == AtLeast(init, n) + {last};
      } else {
        assert AtLeast(s, n) == AtLeast(init, n);
      }
    }
  }

  lemma {:induction false} CountAppend(s: seq<nat>, x: nat, n: nat)
    ensures CountAtLeast(s + [x], n) == CountAtLeast(s, n) + (if x >= n then 1 else 0)
  {
    if s != [] {
      CountAppend(s[1..], x, n);
      assert (s + [x])[1..] == s[1..] + [x];
    }
  }

  function Below(n: nat): set<nat> {
    if n == 0 then {} else Below(n - 1) + {n - 1}
  }

  lemma {:induction false} BelowIsRange(n: nat)
    ensures |Below(n)| == n
    ensures forall x: nat :: x in Below(n) <==> x < n
  {
    if n > 0 { BelowIsRange(n - 1); }
  }

  /** Any two majorities of the same n nodes share a node. */
  lemma MajoritiesMeet(n: nat, a: set<nat>, b: set<nat>) returns (v: nat)
    requires forall x :: x in a ==> x < n
    requires forall x :: x in b ==> x < n
    requires |a| >= n / 2 + 1 && |b| >= n / 2 + 1
    ensures v in a && v in b && v < n
  {
    BelowIsRange(n);
    SubsetSize(a + b, Below(n));
    assert |a + b| + |a * b| == |a| + |b|;
    v :| v in a * b;
  }

  /** Two majorities of an even number of nodes share a second one besides any x. */
  lemma EvenMajoritiesMeetTwice(n: nat, a: set<nat>, b: set<nat>, x: nat) returns (v: nat)
    requires forall y :: y in a ==> y < n
    requires forall y :: y in b ==> y < n
    requires |a| >= n / 2 + 1 && |b| >= n / 2 + 1 && n % 2 == 0
    ensures v in a && v in b && v != x
  {
    BelowIsRange(n);
    SubsetSize(a + b, Below(n));
    assert |a + b| + |a * b| == |a| + |b|;
    assert |a * b - {x}| >= |a * b| - 1;
    v :| v in a * b - {x};
  }

  lemma {:induction false} SubsetSize<T>(a: set<T>, b: set<T>)
    requires a <= b
    ensures |a| <= |b|
  {
    if a != {} {
      var x :| x in a;
      SubsetSize(a - {x}, b - {x});
    }
  }
}
