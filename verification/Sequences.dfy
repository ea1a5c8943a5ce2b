/** Sequences without repetitions, and taking one element out. */
module Sequences {

  ghost predicate Distinct<T>(list: seq<T>) {
    forall i, j :: 0 <= i < j < |list| ==> list[i] != list[j]
  }

  /** rest is list without its element i. */
  ghost predicate Removed<T>(list: seq<T>, i: nat, rest: seq<T>) {
    i < |list| && |rest| == |list| - 1
    && (forall k :: 0 <= k < i ==> rest[k] == list[k])
    && (forall k :: i < k < |list| ==> rest[k - 1] == list[k])
  }

  lemma RemovedKeeps<T>(list: seq<T>, i: nat, rest: seq<T>)
    requires Removed(list, i, rest)
    ensures Distinct(list) ==> Distinct(rest) && list[i] !in rest
    ensures forall k :: 0 <= k < |rest| ==> rest[k] == list[if k < i then k else k + 1]
    ensures forall e :: e in rest ==> e in list
    ensures forall e :: e in list && e != list[i] ==> e in rest
  {
    forall k | 0 <= k < |rest| ensures rest[k] == list[if k < i then k else k + 1] {
      assert k >= i ==> rest[(k + 1) - 1] == list[k + 1];
    }
    assert forall e :: e in rest ==> e in list;
    if Distinct(list) {
      forall a, b | 0 <= a < b < |rest| ensures rest[a] != rest[b] {
        assert rest[a] == list[if a < i then a else a + 1] && rest[b] == list[if b < i then b else b + 1];
      }
    }
    forall e | e in list && e != list[i] ensures e in rest {
      var k :| 0 <= k < |list| && list[k] == e;
      assert if k < i then rest[k] == e else rest[k - 1] == e;
    }
  }

  function Without<T>(list: seq<T>, i: nat): seq<T> {
    if i < |list| then list[..i] + list[i + 1..] else list
  }

  lemma WithoutRemoves<T>(list: seq<T>, i: nat)
    requires i < |list|
    ensures Removed(list, i, Without(list, i))
  {
  }

  /** The place of x in list. */
  function Place<T(==)>(list: seq<T>, x: T): (p: nat)
    requires x in list
    ensures p < |list| && list[p] == x
  {
    PlaceFrom(list, x, 0)
  }

  function PlaceFrom<T(==)>(list: seq<T>, x: T, i: nat): (p: nat)
    requires i <= |list| && exists k :: i <= k < |list| && list[k] == x
    ensures i <= p < |list| && list[p] == x
    decreases |list| - i
  {
    if list[i] == x then i else PlaceFrom(list, x, i + 1)
  }

  /** As many elements as a set has, when they are its elements, each once. */
  lemma {:induction false} DistinctCount<T>(list: seq<T>, s: set<T>)
    requires Distinct(list) && forall x :: x in list <==> x in s
    ensures |list| == |s|
    decreases |list|
  {
    if list == [] {
      assert s == {};
    } else {
      var last := list[|list| - 1];
      var init := list[..|list| - 1];
      forall x ensures x in init <==> x in s - {last} {
        if x in init {
          var k :| 0 <= k < |init| && init[k] == x;
          assert list[k] == x && list[k] in list;
        }
      }
      DistinctCount(init, s - {last});
    }
  }

  // ------------------------------------------------------------------ folds

  /** What the first n elements make of s, step by step. */
  ghost function Folded<S, E>(step: (S, E) -> S, s: S, es: seq<E>, n: nat): S
    requires n <= |es|
  {
    if n == 0 then s else step(Folded(step, s, es, n - 1), es[n - 1])
  }

  /** What they give off on the way. */
  ghost function Gathered<S, E, V>(step: (S, E) -> S, give: (S, E) -> seq<V>, s: S, es: seq<E>, n: nat): seq<V>
    requires n <= |es|
  {
    if n == 0 then [] else Gathered(step, give, s, es, n - 1) + give(Folded(step, s, es, n - 1), es[n - 1])
  }

  lemma GatherMore<S, E, V>(step: (S, E) -> S, give: (S, E) -> seq<V>, s: S, es: seq<E>, n: nat,
                            before: seq<V>, now: S, gone: seq<V>)
    requires n < |es| && now == Folded(step, s, es, n) && gone == before + Gathered(step, give, s, es, n)
    ensures step(now, es[n]) == Folded(step, s, es, n + 1)
    ensures gone + give(now, es[n]) == before + Gathered(step, give, s, es, n + 1)
  {
  }

  /** Going through a list is going through its front and then its back. */
  lemma {:induction false} FoldBoth<S, E>(step: (S, E) -> S, s: S, front: seq<E>, back: seq<E>, n: nat)
    requires n <= |back|
    ensures Folded(step, s, front + back, |front| + n) == Folded(step, Folded(step, s, front, |front|), back, n)
  {
    if n == 0 {
      FoldFront(step, s, front, back, |front|);
    } else {
      FoldBoth(step, s, front, back, n - 1);
      assert (front + back)[|front| + n - 1] == back[n - 1];
    }
  }

  /** What all the elements make of s. */
  ghost function FoldAll<S, E>(step: (S, E) -> S, s: S, es: seq<E>): S {
    Folded(step, s, es, |es|)
  }

  lemma FoldAllBoth<S, E>(step: (S, E) -> S, s: S, front: seq<E>, back: seq<E>)
    ensures FoldAll(step, s, front + back) == FoldAll(step, FoldAll(step, s, front), back)
  {
    FoldBoth(step, s, front, back, |back|);
  }

  lemma {:induction false} FoldFront<S, E>(step: (S, E) -> S, s: S, front: seq<E>, back: seq<E>, n: nat)
    requires n <= |front|
    ensures Folded(step, s, front + back, n) == Folded(step, s, front, n)
  {
    if n > 0 { FoldFront(step, s, front, back, n - 1); }
  }
}
