/**
 * When the checker's answer is that of time. Entries are sorted by time alone, so the return of
 * one operation may come before the call of another issued at that very moment. Whether that
 * can change the answer depends on the times and the keys only: it can exactly when two
 * operations on one key tie.
 */
module KvTies {
  import opened OrderStatistics
  import opened Linearizability
  import opened KvModel
  import opened Timeline
  import opened KvChecker

  /** The same operations on the same keys at the same times; what they do and answer may differ. */
  ghost predicate SameShape(g: seq<KvOperation>, history: seq<KvOperation>) {
    |g| == |history| && forall o: nat :: o < |g| ==> SameMoment(g[o], history[o])
  }

  predicate SameMoment(x: KvOperation, y: KvOperation) {
    x.input.key == y.input.key && x.call == y.call && x.ret == y.ret
  }

  // --------------------------------------------------------- rigged histories

  /** What operation o does: a writes "1", b reads the empty string, the others append nothing. */
  function RiggedInput(a: nat, b: nat, o: nat, key: string): KvInput {
    if o == a then KvInput(PUT, key, "1") else if o == b then KvInput(GET, key, "") else KvInput(APPEND, key, "")
  }

  ghost predicate Rigged(g: seq<KvOperation>, a: nat, b: nat) {
    a != b && forall o: nat :: o < |g| ==> RiggedAt(g, a, b, o)
  }

  ghost predicate RiggedAt(g: seq<KvOperation>, a: nat, b: nat, o: nat)
    requires o < |g|
  {
    g[o].input == RiggedInput(a, b, o, g[o].input.key) && g[o].output == KvOutput("")
  }

  lemma RiggedStep(g: seq<KvOperation>, a: nat, b: nat, o: nat, state: string)
    requires Rigged(g, a, b) && o < |g|
    ensures KvStep(state, g[o].input, g[o].output)
      == if o == a then (true, "1") else if o == b then (state == "", state) else (true, state)
  {
    assert RiggedAt(g, a, b, o) && state + "" == state;
  }

  /** Which operation goes next by time: b goes before a, and otherwise the one answered first. */
  lemma NextByTime(g: seq<KvOperation>, a: nat, b: nat, rest: set<nat>) returns (o: nat)
    requires Within(g, rest) && rest != {} && Answered(g) && (b in rest ==> a in rest && g[a].ret == g[b].call)
    ensures Minimal(g, rest, o) && (o == a ==> b !in rest)
  {
    o := EarliestAnswer(g, rest);
    if o == a && b in rest { o := b; }
  }

  /** By time, the read can go before the write it overlaps. */
  lemma {:induction false} FinishesByTime(g: seq<KvOperation>, a: nat, b: nat, rest: set<nat>, state: string)
    requires Rigged(g, a, b) && Answered(g) && Within(g, rest)
    requires b in rest ==> a in rest && g[a].ret == g[b].call && state == ""
    ensures CanFinish(Single, g, rest, state)
    decreases |rest|
  {
    if rest == {} {
      EmptyFinishes(Single, g, state);
    } else {
      var o := NextByTime(g, a, b, rest);
      RiggedStep(g, a, b, o, state);
      FinishesByTime(g, a, b, rest - {o}, KvStep(state, g[o].input, g[o].output).1);
      TakeFirst(Single, g, rest, state, o);
    }
  }

  /** If the write must come before the read, the read has no place. */
  lemma {:induction false} RefutedInOrder(ops: seq<KvOperation>, a: nat, b: nat, rest: set<nat>, state: string)
    requires Rigged(ops, a, b) && Ordered(ops) && a < |ops| && b < |ops| && Precedes(ops, a, b)
    requires Within(ops, rest) && b in rest && (a in rest || state == "1")
    ensures !CanFinish(Single, ops, rest, state)
    decreases |rest|
  {
    forall o | o in rest && Minimal(ops, rest, o) ensures Refuted(Single, ops, rest, state, o) {
      RiggedStep(ops, a, b, o, state);
      if o == b {
        assert a !in rest;
      } else {
        RefutedInOrder(ops, a, b, rest - {o}, KvStep(state, ops[o].input, ops[o].output).1);
      }
    }
    AllRefuted(Single, ops, rest, state);
  }

  // ------------------------------------------------------- a sorted order exists

  lemma {:induction false} SortedExists(s: seq<Mark>) returns (t: seq<Mark>)
    ensures multiset(t) == multiset(s) && Chronological(t)
    decreases |s|
  {
    if s == [] {
      t := [];
    } else {
      var init, x := s[..|s| - 1], s[|s| - 1];
      var u := SortedExists(init);
      var k := PlaceFor(u, x, |u|);
      InsertKeeps(u, k, x);
      t := u[..k] + [x] + u[k..];
      assert s == init + [x];
    }
  }

  lemma {:induction false} PlaceFor(s: seq<Mark>, x: Mark, n: nat) returns (k: nat)
    requires Chronological(s) && n <= |s| && forall p: nat :: n <= p < |s| ==> x.time <= s[p].time
    ensures k <= |s|
    ensures (forall p: nat :: p < k ==> s[p].time <= x.time) && (forall p: nat :: k <= p < |s| ==> x.time <= s[p].time)
    decreases n
  {
    if n == 0 || s[n - 1].time <= x.time { k := n; } else { k := PlaceFor(s, x, n - 1); }
  }

  /** The sort has an order to give. */
  lemma MarksExist(g: seq<KvOperation>) returns (marks: seq<Mark>)
    ensures MarksOf(g, marks)
  {
    marks := SortedExists(AllMarks(g, |g|));
    SortedMarks(g, marks);
  }

  /** Two marks of the same time change places. */
  lemma Exchanged(g: seq<KvOperation>, marks: seq<Mark>, p: nat, q: nat)
    requires MarksOf(g, marks) && p < q < |marks| && marks[p].time == marks[q].time
    ensures MarksOf(g, marks[p := marks[q]][q := marks[p]])
  {
    var m2 := marks[p := marks[q]][q := marks[p]];
    forall i: nat, j: nat | i <= j < |m2| ensures m2[i].time <= m2[j].time {
      assert m2[i].time == marks[i].time && m2[j].time == marks[j].time;
    }
    forall o: nat | o < |g| ensures CallMark(g, o) in m2 && ReturnMark(g, o) in m2 {
      StillThere(marks, p, q, CallMark(g, o));
      StillThere(marks, p, q, ReturnMark(g, o));
    }
  }

  lemma StillThere(marks: seq<Mark>, p: nat, q: nat, m: Mark)
    requires p < q < |marks| && m in marks
    ensures m in marks[p := marks[q]][q := marks[p]]
  {
    var i :| 0 <= i < |marks| && marks[i] == m;
    assert marks[p := marks[q]][q := marks[p]][if i == p then q else if i == q then p else i] == m;
  }

  /** A return that ties with a call may stand before it. */
  lemma ReturnFirst(g: seq<KvOperation>, a: nat, b: nat) returns (marks: seq<Mark>)
    requires a < |g| && b < |g| && g[a].ret == g[b].call
    ensures MarksOf(g, marks) && Precedes(Placed(g, marks), a, b)
  {
    marks := MarksExist(g);
    var r, c := Place(marks, ReturnMark(g, a)), Place(marks, CallMark(g, b));
    if c < r {
      Exchanged(g, marks, c, r);
      marks := marks[c := marks[r]][r := marks[c]];
      PlaceIs(g, marks, c, ReturnMark(g, a));
      PlaceIs(g, marks, r, CallMark(g, b));
    }
    assert Placed(g, marks)[a] == PlacedAt(g, marks, a) && Placed(g, marks)[b] == PlacedAt(g, marks, b);
  }

  lemma PlaceIs(g: seq<KvOperation>, marks: seq<Mark>, p: nat, m: Mark)
    requires MarksOf(g, marks) && p < |marks| && marks[p] == m
    ensures Place(marks, m) == p
  {
    assert marks[Place(marks, m)] == marks[p];
  }

  /** In entry order a call still comes before its return. */
  lemma PlacedOrdered(g: seq<KvOperation>, marks: seq<Mark>)
    requires MarksOf(g, marks) && Answered(g)
    ensures Ordered(Placed(g, marks))
  {
    forall o: nat | o < |g| ensures Placed(g, marks)[o].call <= Placed(g, marks)[o].ret {
      var c, r := Place(marks, CallMark(g, o)), Place(marks, ReturnMark(g, o));
      assert marks[c].time < marks[r].time;
      assert Placed(g, marks)[o] == PlacedAt(g, marks, o);
    }
  }

  // ------------------------------------------------------------ the witness

  /** A tie in a rigged part lets the check answer no. */
  lemma RiggedPart(part: seq<KvOperation>, a: nat, b: nat)
    requires Rigged(part, a, b) && Answered(part) && a < |part| && b < |part| && part[a].ret == part[b].call
    ensures PartRefuted(part)
  {
    var marks := ReturnFirst(part, a, b);
    var ops := Placed(part, marks);
    PlacedOrdered(part, marks);
    forall o: nat | o < |ops| ensures RiggedAt(ops, a, b, o) {
      assert ops[o] == PlacedAt(part, marks, o) && RiggedAt(part, a, b, o);
    }
    BelowIsRange(|ops|);
    RefutedInOrder(ops, a, b, Below(|ops|), "");
    assert RefutedBy(part, marks);
  }

  function Rig(history: seq<KvOperation>, a: nat, b: nat): (g: seq<KvOperation>)
    ensures |g| == |history|
  {
    seq(|history|, o requires 0 <= o < |history| =>
      history[o].(input := RiggedInput(a, b, o, history[o].input.key), output := KvOutput("")))
  }

  /** The rigged history is linearizable by time: on every key its operations can finish. */
  lemma RiggedLinearizable(g: seq<KvOperation>, a: nat, b: nat)
    requires Rigged(g, a, b) && Answered(g) && a < |g| && b < |g|
    requires g[a].ret == g[b].call && g[a].input.key == g[b].input.key
    ensures Linearizable(Whole, g)
  {
    Locality(g);
    BelowIsRange(|g|);
    forall k ensures CanFinish(Single, g, OfKey(g, Below(|g|), k), "") {
      FinishesByTime(g, a, b, OfKey(g, Below(|g|), k), "");
    }
  }

  /** Its part on the tied key is rigged too, and tied. */
  lemma PartOfRigged(g: seq<KvOperation>, a: nat, b: nat)
    requires Rigged(g, a, b) && Answered(g) && a < |g| && b < |g|
    requires g[a].ret == g[b].call && g[a].input.key == g[b].input.key
    ensures PartRefuted(Part(g, g[a].input.key))
  {
    var k := g[a].input.key;
    var idx, part := IndicesOf(g, |g|, k), Part(g, k);
    IndicesAre(g, |g|, k);
    IndicesBelow(g, |g|, k);
    PartInherits(g, k);
    var i: nat :| i < |idx| && idx[i] == a;
    var j: nat :| j < |idx| && idx[j] == b;
    forall o: nat | o < |part| ensures RiggedAt(part, i, j, o) {
      assert part[o] == g[idx[o]] && RiggedAt(g, a, b, idx[o]);
      assert (idx[o] == a <==> o == i) && (idx[o] == b <==> o == j);
    }
    RiggedPart(part, i, j);
  }

  /** Two operations on one key that tie: other contents, and the answer is wrong. */
  lemma TieMisleads(history: seq<KvOperation>, a: nat, b: nat) returns (g: seq<KvOperation>)
    requires Answered(history) && a < |history| && b < |history|
    requires history[a].ret == history[b].call && history[a].input.key == history[b].input.key
    ensures SameShape(g, history) && Linearizable(Whole, g) && Refutable(g)
  {
    g := Rig(history, a, b);
    forall o: nat | o < |g| ensures RiggedAt(g, a, b, o) && SameMoment(g[o], history[o]) {}
    RiggedLinearizable(g, a, b);
    PartOfRigged(g, a, b);
  }

  // ----------------------------------------------------------- the condition

  /** The check may answer no exactly where no is right. */
  ghost predicate RightlyRefuted(g: seq<KvOperation>) {
    Refutable(g) <==> !Linearizable(Whole, g)
  }

  /** What is not linearizable is refuted in every order of the entries. */
  lemma AlwaysRefuted(g: seq<KvOperation>)
    requires Answered(g) && !Linearizable(Whole, g)
    ensures Refutable(g)
  {
    PartsDecide(g);
    var k :| !Linearizable(Single, Part(g, k));
    var marks := MarksExist(Part(g, k));
    PlacedVerdict(Single, Part(g, k), marks);
    assert RefutedBy(Part(g, k), marks);
    assert PartRefuted(Part(g, k));
  }

  lemma RightWithoutTies(g: seq<KvOperation>)
    requires Answered(g) && NoKeyTies(g)
    ensures RightlyRefuted(g)
  {
    if Refutable(g) { RefutedWhole(g); } else if !Linearizable(Whole, g) { AlwaysRefuted(g); }
  }

  /**
   * The check is right about every history of these times and keys, in whatever order the sort
   * puts equal times, exactly when no two operations on one key tie.
   */
  lemma RightExactlyWithoutTies(history: seq<KvOperation>)
    requires Answered(history)
    ensures NoKeyTies(history) <==> forall g :: SameShape(g, history) ==> RightlyRefuted(g)
  {
    if NoKeyTies(history) {
      forall g | SameShape(g, history) ensures RightlyRefuted(g) {
        forall o: nat | o < |g| ensures SameMoment(g[o], history[o]) {}
        RightWithoutTies(g);
      }
    } else {
      var a: nat, b: nat :| a < |history| && b < |history|
        && history[a].input.key == history[b].input.key && history[a].ret == history[b].call;
      var g := TieMisleads(history, a, b);
      assert !RightlyRefuted(g);
    }
  }
}
