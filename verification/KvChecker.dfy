/** Checking a key-value history: split by key, check every part, combine the verdicts. */
module KvChecker {
  import opened OrderStatistics
  import opened Linearizability
  import opened Checker
  import opened Timeline
  import opened KvModel

  datatype CheckResult = Ok | Illegal | Unknown

  // --------------------------------------------------------------- the split

  /** The indices below n of the operations on key k, in order. */
  function IndicesOf(history: seq<KvOperation>, n: nat, k: string): seq<nat>
    requires n <= |history|
  {
    if n == 0 then []
    else IndicesOf(history, n - 1, k) + (if history[n - 1].input.key == k then [n - 1] else [])
  }

  ghost predicate Rising(s: seq<nat>) {
    forall i, j :: 0 <= i < j < |s| ==> s[i] < s[j]
  }

  lemma {:induction false} IndicesAre(history: seq<KvOperation>, n: nat, k: string)
    requires n <= |history|
    ensures Rising(IndicesOf(history, n, k))
    ensures forall i: nat :: i in IndicesOf(history, n, k) <==> i < n && history[i].input.key == k
  {
    if n > 0 {
      IndicesAre(history, n - 1, k);
      var s := IndicesOf(history, n - 1, k);
      forall j | 0 <= j < |s| ensures s[j] < n - 1 { assert s[j] in s; }
    }
  }

  /** Bucket b holds exactly the operations on its key, in order; the keys differ and cover the history. */
  ghost predicate Buckets(history: seq<KvOperation>, n: nat, buckets: seq<(string, seq<nat>)>)
    requires n <= |history|
  {
    (forall b :: 0 <= b < |buckets| ==> buckets[b].1 == IndicesOf(history, n, buckets[b].0))
    && (forall b, c :: 0 <= b < c < |buckets| ==> buckets[b].0 != buckets[c].0)
    && (forall i :: 0 <= i < n ==> HasKey(buckets, history[i].input.key))
  }

  ghost predicate HasKey(buckets: seq<(string, seq<nat>)>, k: string) {
    exists b :: 0 <= b < |buckets| && buckets[b].0 == k
  }

  lemma BucketsGrow(history: seq<KvOperation>, n: nat, buckets: seq<(string, seq<nat>)>, b: nat,
                    buckets2: seq<(string, seq<nat>)>)
    requires n < |history| && Buckets(history, n, buckets) && b <= |buckets|
    requires forall c :: 0 <= c < b ==> buckets[c].0 != history[n].input.key
    requires if b < |buckets| then buckets[b].0 == history[n].input.key
                                   && buckets2 == buckets[b := (buckets[b].0, buckets[b].1 + [n])]
      else buckets2 == buckets + [(history[n].input.key, [n])]
    ensures Buckets(history, n + 1, buckets2)
  {
    var k := history[n].input.key;
    if b == |buckets| { NoIndices(history, n, buckets, k); }
    forall i | 0 <= i < n + 1 ensures HasKey(buckets2, history[i].input.key) {
      if i < n {
        var c :| 0 <= c < |buckets| && buckets[c].0 == history[i].input.key;
        assert buckets2[c].0 == buckets[c].0;
      } else {
        assert buckets2[b].0 == k;
      }
    }
  }

  lemma NoneOrFirst<T>(s: seq<T>)
    ensures s == [] || s[0] in s
  {
  }

  lemma NoIndices(history: seq<KvOperation>, n: nat, buckets: seq<(string, seq<nat>)>, k: string)
    requires n <= |history| && Buckets(history, n, buckets) && forall c :: 0 <= c < |buckets| ==> buckets[c].0 != k
    ensures IndicesOf(history, n, k) == []
  {
    IndicesAre(history, n, k);
    var idx := IndicesOf(history, n, k);
    assert forall i: nat :: i < n ==> HasKey(buckets, history[i].input.key);
    NoneOrFirst(idx);
  }

  method KvPartition(history: seq<KvOperation>) returns (out: seq<seq<nat>>, ghost keys: seq<string>)
    ensures |out| == |keys|
    ensures forall b :: 0 <= b < |out| ==> out[b] == IndicesOf(history, |history|, keys[b])
    ensures forall b, c :: 0 <= b < c < |keys| ==> keys[b] != keys[c]
    ensures forall i :: 0 <= i < |history| ==> history[i].input.key in keys
  {
    var buckets: seq<(string, seq<nat>)> := [];
    for i := 0 to |history|
      invariant Buckets(history, i, buckets)
    {
      var k := history[i].input.key;
      var b := 0;
      while b < |buckets| && buckets[b].0 != k
        invariant b <= |buckets| && forall c :: 0 <= c < b ==> buckets[c].0 != k
      {
        b := b + 1;
      }
      ghost var before := buckets;
      if b == |buckets| {
        buckets := buckets + [(k, [i])];
      } else {
        buckets := buckets[b := (buckets[b].0, buckets[b].1 + [i])];
      }
      BucketsGrow(history, i, before, b, buckets);
    }
    out, keys := [], [];
    for b := 0 to |buckets|
      invariant |out| == |keys| == b
      invariant forall c :: 0 <= c < b ==> out[c] == buckets[c].1 && keys[c] == buckets[c].0
    {
      out := out + [buckets[b].1];
      keys := keys + [buckets[b].0];
    }
    forall i | 0 <= i < |history| ensures history[i].input.key in keys {
      assert HasKey(buckets, history[i].input.key);
      var b :| 0 <= b < |buckets| && buckets[b].0 == history[i].input.key;
      assert keys[b] == history[i].input.key;
    }
  }

  /** Every operation is in exactly one bucket, and there once, in order. */
  lemma ExactlyOneBucket(history: seq<KvOperation>, keys: seq<string>, i: nat) returns (b: nat)
    requires i < |history| && history[i].input.key in keys
    requires forall b, c :: 0 <= b < c < |keys| ==> keys[b] != keys[c]
    ensures b < |keys| && i in IndicesOf(history, |history|, keys[b]) && Rising(IndicesOf(history, |history|, keys[b]))
    ensures forall c :: 0 <= c < |keys| && i in IndicesOf(history, |history|, keys[c]) ==> c == b
  {
    b :| b < |keys| && keys[b] == history[i].input.key;
    IndicesAre(history, |history|, keys[b]);
    forall c | 0 <= c < |keys| && c != b ensures i !in IndicesOf(history, |history|, keys[c]) {
      IndicesAre(history, |history|, keys[c]);
    }
  }

  // --------------------------------------------------------- a bucket's part

  /** The operations of the bucket, as a history of their own. */
  function Sub(history: seq<KvOperation>, idx: seq<nat>): (sub: seq<KvOperation>)
    requires forall j :: 0 <= j < |idx| ==> idx[j] < |history|
    ensures |sub| == |idx| && forall j :: 0 <= j < |idx| ==> sub[j] == history[idx[j]]
  {
    seq(|idx|, j requires 0 <= j < |idx| => history[idx[j]])
  }

  ghost function Image(idx: seq<nat>): set<nat> {
    set i | i in idx
  }

  function Through(idx: seq<nat>, order: seq<nat>): (mapped: seq<nat>)
    requires forall k :: 0 <= k < |order| ==> order[k] < |idx|
    ensures |mapped| == |order| && forall k :: 0 <= k < |order| ==> mapped[k] == idx[order[k]]
  {
    seq(|order|, k requires 0 <= k < |order| => idx[order[k]])
  }

  lemma {:induction false} ThroughLegal<S>(model: Model<KvInput, KvOutput, S>, history: seq<KvOperation>,
                                           idx: seq<nat>, s: S, order: seq<nat>)
    requires (forall j :: 0 <= j < |idx| ==> idx[j] < |history|) && (forall k :: 0 <= k < |order| ==> order[k] < |idx|)
    ensures Legal(model, Sub(history, idx), s, order) == Legal(model, history, s, Through(idx, order))
    decreases |order|
  {
    if order != [] {
      var op := Sub(history, idx)[order[0]];
      var (ok, next) := model.step(s, op.input, op.output);
      assert Through(idx, order)[1..] == Through(idx, order[1..]);
      if ok { ThroughLegal(model, history, idx, next, order[1..]); }
    }
  }

  lemma ThroughReaches(idx: seq<nat>, order: seq<nat>, x: nat)
    requires (forall k :: 0 <= k < |order| ==> order[k] < |idx|) && Lists(order, Below(|idx|)) && x in idx
    ensures x in Through(idx, order)
  {
    BelowIsRange(|idx|);
    var j: nat :| j < |idx| && idx[j] == x;
    assert j in Below(|idx|) && j in order;
    var k :| 0 <= k < |order| && order[k] == j;
    assert Through(idx, order)[k] == x;
  }

  lemma ThroughApart(idx: seq<nat>, order: seq<nat>, i: nat, j: nat)
    requires Rising(idx) && (forall k :: 0 <= k < |order| ==> order[k] < |idx|)
    requires i < |order| && j < |order| && order[i] != order[j]
    ensures idx[order[i]] != idx[order[j]]
  {
    assert order[i] < order[j] || order[j] < order[i];
  }

  lemma ListsThrough(idx: seq<nat>, order: seq<nat>)
    requires Rising(idx) && (forall k :: 0 <= k < |order| ==> order[k] < |idx|) && Lists(order, Below(|idx|))
    ensures Lists(Through(idx, order), Image(idx))
  {
    var mapped := Through(idx, order);
    forall x | x in Image(idx) ensures x in mapped { ThroughReaches(idx, order, x); }
    forall i, j | 0 <= i < j < |mapped| ensures mapped[i] != mapped[j] { ThroughApart(idx, order, i, j); }
  }

  lemma ThroughLists(idx: seq<nat>, order: seq<nat>)
    requires Rising(idx) && (forall k :: 0 <= k < |order| ==> order[k] < |idx|)
    requires Lists(Through(idx, order), Image(idx))
    ensures Lists(order, Below(|idx|))
  {
    BelowIsRange(|idx|);
    var mapped := Through(idx, order);
    forall j: nat | j < |idx| ensures j in order {
      assert idx[j] in Image(idx);
      var k :| 0 <= k < |mapped| && mapped[k] == idx[j];
      assert order[k] == j;
    }
    forall i, j | 0 <= i < j < |order| ensures order[i] != order[j] {
      assert mapped[i] != mapped[j];
    }
  }

  lemma SubToWhole<S>(model: Model<KvInput, KvOutput, S>, history: seq<KvOperation>, idx: seq<nat>, order: seq<nat>)
    requires Rising(idx) && (forall j :: 0 <= j < |idx| ==> idx[j] < |history|)
    requires Within(Sub(history, idx), Below(|idx|)) && Within(history, Image(idx))
    requires Finishes(model, Sub(history, idx), Below(|idx|), model.init, order)
    ensures CanFinish(model, history, Image(idx), model.init)
  {
    ListsThrough(idx, order);
    ThroughLegal(model, history, idx, model.init, order);
    ThroughRealTime(history, idx, order);
    assert Finishes(model, history, Image(idx), model.init, Through(idx, order));
  }

  lemma WholeToSub<S>(model: Model<KvInput, KvOutput, S>, history: seq<KvOperation>, idx: seq<nat>, order: seq<nat>)
    requires Rising(idx) && (forall j :: 0 <= j < |idx| ==> idx[j] < |history|)
    requires Within(Sub(history, idx), Below(|idx|)) && Within(history, Image(idx))
    requires Finishes(model, history, Image(idx), model.init, order)
    ensures CanFinish(model, Sub(history, idx), Below(|idx|), model.init)
  {
    var back := Back(idx, order);
    assert Through(idx, back) == order;
    ThroughLists(idx, back);
    ThroughLegal(model, history, idx, model.init, back);
    ThroughRealTime(history, idx, back);
    assert Finishes(model, Sub(history, idx), Below(|idx|), model.init, back);
  }

  /** A part is linearizable on its own exactly when its operations are in the whole history. */
  lemma SubFinishes<S>(model: Model<KvInput, KvOutput, S>, history: seq<KvOperation>, idx: seq<nat>)
    requires Rising(idx) && (forall j :: 0 <= j < |idx| ==> idx[j] < |history|)
    ensures Within(history, Image(idx))
    ensures Linearizable(model, Sub(history, idx)) <==> CanFinish(model, history, Image(idx), model.init)
  {
    BelowIsRange(|idx|);
    if order :| Finishes(model, Sub(history, idx), Below(|idx|), model.init, order) {
      SubToWhole(model, history, idx, order);
    }
    if CanFinish(model, history, Image(idx), model.init) {
      var order :| Finishes(model, history, Image(idx), model.init, order);
      WholeToSub(model, history, idx, order);
    }
  }

  lemma ThroughRealTime(history: seq<KvOperation>, idx: seq<nat>, order: seq<nat>)
    requires (forall j :: 0 <= j < |idx| ==> idx[j] < |history|) && (forall k :: 0 <= k < |order| ==> order[k] < |idx|)
    ensures RealTime(Sub(history, idx), order) <==> RealTime(history, Through(idx, order))
  {
  }

  ghost function Back(idx: seq<nat>, order: seq<nat>): (back: seq<nat>)
    requires forall k :: 0 <= k < |order| ==> order[k] in idx
    ensures |back| == |order| && forall k :: 0 <= k < |order| ==> back[k] < |idx| && idx[back[k]] == order[k]
  {
    if order == [] then [] else
      var j: nat :| j < |idx| && idx[j] == order[0];
      [j] + Back(idx, order[1..])
  }

  // -------------------------------------------------------------- verdicts

  /** The part of history on key k. */
  function Part(history: seq<KvOperation>, k: string): seq<KvOperation> {
    IndicesBelow(history, |history|, k);
    Sub(history, IndicesOf(history, |history|, k))
  }

  lemma IndicesBelow(history: seq<KvOperation>, n: nat, k: string)
    requires n <= |history|
    ensures forall j :: 0 <= j < |IndicesOf(history, n, k)| ==> IndicesOf(history, n, k)[j] < |history|
  {
    IndicesAre(history, n, k);
    forall j | 0 <= j < |IndicesOf(history, n, k)| ensures IndicesOf(history, n, k)[j] < |history| {
      assert IndicesOf(history, n, k)[j] in IndicesOf(history, n, k);
    }
  }

  /** The history is linearizable against all keys exactly when every key's part is against its own. */
  lemma PartsDecide(history: seq<KvOperation>)
    requires Ordered(history)
    ensures Linearizable(Whole, history) <==> forall k :: Linearizable(Single, Part(history, k))
  {
    BelowIsRange(|history|);
    Locality(history);
    forall k
      ensures Linearizable(Single, Part(history, k))
        <==> CanFinish(Single, history, OfKey(history, Below(|history|), k), "")
    {
      var idx := IndicesOf(history, |history|, k);
      IndicesAre(history, |history|, k);
      IndicesBelow(history, |history|, k);
      SubFinishes(Single, history, idx);
      assert Image(idx) == OfKey(history, Below(|history|), k);
    }
  }

  method PartitionHistory(history: seq<KvOperation>) returns (result: seq<seq<KvOperation>>, ghost keys: seq<string>)
    ensures |result| == |keys| && forall b :: 0 <= b < |keys| ==> result[b] == Part(history, keys[b])
    ensures forall i :: 0 <= i < |history| ==> history[i].input.key in keys
  {
    var indices;
    indices, keys := KvPartition(history);
    result := [];
    for b := 0 to |indices|
      invariant |result| == b && forall c :: 0 <= c < b ==> result[c] == Part(history, keys[c])
    {
      IndicesBelow(history, |history|, keys[b]);
      result := result + [Sub(history, indices[b])];
    }
  }

  /** Some order the sort may give to the entries of a part admits no linearization. */
  ghost predicate PartRefuted(part: seq<KvOperation>) {
    exists marks :: RefutedBy(part, marks)
  }

  ghost predicate RefutedBy(part: seq<KvOperation>, marks: seq<Mark>) {
    MarksOf(part, marks) && !Linearizable(Single, Placed(part, marks))
  }

  /** So the check may answer no. */
  ghost predicate Refutable(history: seq<KvOperation>) {
    exists k :: PartRefuted(Part(history, k))
  }

  /** No operation was issued at the very moment another on the same key was answered. */
  predicate NoKeyTies(history: seq<KvOperation>) {
    forall a: nat, b: nat ::
      a < |history| && b < |history| && history[a].input.key == history[b].input.key
      ==> history[a].ret != history[b].call
  }

  /**
   * The verdict over the parts. The checks run apart and are read in turn; a check is told to
   * stop only after one was read as no, or after the time ran out, and is not read then.
   */
  method CheckParallel(partitions: seq<seq<KvOperation>>, hash: (set<nat>, string) -> nat, timeout: bool)
    returns (r: CheckResult)
    requires forall b :: 0 <= b < |partitions| ==> Answered(partitions[b])
    ensures r == Ok ==> forall b :: 0 <= b < |partitions| ==> Linearizable(Single, partitions[b])
    ensures r == Illegal ==> exists b :: 0 <= b < |partitions| && PartRefuted(partitions[b])
    ensures r == Unknown ==> timeout
  {
    SingleLawful();
    for b := 0 to |partitions|
      invariant forall c :: 0 <= c < b ==> Linearizable(Single, partitions[c])
    {
      var late: bool := *;
      if timeout && late { return Unknown; }
      var head;
      ghost var nodes, marks;
      head, nodes, marks := MakeLinkedEntries(partitions[b]);
      ghost var killed;
      var ok;
      ok, killed := CheckSingle(Single, head, hash, false, nodes, Placed(partitions[b], marks));
      PlacedVerdict(Single, partitions[b], marks);
      if !ok {
        assert RefutedBy(partitions[b], marks);
        return Illegal;
      }
    }
    return Ok;
  }

  lemma PartInherits(history: seq<KvOperation>, k: string)
    ensures Answered(history) ==> Answered(Part(history, k))
    ensures NoKeyTies(history) ==> NoTies(Part(history, k))
  {
    IndicesAre(history, |history|, k);
    IndicesBelow(history, |history|, k);
    var sub, idx := Part(history, k), IndicesOf(history, |history|, k);
    forall o: nat | o < |sub| ensures sub[o] == history[idx[o]] && sub[o].input.key == k { assert idx[o] in idx; }
  }

  /** A key that no operation touches has an empty part. */
  lemma IdleKey(history: seq<KvOperation>, k: string)
    requires forall i :: 0 <= i < |history| ==> history[i].input.key != k
    ensures Linearizable(Single, Part(history, k))
  {
    IndicesAre(history, |history|, k);
    var idx := IndicesOf(history, |history|, k);
    NoneOrFirst(idx);
    EmptyFinishes(Single, Part(history, k), "");
  }

  /** Without ties on a key, a part that some order of the entries refutes refutes the history. */
  lemma RefutedWhole(history: seq<KvOperation>)
    requires Answered(history) && NoKeyTies(history) && Refutable(history)
    ensures !Linearizable(Whole, history)
  {
    var k :| PartRefuted(Part(history, k));
    var marks :| RefutedBy(Part(history, k), marks);
    PartInherits(history, k);
    PlacedVerdict(Single, Part(history, k), marks);
    PartsDecide(history);
  }

  /**
   * The whole check: Ok is given only to histories that are linearizable against the map of
   * all keys; Illegal only where some order of the entries refutes some part, which without
   * ties on a key means that the history is not; and without a time limit there is always an
   * answer.
   */
  method CheckOperations(history: seq<KvOperation>, hash: (set<nat>, string) -> nat, timeout: bool)
    returns (r: CheckResult)
    requires Answered(history)
    ensures r == Ok ==> Linearizable(Whole, history)
    ensures r == Illegal ==> Refutable(history)
    ensures r == Illegal && NoKeyTies(history) ==> !Linearizable(Whole, history)
    ensures r == Unknown ==> timeout
  {
    if history == [] {
      EmptyFinishes(Whole, history, map[]);
      return Ok;
    }
    var partitions;
    ghost var keys;
    partitions, keys := PartitionHistory(history);
    forall b | 0 <= b < |keys| ensures Answered(partitions[b]) { PartInherits(history, keys[b]); }
    r := CheckParallel(partitions, hash, timeout);
    PartsDecide(history);
    if r == Ok {
      forall k ensures Linearizable(Single, Part(history, k)) {
        if k in keys {
          var b :| 0 <= b < |keys| && keys[b] == k;
          assert Linearizable(Single, partitions[b]);
        } else {
          IdleKey(history, k);
        }
      }
    }
    if r == Illegal {
      ghost var b :| 0 <= b < |partitions| && PartRefuted(partitions[b]);
      assert PartRefuted(Part(history, keys[b]));
      if NoKeyTies(history) { RefutedWhole(history); }
    }
  }

  const TiedWrite: KvOperation := Operation(KvInput(PUT, "k", "1"), KvOutput(""), 0, 1)
  const TiedRead: KvOperation := Operation(KvInput(GET, "k", ""), KvOutput(""), 1, 2)
  const TiedMarks: seq<Mark> := [Mark(true, 0, 0), Mark(false, 0, 1), Mark(true, 1, 1), Mark(false, 1, 2)]

  lemma TiedMarksOf()
    ensures MarksOf([TiedWrite, TiedRead], TiedMarks)
  {
    var history, marks := [TiedWrite, TiedRead], TiedMarks;
    assert marks[0] == CallMark(history, 0) && marks[1] == ReturnMark(history, 0);
    assert marks[2] == CallMark(history, 1) && marks[3] == ReturnMark(history, 1);
    forall o: nat | o < |history| ensures CallMark(history, o) in marks && ReturnMark(history, o) in marks {
      assert o == 0 || o == 1;
    }
  }

  lemma OverlapIsFine()
    ensures Linearizable(Single, [TiedWrite, TiedRead])
  {
    var history := [TiedWrite, TiedRead];
    BelowIsRange(2);
    var both := Below(2);
    EmptyFinishes(Single, history, "1");
    assert both - {1} - {0} == {};
    TakeFirst(Single, history, both - {1}, "", 0);
    TakeFirst(Single, history, both, "", 1);
  }

  /** A write answered before the read was issued hides the empty value. */
  lemma StaleReadRefuted(ops: seq<KvOperation>)
    requires |ops| == 2 && ops[0].input == TiedWrite.input && ops[1].input == TiedRead.input
    requires ops[1].output == TiedRead.output
    requires ops[0].call <= ops[0].ret < ops[1].call <= ops[1].ret
    ensures !Linearizable(Single, ops)
  {
    BelowIsRange(2);
    var both := Below(2);
    assert 0 in both && 1 in both && Precedes(ops, 0, 1);
    AllRefuted(Single, ops, both - {0}, "1");
    AllRefuted(Single, ops, both, "");
  }

  /**
   * With a tie the entries may come in an order that time does not demand: a read that
   * overlaps the write before it by one instant is linearizable by time, and not by the
   * entries when the write's return sorts before the read's call.
   */
  lemma TiesCanMislead() returns (history: seq<KvOperation>, marks: seq<Mark>)
    ensures Answered(history) && MarksOf(history, marks) && !NoTies(history)
    ensures Linearizable(Single, history) && !Linearizable(Single, Placed(history, marks))
  {
    history, marks := [TiedWrite, TiedRead], TiedMarks;
    TiedMarksOf();
    OverlapIsFine();
    assert history[0].ret == history[1].call;
    var ops := Placed(history, marks);
    assert ops[0] == PlacedAt(history, marks, 0) && ops[1] == PlacedAt(history, marks, 1);
    StaleReadRefuted(ops);
  }
}
