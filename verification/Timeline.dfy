/**
 * From a timed history to the linked entries: the call and return marks sorted by time,
 * one node each, chained from the back.
 */
module Timeline {
  import opened OrderStatistics
  import opened Linearizability
  import opened LinkedEntries
  import opened Sequences
  import opened Checker

  datatype Mark = Mark(isCall: bool, op: nat, time: int)

  function CallMark<I, O>(history: seq<Operation<I, O>>, o: nat): Mark
    requires o < |history|
  {
    Mark(true, o, history[o].call)
  }

  function ReturnMark<I, O>(history: seq<Operation<I, O>>, o: nat): Mark
    requires o < |history|
  {
    Mark(false, o, history[o].ret)
  }

  /** marks are the two marks of every operation, ordered by time. */
  ghost predicate MarksOf<I, O>(history: seq<Operation<I, O>>, marks: seq<Mark>) {
    |marks| == 2 * |history| && Chronological(marks) && AllMarked(history, marks)
    && (forall p: nat :: p < |marks| ==> MarkOK(history, marks[p]))
    && (forall p: nat, q: nat :: p < q < |marks| ==> marks[p] != marks[q])
  }

  predicate Chronological(marks: seq<Mark>) {
    forall p: nat, q: nat :: p <= q < |marks| ==> marks[p].time <= marks[q].time
  }

  ghost predicate AllMarked<I, O>(history: seq<Operation<I, O>>, marks: seq<Mark>) {
    forall o: nat :: o < |history| ==> CallMark(history, o) in marks && ReturnMark(history, o) in marks
  }

  predicate MarkOK<I, O>(history: seq<Operation<I, O>>, m: Mark) {
    m.op < |history| && m == if m.isCall then CallMark(history, m.op) else ReturnMark(history, m.op)
  }

  ghost function Place(marks: seq<Mark>, m: Mark): (p: nat)
    requires m in marks
    ensures p < |marks| && marks[p] == m
  {
    var p: nat :| p < |marks| && marks[p] == m;
    p
  }

  /** The history with the places of its marks for times. */
  ghost function Placed<I, O>(history: seq<Operation<I, O>>, marks: seq<Mark>): (ops: seq<Operation<I, O>>)
    requires AllMarked(history, marks)
    ensures |ops| == |history|
    ensures forall o: nat :: o < |ops| ==> ops[o] == PlacedAt(history, marks, o)
  {
    seq(|history|, o requires 0 <= o < |history| => PlacedAt(history, marks, o))
  }

  ghost function PlacedAt<I, O>(history: seq<Operation<I, O>>, marks: seq<Mark>, o: nat): Operation<I, O>
    requires AllMarked(history, marks) && o < |history|
  {
    history[o].(call := Place(marks, CallMark(history, o)), ret := Place(marks, ReturnMark(history, o)))
  }

  /** Every operation was issued strictly before it was answered. */
  predicate Answered<I, O>(history: seq<Operation<I, O>>) {
    forall o: nat :: o < |history| ==> history[o].call < history[o].ret
  }

  /** No operation was issued at the very moment another was answered. */
  predicate NoTies<I, O>(history: seq<Operation<I, O>>) {
    forall a: nat, b: nat :: a < |history| && b < |history| ==> history[a].ret != history[b].call
  }

  // ------------------------------------------------------------- the verdict

  /** Times and places order the operations alike, but for ties. */
  lemma PlacesFollowTime<I, O>(history: seq<Operation<I, O>>, marks: seq<Mark>, a: nat, b: nat)
    requires MarksOf(history, marks) && a < |history| && b < |history|
    ensures Precedes(history, a, b) ==> Precedes(Placed(history, marks), a, b)
    ensures Precedes(Placed(history, marks), a, b) ==> history[a].ret <= history[b].call
  {
    var r, c := Place(marks, ReturnMark(history, a)), Place(marks, CallMark(history, b));
    assert marks[r].time == history[a].ret && marks[c].time == history[b].call;
    if r < c { assert marks[r].time <= marks[c].time; } else { assert marks[c].time <= marks[r].time; }
    assert Placed(history, marks)[a] == PlacedAt(history, marks, a);
    assert Placed(history, marks)[b] == PlacedAt(history, marks, b);
  }

  lemma {:induction false} PlacedLegal<I, O, S>(model: Model<I, O, S>, history: seq<Operation<I, O>>,
                                                ops: seq<Operation<I, O>>, state: S, order: seq<nat>)
    requires |ops| == |history| && (forall k :: 0 <= k < |order| ==> order[k] < |ops|)
    requires forall o: nat :: o < |ops| ==> ops[o].input == history[o].input && ops[o].output == history[o].output
    ensures Legal(model, history, state, order) == Legal(model, ops, state, order)
    decreases |order|
  {
    if order != [] {
      var (ok, next) := model.step(state, ops[order[0]].input, ops[order[0]].output);
      if ok { PlacedLegal(model, history, ops, next, order[1..]); }
    }
  }

  ghost predicate SameWork<I, O>(ops: seq<Operation<I, O>>, history: seq<Operation<I, O>>) {
    |ops| == |history|
    && forall o: nat :: o < |ops| ==> ops[o].input == history[o].input && ops[o].output == history[o].output
  }

  ghost predicate Stricter<I, O>(ops: seq<Operation<I, O>>, history: seq<Operation<I, O>>) {
    |ops| == |history|
    && forall a: nat, b: nat :: a < |ops| && b < |ops| && Precedes(history, a, b) ==> Precedes(ops, a, b)
  }

  /** What is linearizable under a stricter order is linearizable. */
  lemma StricterLinearizable<I, O, S>(model: Model<I, O, S>, ops: seq<Operation<I, O>>, history: seq<Operation<I, O>>)
    requires SameWork(ops, history) && Stricter(ops, history) && Linearizable(model, ops)
    ensures Linearizable(model, history)
  {
    BelowIsRange(|history|);
    var order :| Finishes(model, ops, Below(|history|), model.init, order);
    PlacedLegal(model, history, ops, model.init, order);
    assert Finishes(model, history, Below(|history|), model.init, order);
  }

  /** Linearizable by entry order is linearizable by time; without ties the two agree. */
  lemma PlacedVerdict<I, O, S>(model: Model<I, O, S>, history: seq<Operation<I, O>>, marks: seq<Mark>)
    requires MarksOf(history, marks)
    ensures Linearizable(model, Placed(history, marks)) ==> Linearizable(model, history)
    ensures NoTies(history) && Linearizable(model, history) ==> Linearizable(model, Placed(history, marks))
  {
    var ops := Placed(history, marks);
    forall a: nat, b: nat | a < |history| && b < |history|
      ensures Precedes(history, a, b) ==> Precedes(ops, a, b)
      ensures Precedes(ops, a, b) && NoTies(history) ==> Precedes(history, a, b)
    {
      PlacesFollowTime(history, marks, a, b);
    }
    assert SameWork(ops, history) && Stricter(ops, history) && (NoTies(history) ==> Stricter(history, ops));
    if Linearizable(model, ops) { StricterLinearizable(model, ops, history); }
    if NoTies(history) && Linearizable(model, history) { StricterLinearizable(model, history, ops); }
  }

  // ------------------------------------------------------------ the marks

  function AllMarks<I, O>(history: seq<Operation<I, O>>, n: nat): seq<Mark>
    requires n <= |history|
  {
    if n == 0 then [] else AllMarks(history, n - 1) + [CallMark(history, n - 1), ReturnMark(history, n - 1)]
  }

  lemma {:induction false} AllMarksLength<I, O>(history: seq<Operation<I, O>>, n: nat)
    requires n <= |history|
    ensures |AllMarks(history, n)| == 2 * n
  {
    if n > 0 { AllMarksLength(history, n - 1); }
  }

  lemma PairCounted(before: seq<Mark>, c: Mark, r: Mark, m: Mark)
    requires c != r
    ensures multiset(before + [c, r])[m] == multiset(before)[m] + if m == c || m == r then 1 else 0
  {
    assert before + [c, r] == before + [c] + [r];
  }

  lemma {:induction false} AllMarksOnce<I, O>(history: seq<Operation<I, O>>, n: nat, m: Mark)
    requires n <= |history|
    ensures multiset(AllMarks(history, n))[m] == if m.op < n && MarkOK(history, m) then 1 else 0
  {
    if n > 0 {
      AllMarksOnce(history, n - 1, m);
      PairCounted(AllMarks(history, n - 1), CallMark(history, n - 1), ReturnMark(history, n - 1), m);
    }
  }

  lemma TwiceCounted<T>(s: seq<T>, p: nat, q: nat)
    requires p < q < |s| && s[p] == s[q]
    ensures multiset(s)[s[p]] >= 2
  {
    assert s == s[..q] + [s[q]] + s[q + 1..];
    assert s[p] in multiset(s[..q]);
    assert s[..q][p] == s[p];
  }

  /** A sorted rearrangement of all marks is what the entries need. */
  lemma {:induction false} SortedMarks<I, O>(history: seq<Operation<I, O>>, marks: seq<Mark>)
    requires multiset(marks) == multiset(AllMarks(history, |history|)) && Chronological(marks)
    ensures MarksOf(history, marks)
  {
    var n, all := |history|, AllMarks(history, |history|);
    AllMarksLength(history, n);
    assert |multiset(marks)| == |marks| && |multiset(all)| == |all|;
    forall p: nat | p < |marks| ensures MarkOK(history, marks[p]) {
      AllMarksOnce(history, n, marks[p]);
      assert marks[p] in multiset(marks);
    }
    forall p: nat, q: nat | p < q < |marks| ensures marks[p] != marks[q] {
      AllMarksOnce(history, n, marks[p]);
      if marks[p] == marks[q] { TwiceCounted(marks, p, q); }
    }
    forall o: nat | o < n ensures CallMark(history, o) in marks && ReturnMark(history, o) in marks {
      AllMarksOnce(history, n, CallMark(history, o));
      AllMarksOnce(history, n, ReturnMark(history, o));
      assert CallMark(history, o) in multiset(marks) && ReturnMark(history, o) in multiset(marks);
    }
  }

  lemma InsertKeeps(s: seq<Mark>, k: nat, x: Mark)
    requires k <= |s| && Chronological(s)
    requires (forall p: nat :: p < k ==> s[p].time <= x.time) && (forall p: nat :: k <= p < |s| ==> x.time <= s[p].time)
    ensures Chronological(s[..k] + [x] + s[k..]) && multiset(s[..k] + [x] + s[k..]) == multiset(s) + multiset{x}
  {
    assert s == s[..k] + s[k..];
  }

  /** Sorting by time; what follows relies only on the result being a sorted rearrangement. */
  method SortByTime(a: seq<Mark>) returns (s: seq<Mark>)
    ensures multiset(s) == multiset(a) && Chronological(s)
  {
    s := [];
    for i := 0 to |a|
      invariant multiset(s) == multiset(a[..i]) && Chronological(s)
    {
      var k: nat := |s|;
      while k > 0 && s[k - 1].time > a[i].time
        invariant k <= |s| && forall p: nat :: k <= p < |s| ==> s[p].time > a[i].time
      {
        k := k - 1;
      }
      InsertKeeps(s, k, a[i]);
      s := s[..k] + [a[i]] + s[k..];
      assert a[..i + 1] == a[..i] + [a[i]];
    }
    assert a[..|a|] == a;
  }

  // ----------------------------------------------------------- the entries

  /** e is the node of mark p; a call's partner is its operation's return node. */
  ghost predicate NodeOK<I, O>(history: seq<Operation<I, O>>, marks: seq<Mark>, rets: seq<Entry?<I, O>>, p: nat,
                               e: Entry<I, O>)
    requires p < |marks|
  {
    e.pos == p && e.isCall == marks[p].isCall && e.id == marks[p].op && e.id < |history| && e.op == history[e.id]
    && e.id < |rets| && (if e.isCall then e.partner == rets[e.id] else e == rets[e.id] && e.partner == null)
  }

  /** The return nodes of the marks before i have been made, and are not chained yet. */
  ghost predicate RetsMade<I, O>(history: seq<Operation<I, O>>, marks: seq<Mark>, rets: seq<Entry?<I, O>>, i: nat)
    requires i <= |marks|
  {
    |rets| == |history|
    && forall p: nat :: p < i && !marks[p].isCall && marks[p].op < |rets| ==>
      rets[marks[p].op] != null && NodeOK(history, marks, rets, p, rets[marks[p].op])
  }

  /** front is chained in itself and ends at e. */
  ghost predicate ChainedTo<I, O>(front: seq<Entry<I, O>>, e: Entry<I, O>)
    reads front, e
  {
    (forall k, l :: 0 <= k && l == k + 1 && l < |front| ==> front[k].next == front[l] && front[l].prev == front[k])
    && (front != [] ==> front[|front| - 1].next == e && e.prev == front[|front| - 1])
  }

  /** Puts n between front and the part of the list that starts at mark. */
  method InsertBefore<I, O>(n: Entry<I, O>, mark: Entry?<I, O>, ghost front: seq<Entry<I, O>>,
                            ghost back: seq<Entry<I, O>>)
    returns (root: Entry<I, O>)
    requires n.next == null && n.prev == null && n !in front && n !in back && Distinct(front)
    requires forall e :: e in front ==> e !in back
    requires if mark == null then front == [] && back == []
             else back != [] && mark == back[0] && Linked(back) && ChainedTo(front, mark)
    requires front == [] && mark != null ==> mark.prev == null
    modifies n, front, back
    ensures root == n && Linked(front + [n] + back) && (front == [] ==> n.prev == null)
  {
    if mark != null {
      var beforeMark := mark.prev;
      mark.prev := n;
      n.next := mark;
      if beforeMark != null {
        n.prev := beforeMark;
        beforeMark.next := n;
      }
    }
    forall a, b | 0 <= a < |front| && 0 <= b < |back| ensures front[a] != back[b] {
      assert front[a] in front && back[b] in back;
    }
    ghost var list := front + [n] + back;
    assert forall k :: 0 <= k < |front| ==> list[k] == front[k];
    assert forall k :: |front| < k < |list| ==> list[k] == back[k - |front| - 1];
    assert back != [] ==> list[|front| + 1] == mark;
    return n;
  }

  method MakeReturns<I, O>(history: seq<Operation<I, O>>, marks: seq<Mark>) returns (rets: seq<Entry?<I, O>>)
    requires MarksOf(history, marks)
    ensures RetsMade(history, marks, rets, |marks|)
    ensures forall o: nat :: o < |rets| ==>
      rets[o] != null && fresh(rets[o]) && rets[o].prev == null && rets[o].next == null
  {
    rets := seq(|history|, o => null);
    for i := 0 to |marks|
      invariant RetsMade(history, marks, rets, i)
      invariant forall o: nat :: o < |rets| && rets[o] != null ==>
        fresh(rets[o]) && rets[o].prev == null && rets[o].next == null
    {
      var m := marks[i];
      assert MarkOK(history, m);
      if !m.isCall {
        var ret := new Entry(false, m.op, history[m.op], null, i);
        rets := rets[m.op := ret];
      }
    }
    forall o: nat | o < |rets| ensures rets[o] != null {
      assert marks[Place(marks, ReturnMark(history, o))] == ReturnMark(history, o);
    }
  }

  /** The nodes from mark i on are made. */
  ghost predicate NodesMade<I, O>(history: seq<Operation<I, O>>, marks: seq<Mark>, rets: seq<Entry?<I, O>>, i: nat,
                                  nodes: seq<Entry<I, O>>) {
    i + |nodes| == |marks| && forall k: nat :: k < |nodes| ==> NodeOK(history, marks, rets, i + k, nodes[k])
  }

  lemma NodesAreEntries<I, O>(history: seq<Operation<I, O>>, marks: seq<Mark>, rets: seq<Entry?<I, O>>,
                              nodes: seq<Entry<I, O>>)
    requires MarksOf(history, marks) && Answered(history)
    requires NodesMade(history, marks, rets, 0, nodes)
    ensures Entries(nodes, Placed(history, marks))
  {
    var ops := Placed(history, marks);
    forall o: nat | o < |ops| ensures PairAt(nodes, ops, o) && nodes[ops[o].ret] == rets[o] {
      var c, r := Place(marks, CallMark(history, o)), Place(marks, ReturnMark(history, o));
      assert ops[o] == PlacedAt(history, marks, o);
      assert NodeOK(history, marks, rets, c, nodes[c]) && NodeOK(history, marks, rets, r, nodes[r]);
    }
    forall p: nat | p < |nodes| ensures EntryAt(nodes, ops, p) {
      var e := nodes[p];
      assert NodeOK(history, marks, rets, p, e) && MarkOK(history, marks[p]);
      assert PairAt(nodes, ops, e.id) && ops[e.id] == PlacedAt(history, marks, e.id);
      var q := Place(marks, marks[p]);
      assert q == p;
    }
  }

  /** The return nodes of the marks before i are not chained yet. */
  ghost predicate Unchained<I, O>(marks: seq<Mark>, rets: seq<Entry?<I, O>>, i: nat)
    requires i <= |marks|
    reads rets
  {
    forall p: nat :: p < i && !marks[p].isCall ==> LooseAt(marks, rets, p)
  }

  ghost predicate LooseAt<I, O>(marks: seq<Mark>, rets: seq<Entry?<I, O>>, p: nat)
    requires p < |marks|
    reads rets
  {
    marks[p].op < |rets| && rets[marks[p].op] != null && rets[marks[p].op].pos == p && Loose(rets[marks[p].op])
  }

  ghost predicate Loose<I, O>(e: Entry?<I, O>)
    reads e
  {
    e != null && e.prev == null && e.next == null
  }

  lemma NodesLater<I, O>(history: seq<Operation<I, O>>, marks: seq<Mark>, rets: seq<Entry?<I, O>>, i: nat,
                         nodes: seq<Entry<I, O>>)
    requires NodesMade(history, marks, rets, i, nodes)
    ensures forall k: nat :: k < |nodes| ==> nodes[k].pos == i + k
  {
    forall k: nat | k < |nodes| ensures nodes[k].pos == i + k { assert NodeOK(history, marks, rets, i + k, nodes[k]); }
  }

  lemma NodesGrow<I, O>(history: seq<Operation<I, O>>, marks: seq<Mark>, rets: seq<Entry?<I, O>>, i: nat,
                        nodes: seq<Entry<I, O>>, n: Entry<I, O>)
    requires NodesMade(history, marks, rets, i + 1, nodes) && i < |marks| && NodeOK(history, marks, rets, i, n)
    ensures NodesMade(history, marks, rets, i, [n] + nodes)
  {
    forall k: nat | k < |nodes| + 1 ensures NodeOK(history, marks, rets, i + k, ([n] + nodes)[k]) {
      if k > 0 { assert NodeOK(history, marks, rets, i + 1 + (k - 1), nodes[k - 1]); }
    }
  }

  /** The node of mark i: a new one for a call, the one already made for a return. */
  method NodeFor<I, O>(history: seq<Operation<I, O>>, marks: seq<Mark>, rets: seq<Entry?<I, O>>, i: nat)
    returns (n: Entry<I, O>)
    requires MarksOf(history, marks) && i < |marks| && RetsMade(history, marks, rets, |marks|)
    requires Unchained(marks, rets, i + 1)
    ensures NodeOK(history, marks, rets, i, n) && Loose(n)
    ensures if marks[i].isCall then fresh(n) else n == rets[marks[i].op]
  {
    var m := marks[i];
    assert MarkOK(history, m);
    if m.isCall {
      n := new Entry(true, m.op, history[m.op], rets[m.op], i);
    } else {
      n := rets[m.op];
    }
  }

  method PutFirst<I, O>(n: Entry<I, O>, first: Entry?<I, O>, ghost nodes: seq<Entry<I, O>>) returns (root: Entry<I, O>)
    requires n !in nodes && Loose(n)
    requires if nodes == [] then first == null else first == nodes[0] && Linked(nodes) && first.prev == null
    modifies n, nodes
    ensures root == n && Linked([n] + nodes) && n.prev == null
  {
    assert [] + [n] + nodes == [n] + nodes;
    root := InsertBefore(n, first, [], nodes);
  }

  /** Chains the node of mark i in front; the earlier return nodes are untouched. */
  method ChainOne<I, O>(ghost marks: seq<Mark>, ghost rets: seq<Entry?<I, O>>, ghost i: nat, n: Entry<I, O>,
                        first: Entry?<I, O>, ghost nodes: seq<Entry<I, O>>) returns (root: Entry<I, O>)
    requires i < |marks| && Unchained(marks, rets, i + 1) && n.pos == i && Loose(n)
    requires forall k: nat :: k < |nodes| ==> nodes[k].pos > i
    requires if nodes == [] then first == null else first == nodes[0] && Linked(nodes) && first.prev == null
    modifies n, nodes
    ensures root == n && Linked([n] + nodes) && n.prev == null && Unchained(marks, rets, i)
  {
    root := PutFirst(n, first, nodes);
    forall p: nat | p < i && !marks[p].isCall ensures LooseAt(marks, rets, p) {
      assert old(LooseAt(marks, rets, p));
    }
  }

  /** Chains the nodes from the last mark to the first. */
  method Chain<I, O>(history: seq<Operation<I, O>>, entries: seq<Mark>, rets: seq<Entry?<I, O>>,
                     ghost pool: set<Entry<I, O>>)
    returns (root: Entry?<I, O>, ghost nodes: seq<Entry<I, O>>)
    requires MarksOf(history, entries) && RetsMade(history, entries, rets, |entries|)
    requires Unchained(entries, rets, |entries|)
    requires forall e: Entry<I, O> :: e in rets ==> e in pool
    modifies pool
    ensures NodesMade(history, entries, rets, 0, nodes)
    ensures if nodes == [] then root == null else root == nodes[0] && Linked(nodes)
    ensures forall e :: e in nodes ==> fresh(e) || e in pool
  {
    root, nodes := null, [];
    var i: nat := |entries|;
    while i > 0
      invariant i <= |entries| && NodesMade(history, entries, rets, i, nodes)
      invariant if nodes == [] then root == null else root == nodes[0] && Linked(nodes) && root.prev == null
      invariant forall e :: e in nodes ==> fresh(e) || e in pool
      invariant Unchained(entries, rets, i)
    {
      i := i - 1;
      var n := NodeFor(history, entries, rets, i);
      assert fresh(n) || n in pool;
      NodesLater(history, entries, rets, i + 1, nodes);
      NodesGrow(history, entries, rets, i, nodes, n);
      root := ChainOne(entries, rets, i, n, root, nodes);
      nodes := [n] + nodes;
    }
  }

  method MakeMarks<I, O>(history: seq<Operation<I, O>>) returns (entries: seq<Mark>)
    ensures entries == AllMarks(history, |history|)
  {
    entries := [];
    for i := 0 to |history|
      invariant entries == AllMarks(history, i)
    {
      entries := entries + [Mark(true, i, history[i].call), Mark(false, i, history[i].ret)];
    }
  }

  lemma AllLoose<I, O>(history: seq<Operation<I, O>>, marks: seq<Mark>, rets: seq<Entry?<I, O>>)
    requires MarksOf(history, marks) && RetsMade(history, marks, rets, |marks|)
    requires forall o: nat :: o < |rets| ==> rets[o] != null && Loose(rets[o])
    ensures Unchained(marks, rets, |marks|)
  {
    forall p: nat | p < |marks| && !marks[p].isCall ensures LooseAt(marks, rets, p) {
      assert MarkOK(history, marks[p]);
    }
  }

  /** The chained entries of a history, in time order. */
  method MakeLinkedEntries<I, O>(history: seq<Operation<I, O>>)
    returns (root: Entry?<I, O>, ghost nodes: seq<Entry<I, O>>, ghost marks: seq<Mark>)
    requires Answered(history)
    ensures MarksOf(history, marks) && Entries(nodes, Placed(history, marks))
    ensures if nodes == [] then root == null else root == nodes[0] && Linked(nodes)
    ensures fresh(nodes)
  {
    var entries := MakeMarks(history);
    entries := SortByTime(entries);
    marks := entries;
    SortedMarks(history, marks);
    var rets := MakeReturns(history, entries);
    AllLoose(history, marks, rets);
    root, nodes := Chain(history, entries, rets, set e: Entry<I, O> | e in rets);
    NodesAreEntries(history, marks, rets, nodes);
  }
}
