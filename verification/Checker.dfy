/**
 * The backtracking linearizability checker: an explicit stack of lifted calls over the
 * linked entries. At every loop head the list is the entry sequence without the lifted
 * operations.
 */
module Checker {
  import opened OrderStatistics
  import opened Linearizability
  import opened LinkedEntries
  import opened Sequences
  import opened Search

  /**
   * nodes are the entry objects in entry order; the operations are timed by the places of
   * their entries.
   */
  ghost predicate Entries<I, O>(nodes: seq<Entry<I, O>>, ops: seq<Operation<I, O>>) {
    |nodes| == 2 * |ops|
    && (forall p: nat :: p < |nodes| ==> EntryAt(nodes, ops, p))
    && (forall o: nat :: o < |ops| ==> PairAt(nodes, ops, o))
  }

  ghost predicate EntryAt<I, O>(nodes: seq<Entry<I, O>>, ops: seq<Operation<I, O>>, p: nat)
    requires p < |nodes|
  {
    var e := nodes[p];
    e.pos == p && e.id < |ops| && p == (if e.isCall then ops[e.id].call else ops[e.id].ret)
    && e.op.input == ops[e.id].input && e.op.output == ops[e.id].output
    && (e.isCall ==> 0 <= ops[e.id].ret < |nodes| && e.partner == nodes[ops[e.id].ret])
    && (!e.isCall ==> e.partner == null)
  }

  ghost predicate PairAt<I, O>(nodes: seq<Entry<I, O>>, ops: seq<Operation<I, O>>, o: nat)
    requires o < |ops|
  {
    0 <= ops[o].call < ops[o].ret < |nodes|
    && nodes[ops[o].call].isCall && nodes[ops[o].call].id == o
    && !nodes[ops[o].ret].isCall && nodes[ops[o].ret].id == o
  }

  /** e is the node at its own position. */
  ghost predicate Belongs<I, O>(nodes: seq<Entry<I, O>>, e: Entry<I, O>) {
    e.pos < |nodes| && nodes[e.pos] == e
  }

  ghost function CallOf<I, O>(nodes: seq<Entry<I, O>>, ops: seq<Operation<I, O>>, o: nat): (e: Entry<I, O>)
    requires Entries(nodes, ops) && o < |ops|
    ensures Belongs(nodes, e) && e.isCall && e.id == o && e.pos == ops[o].call
  {
    assert PairAt(nodes, ops, o) && EntryAt(nodes, ops, ops[o].call);
    nodes[ops[o].call]
  }

  ghost function ReturnOf<I, O>(nodes: seq<Entry<I, O>>, ops: seq<Operation<I, O>>, o: nat): (e: Entry<I, O>)
    requires Entries(nodes, ops) && o < |ops|
    ensures Belongs(nodes, e) && !e.isCall && e.id == o && e.pos == ops[o].ret
  {
    assert PairAt(nodes, ops, o) && EntryAt(nodes, ops, ops[o].ret);
    nodes[ops[o].ret]
  }

  // ------------------------------------------------- lists and what is left

  /** list is sentinel followed by the entries of the operations in rem, in entry order. */
  ghost predicate Represents<I, O>(nodes: seq<Entry<I, O>>, ops: seq<Operation<I, O>>, sentinel: Entry<I, O>,
                                   list: seq<Entry<I, O>>, rem: set<nat>)
    requires Entries(nodes, ops)
  {
    |list| >= 1 && list[0] == sentinel && sentinel !in nodes
    && (forall k :: 1 <= k < |list| ==> Belongs(nodes, list[k]) && list[k].id in rem)
    && (forall k, l :: 1 <= k < l < |list| ==> list[k].pos < list[l].pos)
    && (forall o :: o in rem ==> o < |ops|)
    && (forall o {:trigger CallOf(nodes, ops, o)} {:trigger ReturnOf(nodes, ops, o)} ::
          o in rem ==> CallOf(nodes, ops, o) in list && ReturnOf(nodes, ops, o) in list)
  }

  lemma Known<I, O>(nodes: seq<Entry<I, O>>, ops: seq<Operation<I, O>>, e: Entry<I, O>)
    requires Entries(nodes, ops) && Belongs(nodes, e)
    ensures e.id < |ops| && e == if e.isCall then CallOf(nodes, ops, e.id) else ReturnOf(nodes, ops, e.id)
    ensures e.isCall ==> e.partner == ReturnOf(nodes, ops, e.id)
    ensures e.isCall <==> e.partner != null
    ensures e.op.input == ops[e.id].input && e.op.output == ops[e.id].output
  {
    assert EntryAt(nodes, ops, e.pos);
  }

  lemma RepresentsDistinct<I, O>(nodes: seq<Entry<I, O>>, ops: seq<Operation<I, O>>, sentinel: Entry<I, O>,
                                 list: seq<Entry<I, O>>, rem: set<nat>)
    requires Entries(nodes, ops) && Represents(nodes, ops, sentinel, list, rem)
    ensures Distinct(list)
  {
  }

  /** A listed call has its return further down. */
  lemma ReturnFollows<I, O>(nodes: seq<Entry<I, O>>, ops: seq<Operation<I, O>>, sentinel: Entry<I, O>,
                            list: seq<Entry<I, O>>, rem: set<nat>, i: nat) returns (j: nat)
    requires Entries(nodes, ops) && Represents(nodes, ops, sentinel, list, rem) && 1 <= i < |list| && list[i].isCall
    ensures i < j < |list| && list[j] == list[i].partner
  {
    var o := list[i].id;
    Known(nodes, ops, list[i]);
    var r := ReturnOf(nodes, ops, o);
    j :| 0 <= j < |list| && list[j] == r;
    assert PairAt(nodes, ops, o);
  }

  /** Order survives a removal. */
  lemma RemovedOrdered<I, O>(list: seq<Entry<I, O>>, i: nat, rest: seq<Entry<I, O>>)
    requires Removed(list, i, rest) && 1 <= i && forall k, l :: 1 <= k < l < |list| ==> list[k].pos < list[l].pos
    ensures forall k, l :: 1 <= k < l < |rest| ==> rest[k].pos < rest[l].pos
  {
    RemovedKeeps(list, i, rest);
  }

  lemma PairRemovedKeeps<I, O>(list: seq<Entry<I, O>>, i: nat, j: nat, mid: seq<Entry<I, O>>, rest: seq<Entry<I, O>>)
    requires PairRemoved(list, i, j, mid, rest) && Distinct(list)
    requires forall k, l :: 1 <= k < l < |list| ==> list[k].pos < list[l].pos
    ensures |rest| >= 1 && rest[0] == list[0] && Distinct(rest)
    ensures forall e :: e in rest ==> e in list && e != list[i] && e != list[j]
    ensures forall e :: e in list && e != list[i] && e != list[j] ==> e in rest
    ensures forall k, l :: 1 <= k < l < |rest| ==> rest[k].pos < rest[l].pos
  {
    RemovedKeeps(list, i, mid);
    assert mid[j - 1] == list[j];
    RemovedKeeps(mid, j - 1, rest);
    RemovedOrdered(list, i, mid);
    RemovedOrdered(mid, j - 1, rest);
  }

  /** Taking an operation's two entries out leaves the list of the others. */
  lemma RepresentsRest<I, O>(nodes: seq<Entry<I, O>>, ops: seq<Operation<I, O>>, sentinel: Entry<I, O>,
                             list: seq<Entry<I, O>>, rem: set<nat>, i: nat, j: nat,
                             mid: seq<Entry<I, O>>, rest: seq<Entry<I, O>>)
    requires Entries(nodes, ops) && Represents(nodes, ops, sentinel, list, rem) && PairRemoved(list, i, j, mid, rest)
    requires list[i].isCall && list[j] == list[i].partner
    ensures Represents(nodes, ops, sentinel, rest, rem - {list[i].id}) && list[i] !in rest && list[j] !in rest
  {
    var o := list[i].id;
    Known(nodes, ops, list[i]);
    RepresentsDistinct(nodes, ops, sentinel, list, rem);
    PairRemovedKeeps(list, i, j, mid, rest);
    forall k | 1 <= k < |rest| ensures Belongs(nodes, rest[k]) && rest[k].id in rem - {o} {
      assert rest[k] in rest && rest[k] != rest[0];
      var l :| 0 <= l < |list| && list[l] == rest[k];
      Known(nodes, ops, rest[k]);
    }
  }

  // ------------------------------------------------------------ one position

  /** Everything before idx is a call that cannot come next. */
  ghost predicate Tried<I, O, S>(model: Model<I, O, S>, ops: seq<Operation<I, O>>, list: seq<Entry<I, O>>,
                                 rem: set<nat>, state: S, idx: nat)
  {
    1 <= idx <= |list| && Within(ops, rem)
    && forall k :: 1 <= k < idx ==> list[k].isCall && list[k].id < |ops| && Refuted(model, ops, rem, state, list[k].id)
  }

  /** A call with only calls before it may come first: no return precedes it. */
  lemma CallIsMinimal<I, O, S>(model: Model<I, O, S>, nodes: seq<Entry<I, O>>, ops: seq<Operation<I, O>>,
                               sentinel: Entry<I, O>, list: seq<Entry<I, O>>, rem: set<nat>, state: S, i: nat)
    requires Entries(nodes, ops) && Represents(nodes, ops, sentinel, list, rem)
    requires Tried(model, ops, list, rem, state, i)
    requires i < |list| && list[i].isCall
    ensures list[i].id in rem && Minimal(ops, rem, list[i].id)
  {
    var o := list[i].id;
    Known(nodes, ops, list[i]);
    forall x | x in rem ensures !Precedes(ops, x, o) {
      var k :| 0 <= k < |list| && list[k] == ReturnOf(nodes, ops, x);
      assert k >= i;
    }
  }

  /** At a return entry nothing is left to try. */
  lemma ExhaustedAtReturn<I, O, S>(model: Model<I, O, S>, nodes: seq<Entry<I, O>>, ops: seq<Operation<I, O>>,
                                   sentinel: Entry<I, O>, list: seq<Entry<I, O>>, rem: set<nat>, state: S, idx: nat)
    requires Entries(nodes, ops) && Represents(nodes, ops, sentinel, list, rem)
    requires Tried(model, ops, list, rem, state, idx)
    requires idx < |list| && !list[idx].isCall
    ensures !CanFinish(model, ops, rem, state)
  {
    var x := list[idx].id;
    Known(nodes, ops, list[idx]);
    forall o | o in rem && Minimal(ops, rem, o) ensures Refuted(model, ops, rem, state, o) {
      assert !Precedes(ops, x, o);
      var k :| 0 <= k < |list| && list[k] == CallOf(nodes, ops, o);
      assert list[k].pos < list[idx].pos;
      assert k < idx;
    }
    forall y | y in rem ensures ops[y].call <= ops[y].ret { assert PairAt(nodes, ops, y); }
    AllRefuted(model, ops, rem, state);
  }

  /** With no entry left to look at, every operation has been lifted. */
  lemma NothingLeft<I, O, S>(model: Model<I, O, S>, nodes: seq<Entry<I, O>>, ops: seq<Operation<I, O>>,
                             sentinel: Entry<I, O>, list: seq<Entry<I, O>>, rem: set<nat>, state: S)
    requires Entries(nodes, ops) && Represents(nodes, ops, sentinel, list, rem)
    requires Tried(model, ops, list, rem, state, |list|)
    ensures rem == {}
  {
    forall o: nat | o < |ops| ensures o !in rem {
      var r := ReturnOf(nodes, ops, o);
      assert Belongs(nodes, r) && !r.isCall && r != sentinel;
      assert r !in list;
    }
  }

  // -------------------------------------------------------------- the shelf

  /** Where a lifted pair came out of, and the lists around it. */
  datatype Slot<I, O> = Slot(list: seq<Entry<I, O>>, i: nat, j: nat, mid: seq<Entry<I, O>>)

  ghost predicate SlotOK<I, O, S>(model: Model<I, O, S>, nodes: seq<Entry<I, O>>, ops: seq<Operation<I, O>>,
                                  sentinel: Entry<I, O>, s: Slot<I, O>, l: Level<S>, next: seq<Entry<I, O>>)
    requires Entries(nodes, ops)
  {
    Represents(nodes, ops, sentinel, s.list, l.rem) && PairRemoved(s.list, s.i, s.j, s.mid, next)
    && s.list[s.i].isCall && s.list[s.j] == s.list[s.i].partner && s.list[s.i].id == l.op
    && Tried(model, ops, s.list, l.rem, l.state, s.i)
    && |s.list| <= |nodes| + 1
  }

  /** No lifted entry is in the current list. */
  ghost predicate Away<I, O>(slots: seq<Slot<I, O>>, list: seq<Entry<I, O>>) {
    forall d :: 0 <= d < |slots| ==>
      1 <= slots[d].i < slots[d].j < |slots[d].list| && |slots[d].mid| == |slots[d].list| - 1
      && slots[d].list[slots[d].i] !in list && slots[d].list[slots[d].j] !in list
  }

  /** The stack of slots, from the full list down to list. */
  ghost predicate Shelf<I, O, S>(model: Model<I, O, S>, nodes: seq<Entry<I, O>>, ops: seq<Operation<I, O>>,
                                 sentinel: Entry<I, O>, slots: seq<Slot<I, O>>, levels: seq<Level<S>>,
                                 list: seq<Entry<I, O>>)
    requires Entries(nodes, ops)
    decreases |slots|
  {
    |slots| == |levels| && Away(slots, list) &&
    if slots == [] then true
    else
      var s := slots[|slots| - 1];
      SlotOK(model, nodes, ops, sentinel, s, levels[|slots| - 1], list)
      && Shelf(model, nodes, ops, sentinel, slots[..|slots| - 1], levels[..|slots| - 1], s.list)
  }

  /** What is on the board at a loop head: the current list and the stack. */
  datatype Stage<I, O, !S> = Stage(list: seq<Entry<I, O>>, rem: set<nat>, state: S,
                                   slots: seq<Slot<I, O>>, levels: seq<Level<S>>)

  ghost predicate Sized<I, O, S>(nodes: seq<Entry<I, O>>, st: Stage<I, O, S>) {
    |st.list| <= |nodes| + 1 && |st.slots| == |st.levels|
    && forall d :: 0 <= d < |st.slots| ==> st.slots[d].i <= |nodes|
  }

  ghost predicate StageOK<I, O, S>(model: Model<I, O, S>, nodes: seq<Entry<I, O>>, ops: seq<Operation<I, O>>,
                                   sentinel: Entry<I, O>, st: Stage<I, O, S>)
    requires Entries(nodes, ops)
  {
    Represents(nodes, ops, sentinel, st.list, st.rem) && Sized(nodes, st)
    && Trail(model, ops, st.levels, st.rem, st.state)
    && Shelf(model, nodes, ops, sentinel, st.slots, st.levels, st.list)
  }

  lemma StartRepresents<I, O>(nodes: seq<Entry<I, O>>, ops: seq<Operation<I, O>>, sentinel: Entry<I, O>)
    requires Entries(nodes, ops) && sentinel !in nodes
    ensures Represents(nodes, ops, sentinel, [sentinel] + nodes, Below(|ops|))
  {
    BelowIsRange(|ops|);
    var list := [sentinel] + nodes;
    forall k | 1 <= k < |list| ensures Belongs(nodes, list[k]) && list[k].id in Below(|ops|) && list[k].pos == k - 1 {
      assert EntryAt(nodes, ops, k - 1);
    }
  }

  lemma StartOK<I, O, S>(model: Model<I, O, S>, nodes: seq<Entry<I, O>>, ops: seq<Operation<I, O>>,
                         sentinel: Entry<I, O>)
    requires Entries(nodes, ops) && sentinel !in nodes
    ensures StageOK(model, nodes, ops, sentinel, Stage([sentinel] + nodes, Below(|ops|), model.init, [], []))
  {
    StartRepresents(nodes, ops, sentinel);
  }

  lemma SkipOK<I, O, S>(model: Model<I, O, S>, ops: seq<Operation<I, O>>, list: seq<Entry<I, O>>, rem: set<nat>,
                        state: S, idx: nat)
    requires Tried(model, ops, list, rem, state, idx) && idx < |list| && list[idx].isCall
    requires list[idx].id < |ops| && Refuted(model, ops, rem, state, list[idx].id)
    ensures Tried(model, ops, list, rem, state, idx + 1)
  {
  }

  ghost function Pushed<I, O, S>(st: Stage<I, O, S>, s: Slot<I, O>, rest: seq<Entry<I, O>>, next: S): Stage<I, O, S>
    requires s.i < |s.list|
  {
    var op := s.list[s.i].id;
    Stage(rest, st.rem - {op}, next, st.slots + [s], st.levels + [Level(st.rem, st.state, op)])
  }

  lemma PushShelf<I, O, S>(model: Model<I, O, S>, nodes: seq<Entry<I, O>>, ops: seq<Operation<I, O>>,
                           sentinel: Entry<I, O>, slots: seq<Slot<I, O>>, levels: seq<Level<S>>, s: Slot<I, O>,
                           l: Level<S>, rest: seq<Entry<I, O>>)
    requires Entries(nodes, ops) && Shelf(model, nodes, ops, sentinel, slots, levels, s.list)
    requires SlotOK(model, nodes, ops, sentinel, s, l, rest) && Away(slots + [s], rest)
    ensures Shelf(model, nodes, ops, sentinel, slots + [s], levels + [l], rest)
  {
    assert (slots + [s])[..|slots|] == slots && (levels + [l])[..|levels|] == levels;
  }

  lemma PushAway<I, O>(slots: seq<Slot<I, O>>, s: Slot<I, O>, rest: seq<Entry<I, O>>)
    requires Away(slots, s.list) && PairRemoved(s.list, s.i, s.j, s.mid, rest)
    requires forall e :: e in rest ==> e in s.list && e != s.list[s.i] && e != s.list[s.j]
    ensures Away(slots + [s], rest)
  {
  }

  lemma PushOK<I, O, S>(model: Model<I, O, S>, nodes: seq<Entry<I, O>>, ops: seq<Operation<I, O>>,
                        sentinel: Entry<I, O>, st: Stage<I, O, S>, s: Slot<I, O>, rest: seq<Entry<I, O>>, next: S)
    requires Entries(nodes, ops) && StageOK(model, nodes, ops, sentinel, st)
    requires s.list == st.list && Tried(model, ops, st.list, st.rem, st.state, s.i)
    requires s.i < |st.list| && st.list[s.i].isCall
    requires PairRemoved(st.list, s.i, s.j, s.mid, rest) && st.list[s.j] == st.list[s.i].partner
    requires st.list[s.i].id < |ops|
    requires var op := ops[st.list[s.i].id]; model.step(st.state, op.input, op.output) == (true, next)
    ensures StageOK(model, nodes, ops, sentinel, Pushed(st, s, rest, next))
  {
    var l := Level(st.rem, st.state, st.list[s.i].id);
    PushBoard(nodes, ops, sentinel, st.rem, st.slots, s, rest);
    PushShelf(model, nodes, ops, sentinel, st.slots, st.levels, s, l, rest);
    PushTrail(model, nodes, ops, sentinel, s.list, s.i, st.levels, l, next);
  }

  lemma PushBoard<I, O>(nodes: seq<Entry<I, O>>, ops: seq<Operation<I, O>>, sentinel: Entry<I, O>, rem: set<nat>,
                        slots: seq<Slot<I, O>>, s: Slot<I, O>, rest: seq<Entry<I, O>>)
    requires Entries(nodes, ops) && Represents(nodes, ops, sentinel, s.list, rem) && Away(slots, s.list)
    requires PairRemoved(s.list, s.i, s.j, s.mid, rest) && s.list[s.i].isCall && s.list[s.j] == s.list[s.i].partner
    ensures Represents(nodes, ops, sentinel, rest, rem - {s.list[s.i].id}) && Away(slots + [s], rest)
  {
    RepresentsRest(nodes, ops, sentinel, s.list, rem, s.i, s.j, s.mid, rest);
    RepresentsDistinct(nodes, ops, sentinel, s.list, rem);
    PairRemovedKeeps(s.list, s.i, s.j, s.mid, rest);
    PushAway(slots, s, rest);
  }

  lemma PushTrail<I, O, S>(model: Model<I, O, S>, nodes: seq<Entry<I, O>>, ops: seq<Operation<I, O>>,
                           sentinel: Entry<I, O>, list: seq<Entry<I, O>>, i: nat, levels: seq<Level<S>>,
                           l: Level<S>, next: S)
    requires Entries(nodes, ops) && Represents(nodes, ops, sentinel, list, l.rem)
    requires Tried(model, ops, list, l.rem, l.state, i)
    requires i < |list| && list[i].isCall && list[i].id == l.op && l.op < |ops|
    requires Trail(model, ops, levels, l.rem, l.state)
    requires model.step(l.state, ops[l.op].input, ops[l.op].output) == (true, next)
    ensures Trail(model, ops, levels + [l], l.rem - {l.op}, next)
  {
    CallIsMinimal(model, nodes, ops, sentinel, list, l.rem, l.state, i);
    assert (levels + [l])[..|levels|] == levels;
  }

  ghost function Popped<I, O, S>(st: Stage<I, O, S>): Stage<I, O, S>
    requires |st.slots| == |st.levels| > 0
  {
    var s, l := st.slots[|st.slots| - 1], st.levels[|st.levels| - 1];
    Stage(s.list, l.rem, l.state, st.slots[..|st.slots| - 1], st.levels[..|st.levels| - 1])
  }

  /** The lifted operation is refuted where it was lifted. */
  lemma PopTried<I, O, S>(model: Model<I, O, S>, nodes: seq<Entry<I, O>>, ops: seq<Operation<I, O>>,
                          sentinel: Entry<I, O>, s: Slot<I, O>, l: Level<S>, st: Stage<I, O, S>)
    requires Entries(nodes, ops) && SlotOK(model, nodes, ops, sentinel, s, l, st.list)
    requires StepTo(model, ops, l, st.rem, st.state) && Within(ops, st.rem) && !CanFinish(model, ops, st.rem, st.state)
    ensures Tried(model, ops, s.list, l.rem, l.state, s.i + 1)
  {
    assert Refuted(model, ops, l.rem, l.state, l.op);
    SkipOK(model, ops, s.list, l.rem, l.state, s.i);
  }

  lemma PopOK<I, O, S>(model: Model<I, O, S>, nodes: seq<Entry<I, O>>, ops: seq<Operation<I, O>>, sentinel: Entry<I, O>,
                       st: Stage<I, O, S>)
    requires Entries(nodes, ops) && StageOK(model, nodes, ops, sentinel, st) && |st.slots| > 0
    ensures StageOK(model, nodes, ops, sentinel, Popped(st))
    ensures SlotOK(model, nodes, ops, sentinel, st.slots[|st.slots| - 1], st.levels[|st.levels| - 1], st.list)
    ensures StepTo(model, ops, st.levels[|st.levels| - 1], st.rem, st.state)
  {
  }

  // ------------------------------------------------------------ the measure

  ghost function Places<I, O>(slots: seq<Slot<I, O>>): (r: seq<nat>)
    ensures |r| == |slots| && forall d :: 0 <= d < |slots| ==> r[d] == slots[d].i
  {
    seq(|slots|, d requires 0 <= d < |slots| => slots[d].i)
  }

  ghost predicate Measurable<I, O, S>(nodes: seq<Entry<I, O>>, ops: seq<Operation<I, O>>, st: Stage<I, O, S>,
                                      idx: nat) {
    |st.slots| <= |ops| && idx < |nodes| + 2 && AllBelow(Places(st.slots), |nodes| + 2)
  }

  lemma StageMeasurable<I, O, S>(model: Model<I, O, S>, nodes: seq<Entry<I, O>>, ops: seq<Operation<I, O>>,
                                 st: Stage<I, O, S>, idx: nat)
    requires Sized(nodes, st) && Trail(model, ops, st.levels, st.rem, st.state) && idx <= |st.list|
    ensures Measurable(nodes, ops, st, idx) && |st.slots| + |st.rem| == |ops|
  {
    TrailShrinks(model, ops, st.levels, st.rem, st.state);
  }

  ghost function Left<I, O, S>(nodes: seq<Entry<I, O>>, ops: seq<Operation<I, O>>, st: Stage<I, O, S>, idx: nat): nat {
    if Measurable(nodes, ops, st, idx) then Work(|nodes| + 2, |ops|, Places(st.slots), idx) else 0
  }

  lemma SkipShrinks<I, O, S>(nodes: seq<Entry<I, O>>, ops: seq<Operation<I, O>>, st: Stage<I, O, S>, idx: nat)
    requires Measurable(nodes, ops, st, idx) && idx <= |nodes|
    ensures Left(nodes, ops, st, idx + 1) < Left(nodes, ops, st, idx)
  {
    SkipLess(|nodes| + 2, |ops|, Places(st.slots), idx);
  }

  lemma PushShrinks<I, O, S>(nodes: seq<Entry<I, O>>, ops: seq<Operation<I, O>>, st: Stage<I, O, S>, s: Slot<I, O>,
                             rest: seq<Entry<I, O>>, next: S)
    requires Measurable(nodes, ops, st, s.i) && |st.slots| < |ops| && s.i < |s.list|
    ensures Left(nodes, ops, Pushed(st, s, rest, next), 1) < Left(nodes, ops, st, s.i)
  {
    assert Places(Pushed(st, s, rest, next).slots) == Places(st.slots) + [s.i];
    PushLess(|nodes| + 2, |ops|, Places(st.slots), s.i);
  }

  lemma PopShrinks<I, O, S>(nodes: seq<Entry<I, O>>, ops: seq<Operation<I, O>>, st: Stage<I, O, S>, idx: nat)
    requires Sized(nodes, st) && Measurable(nodes, ops, st, idx) && |st.slots| > 0
    ensures Left(nodes, ops, Popped(st), st.slots[|st.slots| - 1].i + 1) < Left(nodes, ops, st, idx)
  {
    assert Places(Popped(st).slots) == Places(st.slots)[..|st.slots| - 1];
    PopLess(|nodes| + 2, |ops|, Places(st.slots), idx);
  }

  // -------------------------------------------------------------- the method

  /** A call on the stack, with the state before it. */
  datatype CallsEntry<I, O, !S> = CallsEntry(entry: Entry<I, O>, state: S)

  /** The bucket holds done with a state equal to state. */
  ghost predicate SeenIn<S>(bucket: seq<Config<S>>, done: set<nat>, state: S, equal: (S, S) -> bool) {
    exists x :: 0 <= x < |bucket| && bucket[x].done == done && equal(bucket[x].state, state)
  }

  /** The scan of one bucket of the memo table. */
  method Seen<S>(bucket: seq<Config<S>>, done: set<nat>, state: S, equal: (S, S) -> bool) returns (seen: bool)
    ensures seen <==> SeenIn(bucket, done, state, equal)
  {
    for i := 0 to |bucket|
      invariant !SeenIn(bucket[..i], done, state, equal)
    {
      if bucket[i].done == done && equal(bucket[i].state, state) { return true; }
      assert bucket[..i + 1] == bucket[..i] + [bucket[i]];
    }
    assert bucket[..|bucket|] == bucket;
    return false;
  }

  method Length<I, O>(head: Entry?<I, O>, ghost nodes: seq<Entry<I, O>>) returns (l: nat)
    requires if nodes == [] then head == null else head == nodes[0] && Linked(nodes)
    ensures l == |nodes|
  {
    l := 0;
    var n := head;
    while n != null
      invariant l <= |nodes| && n == if l < |nodes| then nodes[l] else null
      decreases |nodes| - l
    {
      n := n.next;
      l := l + 1;
    }
  }

  /** A slot's pair is among the nodes. */
  ghost predicate SlotIn<I, O>(nodes: seq<Entry<I, O>>, s: Slot<I, O>) {
    1 <= s.i < s.j < |s.list| && |s.mid| == |s.list| - 1 && Belongs(nodes, s.list[s.i]) && Belongs(nodes, s.list[s.j])
  }

  ghost predicate SlotRemembers<I, O>(nodes: seq<Entry<I, O>>, s: Slot<I, O>)
    reads nodes
  {
    SlotIn(nodes, s) && Remembers(s.list, s.i, s.j, s.mid)
  }

  /** Every lifted pair still points at the places it was taken from. */
  ghost predicate AllRemember<I, O>(nodes: seq<Entry<I, O>>, slots: seq<Slot<I, O>>)
    reads nodes
  {
    forall d :: 0 <= d < |slots| ==> SlotRemembers(nodes, slots[d])
  }

  /** A pair ready to be lifted, with the lists it leaves behind. */
  ghost predicate Liftable<I, O>(nodes: seq<Entry<I, O>>, sentinel: Entry<I, O>, slots: seq<Slot<I, O>>, s: Slot<I, O>,
                                    rest: seq<Entry<I, O>>)
  {
    PairRemoved(s.list, s.i, s.j, s.mid, rest) && s.list[s.j] == s.list[s.i].partner && SlotIn(nodes, s)
    && Away(slots, s.list) && Distinct(s.list)
    && forall k :: 0 <= k < |s.list| ==> Belongs(nodes, s.list[k]) || s.list[k] == sentinel
  }

  /** Lifting the call at s.i and pushing its slot. */
  method LiftTop<I, O>(entry: Entry<I, O>, ghost nodes: seq<Entry<I, O>>, ghost sentinel: Entry<I, O>,
                       ghost slots: seq<Slot<I, O>>, ghost s: Slot<I, O>, ghost rest: seq<Entry<I, O>>)
    requires Liftable(nodes, sentinel, slots, s, rest) && s.list[s.i] == entry
    requires Linked(s.list) && AllRemember(nodes, slots)
    modifies nodes, sentinel
    ensures Linked(rest) && AllRemember(nodes, slots + [s])
  {
    Lift(entry, s.list, s.i, s.j, s.mid, rest);
    forall d | 0 <= d < |slots| ensures SlotRemembers(nodes, slots[d]) {
      assert old(SlotRemembers(nodes, slots[d]));
    }
  }

  /** Popping the top slot and putting its pair back. */
  method UnliftTop<I, O>(entry: Entry<I, O>, ghost nodes: seq<Entry<I, O>>, ghost sentinel: Entry<I, O>,
                         ghost slots: seq<Slot<I, O>>, ghost s: Slot<I, O>, ghost rest: seq<Entry<I, O>>)
    requires Liftable(nodes, sentinel, slots, s, rest) && s.list[s.i] == entry
    requires Linked(rest) && AllRemember(nodes, slots + [s])
    modifies nodes, sentinel
    ensures Linked(s.list) && AllRemember(nodes, slots)
  {
    assert (slots + [s])[|slots|] == s;
    assert forall d :: 0 <= d < |slots| ==> (slots + [s])[d] == slots[d];
    Unlift(entry, s.list, s.i, s.j, s.mid, rest);
    forall d | 0 <= d < |slots| ensures SlotRemembers(nodes, slots[d]) {
      assert old(SlotRemembers(nodes, slots[d]));
    }
  }

  /** The stack of calls is the stack of slots and levels. */
  ghost predicate Mirrors<I, O, S>(calls: seq<CallsEntry<I, O, S>>, st: Stage<I, O, S>) {
    |calls| == |st.slots| == |st.levels|
    && forall d :: 0 <= d < |calls| ==>
      st.slots[d].i < |st.slots[d].list| && calls[d] == CallsEntry(st.slots[d].list[st.slots[d].i], st.levels[d].state)
  }

  // ------------------------------------------------------------- loop heads

  /** Everything known at a loop head except how it is stored. */
  ghost predicate HeadOK<I, O, S>(model: Model<I, O, S>, nodes: seq<Entry<I, O>>, ops: seq<Operation<I, O>>,
                                  sentinel: Entry<I, O>, st: Stage<I, O, S>, idx: nat, cache: map<nat, seq<Config<S>>>)
    requires Entries(nodes, ops)
  {
    StageOK(model, nodes, ops, sentinel, st)
    && Tried(model, ops, st.list, st.rem, st.state, idx)
    && MemoOK(model, ops, st.levels, st.rem, st.state, cache)
  }

  /** The entry at position idx of the list, or none past its end. */
  ghost function At<I, O>(list: seq<Entry<I, O>>, idx: nat): Entry?<I, O> {
    if idx < |list| then list[idx] else null
  }

  lemma NextAt<I, O>(list: seq<Entry<I, O>>, idx: nat)
    requires Linked(list) && idx < |list|
    ensures list[idx].next == At(list, idx + 1)
  {
  }

  lemma HeadEntry<I, O, S>(model: Model<I, O, S>, nodes: seq<Entry<I, O>>, ops: seq<Operation<I, O>>,
                           sentinel: Entry<I, O>, st: Stage<I, O, S>, idx: nat, cache: map<nat, seq<Config<S>>>)
    requires Entries(nodes, ops) && HeadOK(model, nodes, ops, sentinel, st, idx, cache) && idx < |st.list|
    ensures st.list[idx].id in st.rem && st.list[idx].id < |ops|
    ensures (st.list[idx].isCall <==> st.list[idx].partner != null)
    ensures st.list[idx].op.input == ops[st.list[idx].id].input
    ensures st.list[idx].isCall ==> st.list[idx].partner.op.output == ops[st.list[idx].id].output
    ensures Within(ops, st.rem) && Measurable(nodes, ops, st, idx) && idx <= |nodes| && |st.slots| < |ops|
  {
    var e := st.list[idx];
    Known(nodes, ops, e);
    if e.isCall { Known(nodes, ops, e.partner); }
    StageMeasurable(model, nodes, ops, st, idx);
  }

  lemma SeenRefutes<I(!new), O(!new), S(!new)>(model: Model<I, O, S>, ops: seq<Operation<I, O>>, st: Stage<I, O, S>,
                                               cache: map<nat, seq<Config<S>>>, o: nat, next: S, key: nat, at: nat)
    requires Lawful(model) && Trail(model, ops, st.levels, st.rem, st.state) && Within(ops, st.rem) && o in st.rem
    requires MemoOK(model, ops, st.levels, st.rem, st.state, cache) && key in cache && at < |cache[key]|
    requires cache[key][at].done == (Below(|ops|) - st.rem) + {o} && model.equal(cache[key][at].state, next)
    requires model.step(st.state, ops[o].input, ops[o].output) == (true, next)
    ensures Refuted(model, ops, st.rem, st.state, o)
  {
    assert ConfigOK(model, ops, st.levels, st.rem, st.state, cache[key][at]);
    HitRefutes(model, ops, st.levels, st.rem, st.state, o, cache[key][at], next);
  }

  lemma PushMemo<I, O, S>(model: Model<I, O, S>, ops: seq<Operation<I, O>>, st: Stage<I, O, S>, o: nat, next: S,
                          cache: map<nat, seq<Config<S>>>, key: nat, c: Config<S>, cache2: map<nat, seq<Config<S>>>)
    requires MemoOK(model, ops, st.levels, st.rem, st.state, cache) && Trail(model, ops, st.levels, st.rem, st.state)
    requires o in st.rem && c == Config((Below(|ops|) - st.rem) + {o}, next)
    requires cache2 == cache || cache2 == Remember(cache, key, c)
    ensures MemoOK(model, ops, st.levels + [Level(st.rem, st.state, o)], st.rem - {o}, next, cache2)
  {
    TrailShrinks(model, ops, st.levels, st.rem, st.state);
    assert Below(|ops|) - c.done == st.rem - {o};
    MemoPush(model, ops, st.levels, st.rem, st.state, cache, o, next, cache2, key, c);
  }

  ghost function PlaceOf<I, O>(list: seq<Entry<I, O>>, e: Entry?<I, O>): (k: nat)
    ensures e in list ==> k < |list| && list[k] == e
  {
    if e in list then (var k :| 0 <= k < |list| && list[k] == e; k) else 0
  }

  /** The slot of the call at idx. */
  ghost function SlotAt<I, O>(list: seq<Entry<I, O>>, idx: nat): Slot<I, O>
    requires idx < |list|
  {
    Slot(list, idx, PlaceOf(list, list[idx].partner), Without(list, idx))
  }

  ghost function RestAt<I, O>(list: seq<Entry<I, O>>, idx: nat): seq<Entry<I, O>>
    requires idx < |list|
  {
    var s := SlotAt(list, idx);
    if s.j > 0 then Without(s.mid, s.j - 1) else s.mid
  }

  lemma PlaceFound<I, O>(list: seq<Entry<I, O>>, j: nat)
    requires Distinct(list) && j < |list|
    ensures PlaceOf(list, list[j]) == j
  {
    assert list[j] in list;
    var k := PlaceOf(list, list[j]);
    assert !(k < j) && !(j < k);
  }

  lemma CutPair<I, O>(list: seq<Entry<I, O>>, i: nat, j: nat)
    requires Distinct(list) && 1 <= i < j < |list| && list[j] == list[i].partner
    ensures SlotAt(list, i).j == j && PairRemoved(list, i, j, SlotAt(list, i).mid, RestAt(list, i))
  {
    PlaceFound(list, j);
    WithoutRemoves(list, i);
    WithoutRemoves(SlotAt(list, i).mid, j - 1);
  }

  /** The call at idx can be lifted. */
  lemma FindPair<I, O>(nodes: seq<Entry<I, O>>, ops: seq<Operation<I, O>>, sentinel: Entry<I, O>, rem: set<nat>,
                       list: seq<Entry<I, O>>, slots: seq<Slot<I, O>>, idx: nat)
    requires Entries(nodes, ops) && Represents(nodes, ops, sentinel, list, rem) && Away(slots, list)
    requires 1 <= idx < |list| && list[idx].isCall
    ensures Liftable<I, O>(nodes, sentinel, slots, SlotAt(list, idx), RestAt(list, idx))
  {
    var j := ReturnFollows(nodes, ops, sentinel, list, rem, idx);
    RepresentsDistinct(nodes, ops, sentinel, list, rem);
    CutPair(list, idx, j);
    PairLiftable(nodes, ops, sentinel, rem, slots, SlotAt(list, idx), RestAt(list, idx));
  }

  lemma PairLiftable<I, O>(nodes: seq<Entry<I, O>>, ops: seq<Operation<I, O>>, sentinel: Entry<I, O>, rem: set<nat>,
                           slots: seq<Slot<I, O>>, s: Slot<I, O>, rest: seq<Entry<I, O>>)
    requires Entries(nodes, ops) && Represents(nodes, ops, sentinel, s.list, rem) && Distinct(s.list)
    requires PairRemoved(s.list, s.i, s.j, s.mid, rest) && s.list[s.j] == s.list[s.i].partner && Away(slots, s.list)
    ensures Liftable(nodes, sentinel, slots, s, rest)
  {
  }

  lemma SlotLiftable<I, O, S>(model: Model<I, O, S>, nodes: seq<Entry<I, O>>, ops: seq<Operation<I, O>>,
                              sentinel: Entry<I, O>, slots: seq<Slot<I, O>>, s: Slot<I, O>, l: Level<S>,
                              list: seq<Entry<I, O>>)
    requires Entries(nodes, ops) && SlotOK(model, nodes, ops, sentinel, s, l, list) && Away(slots, s.list)
    ensures Liftable(nodes, sentinel, slots, s, list)
  {
    RepresentsDistinct(nodes, ops, sentinel, s.list, l.rem);
    PairLiftable(nodes, ops, sentinel, l.rem, slots, s, list);
  }

  lemma FoundPair<I, O, S>(model: Model<I, O, S>, nodes: seq<Entry<I, O>>, ops: seq<Operation<I, O>>,
                           sentinel: Entry<I, O>, st: Stage<I, O, S>)
    requires Entries(nodes, ops) && StageOK(model, nodes, ops, sentinel, st) && |st.slots| > 0
    ensures Liftable(nodes, sentinel, st.slots[..|st.slots| - 1], st.slots[|st.slots| - 1], st.list)
    ensures |st.levels| == |st.slots|
    ensures var s := st.slots[|st.slots| - 1]; s.list[s.i].id == st.levels[|st.slots| - 1].op
  {
    PopOK(model, nodes, ops, sentinel, st);
    SlotLiftable(model, nodes, ops, sentinel, st.slots[..|st.slots| - 1], st.slots[|st.slots| - 1],
                 st.levels[|st.levels| - 1], st.list);
  }

  /** What taking the call at the head leads to. */
  lemma Descended<I, O, S>(model: Model<I, O, S>, nodes: seq<Entry<I, O>>, ops: seq<Operation<I, O>>,
                           sentinel: Entry<I, O>, st: Stage<I, O, S>, cache: map<nat, seq<Config<S>>>,
                           s: Slot<I, O>, rest: seq<Entry<I, O>>, next: S, key: nat, c: Config<S>,
                           cache2: map<nat, seq<Config<S>>>)
    requires Entries(nodes, ops) && HeadOK(model, nodes, ops, sentinel, st, s.i, cache)
    requires s.list == st.list && s.i < |st.list| && st.list[s.i].isCall
    requires st.list[s.i].id < |ops| && st.list[s.i].id in st.rem
    requires PairRemoved(st.list, s.i, s.j, s.mid, rest) && st.list[s.j] == st.list[s.i].partner
    requires var op := ops[st.list[s.i].id]; model.step(st.state, op.input, op.output) == (true, next)
    requires c == Config((Below(|ops|) - st.rem) + {st.list[s.i].id}, next)
    requires cache2 == cache || cache2 == Remember(cache, key, c)
    ensures HeadOK(model, nodes, ops, sentinel, Pushed(st, s, rest, next), 1, cache2)
  {
    PushOK(model, nodes, ops, sentinel, st, s, rest, next);
    PushMemo(model, ops, st, st.list[s.i].id, next, cache, key, c, cache2);
    assert Within(ops, st.rem - {st.list[s.i].id});
    assert Tried(model, ops, rest, st.rem - {st.list[s.i].id}, next, 1);
  }

  /** What backtracking with nothing left to try leads to. */
  lemma Backtracked<I, O, S>(model: Model<I, O, S>, nodes: seq<Entry<I, O>>, ops: seq<Operation<I, O>>,
                             sentinel: Entry<I, O>, st: Stage<I, O, S>, cache: map<nat, seq<Config<S>>>)
    requires Entries(nodes, ops) && StageOK(model, nodes, ops, sentinel, st) && |st.slots| > 0
    requires MemoOK(model, ops, st.levels, st.rem, st.state, cache)
    requires Within(ops, st.rem) && !CanFinish(model, ops, st.rem, st.state)
    ensures HeadOK(model, nodes, ops, sentinel, Popped(st), st.slots[|st.slots| - 1].i + 1, cache)
  {
    PopOK(model, nodes, ops, sentinel, st);
    PopTried(model, nodes, ops, sentinel, st.slots[|st.slots| - 1], st.levels[|st.levels| - 1], st);
    MemoPop(model, ops, st.levels, st.rem, st.state, cache);
  }

  lemma TakenBack<I, O, S>(model: Model<I, O, S>, ops: seq<Operation<I, O>>, levels: seq<Level<S>>, rem: set<nat>,
                           state: S)
    requires Trail(model, ops, levels, rem, state) && |levels| > 0
    ensures var l := levels[|levels| - 1]; Below(|ops|) - l.rem == (Below(|ops|) - rem) - {l.op}
  {
    var l := levels[|levels| - 1];
    TrailShrinks(model, ops, levels[..|levels| - 1], l.rem, l.state);
  }

  lemma MirrorsMove<I, O, S>(calls: seq<CallsEntry<I, O, S>>, st: Stage<I, O, S>)
    requires Mirrors(calls, st)
    ensures forall s: Slot<I, O>, rest, next :: s.i < |s.list| ==>
      Mirrors(calls + [CallsEntry(s.list[s.i], st.state)], Pushed(st, s, rest, next))
    ensures |calls| > 0 ==> Mirrors(calls[..|calls| - 1], Popped(st))
  {
  }

  lemma StartHead<I, O, S>(model: Model<I, O, S>, nodes: seq<Entry<I, O>>, ops: seq<Operation<I, O>>,
                           sentinel: Entry<I, O>, st: Stage<I, O, S>)
    requires Entries(nodes, ops) && sentinel !in nodes
    requires st == Stage([sentinel] + nodes, Below(|ops|), model.init, [], [])
    ensures HeadOK(model, nodes, ops, sentinel, st, 1, map[])
  {
    BelowIsRange(|ops|);
    StartOK(model, nodes, ops, sentinel);
  }

  lemma Finished<I, O, S>(model: Model<I, O, S>, nodes: seq<Entry<I, O>>, ops: seq<Operation<I, O>>,
                          sentinel: Entry<I, O>, st: Stage<I, O, S>)
    requires Entries(nodes, ops) && StageOK(model, nodes, ops, sentinel, st)
    requires Tried(model, ops, st.list, st.rem, st.state, |st.list|)
    ensures Linearizable(model, ops)
  {
    NothingLeft(model, nodes, ops, sentinel, st.list, st.rem, st.state);
    EmptyFinishes(model, ops, st.state);
    TrailFinishes(model, ops, st.levels, st.rem, st.state);
  }

  /** Everything known at a loop head, with the lists and stacks that store it. */
  ghost predicate Stored<I, O, S>(nodes: seq<Entry<I, O>>, sentinel: Entry<I, O>, st: Stage<I, O, S>, idx: nat,
                                  entry: Entry?<I, O>, calls: seq<CallsEntry<I, O, S>>)
    reads st.list, nodes
  {
    Linked(st.list) && AllRemember(nodes, st.slots) && Mirrors(calls, st)
    && st.list[0] == sentinel && entry == At(st.list, idx)
  }

  /** Takes the call at s.i: its pair leaves the list and it goes on the stack. */
  method Descend<I, O, S>(entry: Entry<I, O>, state: S, calls: seq<CallsEntry<I, O, S>>, sentinel: Entry<I, O>,
                          ghost nodes: seq<Entry<I, O>>, ghost st: Stage<I, O, S>, ghost s: Slot<I, O>,
                          ghost rest: seq<Entry<I, O>>, ghost next: S)
    returns (entry2: Entry?<I, O>, calls2: seq<CallsEntry<I, O, S>>)
    requires Stored(nodes, sentinel, st, s.i, entry, calls) && state == st.state && s.list == st.list
    requires Liftable(nodes, sentinel, st.slots, s, rest)
    modifies nodes, sentinel
    ensures Stored(nodes, sentinel, Pushed(st, s, rest, next), 1, entry2, calls2)
  {
    MirrorsMove(calls, st);
    calls2 := calls + [CallsEntry(entry, state)];
    RemovedKeeps(s.list, s.i, s.mid);
    RemovedKeeps(s.mid, s.j - 1, rest);
    LiftTop(entry, nodes, sentinel, st.slots, s, rest);
    NextAt(rest, 0);
    entry2 := sentinel.next;
  }

  /** Gives the last call back and moves on to the entry after it. */
  method Backtrack<I, O, S>(calls: seq<CallsEntry<I, O, S>>, ghost sentinel: Entry<I, O>, ghost nodes: seq<Entry<I, O>>,
                            ghost st: Stage<I, O, S>, ghost idx: nat, ghost entry: Entry?<I, O>)
    returns (entry2: Entry?<I, O>, state2: S, id: nat, calls2: seq<CallsEntry<I, O, S>>)
    requires Stored(nodes, sentinel, st, idx, entry, calls) && |calls| > 0
    requires Liftable(nodes, sentinel, st.slots[..|st.slots| - 1], st.slots[|st.slots| - 1], st.list)
    modifies nodes, sentinel
    ensures Stored(nodes, sentinel, Popped(st), st.slots[|st.slots| - 1].i + 1, entry2, calls2)
    ensures state2 == Popped(st).state && id == st.slots[|st.slots| - 1].list[st.slots[|st.slots| - 1].i].id
  {
    MirrorsMove(calls, st);
    var top := calls[|calls| - 1];
    entry2, state2 := top.entry, top.state;
    id := entry2.id;
    calls2 := calls[..|calls| - 1];
    ghost var s := st.slots[|st.slots| - 1];
    assert st.slots == st.slots[..|st.slots| - 1] + [s];
    RemovedKeeps(s.list, s.i, s.mid);
    RemovedKeeps(s.mid, s.j - 1, st.list);
    UnliftTop(entry2, nodes, sentinel, st.slots[..|st.slots| - 1], s, st.list);
    NextAt(s.list, s.i);
    entry2 := entry2.next;
  }

  /** What the return entry at the head means: nothing can finish from here. */
  lemma Returned<I, O, S>(model: Model<I, O, S>, nodes: seq<Entry<I, O>>, ops: seq<Operation<I, O>>,
                          sentinel: Entry<I, O>, st: Stage<I, O, S>, idx: nat, cache: map<nat, seq<Config<S>>>)
    requires Entries(nodes, ops) && HeadOK(model, nodes, ops, sentinel, st, idx, cache)
    requires idx < |st.list| && !st.list[idx].isCall
    requires Measurable(nodes, ops, st, idx)
    ensures |st.levels| == |st.slots| && (st.slots == [] ==> !Linearizable(model, ops))
    ensures |st.slots| > 0 ==> Liftable(nodes, sentinel, st.slots[..|st.slots| - 1], st.slots[|st.slots| - 1], st.list)
    ensures |st.slots| > 0 ==> HeadOK(model, nodes, ops, sentinel, Popped(st), st.slots[|st.slots| - 1].i + 1, cache)
    ensures |st.slots| > 0 ==> Left(nodes, ops, Popped(st), st.slots[|st.slots| - 1].i + 1) < Left(nodes, ops, st, idx)
    ensures |st.slots| > 0 ==>
      var s := st.slots[|st.slots| - 1];
      s.i < |s.list| && Below(|ops|) - Popped(st).rem == (Below(|ops|) - st.rem) - {s.list[s.i].id}
  {
    ExhaustedAtReturn(model, nodes, ops, sentinel, st.list, st.rem, st.state, idx);
    if |st.slots| > 0 {
      FoundPair(model, nodes, ops, sentinel, st);
      Backtracked(model, nodes, ops, sentinel, st, cache);
      TakenBack(model, ops, st.levels, st.rem, st.state);
      PopShrinks(nodes, ops, st, idx);
    }
  }

  // ------------------------------------------------- the search as a machine

  /** The search between two turns of its loop. */
  datatype Machine<I, O, !S> = Machine(st: Stage<I, O, S>, idx: nat, cache: map<nat, seq<Config<S>>>, cacheSize: nat)

  /** How many configurations the memo table may hold. */
  function CacheCap(n: nat): nat {
    var byMemory := 268435456 / (n / 8 + 64);
    if n * 1024 < byMemory then n * 1024 else byMemory
  }

  /** What the search does next. */
  datatype Move = TakeCall | PassCall | GiveBack | Refute | Accept

  ghost function Choose<I, O, S>(model: Model<I, O, S>, hash: (set<nat>, S) -> nat, ops: seq<Operation<I, O>>,
                                 m: Machine<I, O, S>): Move {
    if m.idx >= |m.st.list| then Accept
    else
      var e := m.st.list[m.idx];
      if e.partner == null then if m.st.slots == [] then Refute else GiveBack
      else
        var (possible, next) := model.step(m.st.state, e.op.input, e.partner.op.output);
        var done := (Below(|ops|) - m.st.rem) + {e.id};
        var key := hash(done, next);
        if possible && !(key in m.cache && SeenIn(m.cache[key], done, next, model.equal)) then TakeCall else PassCall
  }

  ghost function Taken<I, O, S>(model: Model<I, O, S>, hash: (set<nat>, S) -> nat, ops: seq<Operation<I, O>>,
                                m: Machine<I, O, S>): Machine<I, O, S>
    requires Choose(model, hash, ops, m) == TakeCall
  {
    var e := m.st.list[m.idx];
    var next := model.step(m.st.state, e.op.input, e.partner.op.output).1;
    var done := (Below(|ops|) - m.st.rem) + {e.id};
    var st2 := Pushed(m.st, SlotAt(m.st.list, m.idx), RestAt(m.st.list, m.idx), next);
    if m.cacheSize < CacheCap(|ops|) then
      Machine(st2, 1, Remember(m.cache, hash(done, next), Config(done, next)), m.cacheSize + 1)
    else
      Machine(st2, 1, m.cache, m.cacheSize)
  }

  ghost function Turn<I, O, S>(model: Model<I, O, S>, hash: (set<nat>, S) -> nat, ops: seq<Operation<I, O>>,
                               m: Machine<I, O, S>): Machine<I, O, S>
  {
    match Choose(model, hash, ops, m)
    case TakeCall => Taken(model, hash, ops, m)
    case PassCall => m.(idx := m.idx + 1)
    case GiveBack =>
      if |m.st.slots| == |m.st.levels| then m.(st := Popped(m.st), idx := m.st.slots[|m.st.slots| - 1].i + 1) else m
    case _ => m
  }

  /** f, k times. */
  ghost function Times<M>(f: M -> M, start: M, k: nat): M {
    if k == 0 then start else f(Times(f, start, k - 1))
  }

  ghost function TurnOf<I, O, S>(model: Model<I, O, S>, hash: (set<nat>, S) -> nat, ops: seq<Operation<I, O>>)
    : Machine<I, O, S> -> Machine<I, O, S>
  {
    m => Turn(model, hash, ops, m)
  }

  ghost function FirstMachine<I, O, S>(model: Model<I, O, S>, nodes: seq<Entry<I, O>>, ops: seq<Operation<I, O>>,
                                       sentinel: Entry<I, O>): Machine<I, O, S>
  {
    Machine(Stage([sentinel] + nodes, Below(|ops|), model.init, [], []), 1, map[], 0)
  }

  /** The search after k turns. */
  ghost function After<I, O, S>(model: Model<I, O, S>, hash: (set<nat>, S) -> nat, nodes: seq<Entry<I, O>>,
                                ops: seq<Operation<I, O>>, sentinel: Entry<I, O>, k: nat): Machine<I, O, S>
  {
    Times(TurnOf(model, hash, ops), FirstMachine(model, nodes, ops, sentinel), k)
  }

  /** How much the search may still do. */
  ghost function Potential<I, O, S>(nodes: seq<Entry<I, O>>, ops: seq<Operation<I, O>>, m: Machine<I, O, S>): nat {
    Left(nodes, ops, m.st, m.idx)
  }

  ghost predicate MachineOK<I, O, S>(model: Model<I, O, S>, nodes: seq<Entry<I, O>>, ops: seq<Operation<I, O>>,
                                     sentinel: Entry<I, O>, m: Machine<I, O, S>)
  {
    Entries(nodes, ops) && exists i: nat :: i == m.idx && HeadOK(model, nodes, ops, sentinel, m.st, i, m.cache)
  }

  /** The call at the head, as the model sees it. */
  lemma CallStep<I, O, S>(model: Model<I, O, S>, nodes: seq<Entry<I, O>>, ops: seq<Operation<I, O>>,
                          sentinel: Entry<I, O>, m: Machine<I, O, S>, e: Entry<I, O>)
    requires MachineOK(model, nodes, ops, sentinel, m) && m.idx < |m.st.list|
    requires m.st.list[m.idx] == e && e.partner != null
    ensures HeadCall(ops, m, e) && Within(ops, m.st.rem)
    ensures Measurable(nodes, ops, m.st, m.idx) && m.idx <= |nodes| && |m.st.slots| < |ops|
  {
    HeadEntry(model, nodes, ops, sentinel, m.st, m.idx, m.cache);
  }

  /** e is the call at the head; its input and output are its operation's. */
  ghost predicate HeadCall<I, O, S>(ops: seq<Operation<I, O>>, m: Machine<I, O, S>, e: Entry<I, O>) {
    m.idx < |m.st.list| && m.st.list[m.idx] == e && e.isCall && e.partner != null
    && e.id < |ops| && e.id in m.st.rem && e.op.input == ops[e.id].input && e.partner.op.output == ops[e.id].output
  }

  lemma TakenIs<I, O, S>(model: Model<I, O, S>, hash: (set<nat>, S) -> nat, ops: seq<Operation<I, O>>,
                         m: Machine<I, O, S>, e: Entry<I, O>) returns (next: S, key: nat, c: Config<S>)
    requires Choose(model, hash, ops, m) == TakeCall && HeadCall(ops, m, e)
    ensures model.step(m.st.state, ops[e.id].input, ops[e.id].output) == (true, next)
    ensures c == Config((Below(|ops|) - m.st.rem) + {e.id}, next)
    ensures Taken(model, hash, ops, m).idx == 1
    ensures Taken(model, hash, ops, m).st == Pushed(m.st, SlotAt(m.st.list, m.idx), RestAt(m.st.list, m.idx), next)
    ensures var cache := Taken(model, hash, ops, m).cache; cache == m.cache || cache == Remember(m.cache, key, c)
  {
    next := model.step(m.st.state, e.op.input, e.partner.op.output).1;
    c := Config((Below(|ops|) - m.st.rem) + {e.id}, next);
    key := hash(c.done, next);
  }

  lemma TakeOK<I, O, S>(model: Model<I, O, S>, hash: (set<nat>, S) -> nat, nodes: seq<Entry<I, O>>,
                        ops: seq<Operation<I, O>>, sentinel: Entry<I, O>, m: Machine<I, O, S>)
    requires MachineOK(model, nodes, ops, sentinel, m) && Choose(model, hash, ops, m) == TakeCall
    ensures MachineOK(model, nodes, ops, sentinel, Taken(model, hash, ops, m))
  {
    var e, m2 := m.st.list[m.idx], Taken(model, hash, ops, m);
    var s, rest := SlotAt(m.st.list, m.idx), RestAt(m.st.list, m.idx);
    CallStep(model, nodes, ops, sentinel, m, e);
    var next, key, c := TakenIs(model, hash, ops, m, e);
    TakeStage(model, nodes, ops, sentinel, m, e, s, rest, next, key, c, m2);
  }

  lemma TakeStage<I, O, S>(model: Model<I, O, S>, nodes: seq<Entry<I, O>>, ops: seq<Operation<I, O>>,
                           sentinel: Entry<I, O>, m: Machine<I, O, S>, e: Entry<I, O>, s: Slot<I, O>,
                           rest: seq<Entry<I, O>>, next: S, key: nat, c: Config<S>, m2: Machine<I, O, S>)
    requires MachineOK(model, nodes, ops, sentinel, m) && HeadCall(ops, m, e)
    requires s == SlotAt(m.st.list, m.idx) && rest == RestAt(m.st.list, m.idx)
    requires model.step(m.st.state, ops[e.id].input, ops[e.id].output) == (true, next)
    requires c == Config((Below(|ops|) - m.st.rem) + {e.id}, next)
    requires m2.idx == 1 && m2.st == Pushed(m.st, s, rest, next)
    requires m2.cache == m.cache || m2.cache == Remember(m.cache, key, c)
    ensures MachineOK(model, nodes, ops, sentinel, m2)
  {
    FindPair(nodes, ops, sentinel, m.st.rem, m.st.list, m.st.slots, m.idx);
    Descended(model, nodes, ops, sentinel, m.st, m.cache, s, rest, next, key, c, m2.cache);
  }

  lemma PassHead<I, O, S>(model: Model<I, O, S>, nodes: seq<Entry<I, O>>, ops: seq<Operation<I, O>>,
                          sentinel: Entry<I, O>, st: Stage<I, O, S>, idx: nat, cache: map<nat, seq<Config<S>>>)
    requires Entries(nodes, ops) && HeadOK(model, nodes, ops, sentinel, st, idx, cache)
    requires idx < |st.list| && st.list[idx].isCall
    requires Within(ops, st.rem) && st.list[idx].id < |ops| && Refuted(model, ops, st.rem, st.state, st.list[idx].id)
    ensures HeadOK(model, nodes, ops, sentinel, st, idx + 1, cache)
  {
    SkipOK(model, ops, st.list, st.rem, st.state, idx);
  }

  lemma PassOK<I(!new), O(!new), S(!new)>(model: Model<I, O, S>, hash: (set<nat>, S) -> nat, nodes: seq<Entry<I, O>>,
                                          ops: seq<Operation<I, O>>, sentinel: Entry<I, O>, m: Machine<I, O, S>)
    requires Lawful(model) && MachineOK(model, nodes, ops, sentinel, m) && Choose(model, hash, ops, m) == PassCall
    ensures MachineOK(model, nodes, ops, sentinel, m.(idx := m.idx + 1))
  {
    var e := m.st.list[m.idx];
    CallStep(model, nodes, ops, sentinel, m, e);
    PassRefutes(model, hash, ops, m, e);
    PassHead(model, nodes, ops, sentinel, m.st, m.idx, m.cache);
  }

  /** A call is passed over only when it cannot come next. */
  lemma PassRefutes<I(!new), O(!new), S(!new)>(model: Model<I, O, S>, hash: (set<nat>, S) -> nat,
                                               ops: seq<Operation<I, O>>, m: Machine<I, O, S>, e: Entry<I, O>)
    requires Lawful(model) && Choose(model, hash, ops, m) == PassCall && Within(ops, m.st.rem)
    requires Trail(model, ops, m.st.levels, m.st.rem, m.st.state)
    requires MemoOK(model, ops, m.st.levels, m.st.rem, m.st.state, m.cache)
    requires HeadCall(ops, m, e)
    ensures Refuted(model, ops, m.st.rem, m.st.state, e.id)
  {
    var (possible, next) := model.step(m.st.state, e.op.input, e.partner.op.output);
    if possible {
      var done := (Below(|ops|) - m.st.rem) + {e.id};
      var bucket := m.cache[hash(done, next)];
      var at :| 0 <= at < |bucket| && bucket[at].done == done && model.equal(bucket[at].state, next);
      SeenRefutes(model, ops, m.st, m.cache, e.id, next, hash(done, next), at);
    }
  }

  lemma GiveBackOK<I, O, S>(model: Model<I, O, S>, hash: (set<nat>, S) -> nat, nodes: seq<Entry<I, O>>,
                            ops: seq<Operation<I, O>>, sentinel: Entry<I, O>, m: Machine<I, O, S>)
    requires MachineOK(model, nodes, ops, sentinel, m) && Choose(model, hash, ops, m) == GiveBack
    ensures MachineOK(model, nodes, ops, sentinel, Turn(model, hash, ops, m))
  {
    HeadEntry(model, nodes, ops, sentinel, m.st, m.idx, m.cache);
    Returned(model, nodes, ops, sentinel, m.st, m.idx, m.cache);
  }

  ghost predicate TurnAt<M>(f: M -> M, ms: seq<M>, j: nat) {
    j + 1 < |ms| ==> ms[j + 1] == f(ms[j])
  }

  /** What the first k turns go through. */
  lemma {:induction false} Trace<M>(f: M -> M, start: M, k: nat) returns (ms: seq<M>)
    ensures |ms| == k + 1 && ms[0] == start && ms[k] == Times(f, start, k)
    ensures forall j: nat :: TurnAt(f, ms, j)
    decreases k
  {
    if k == 0 {
      ms := [start];
    } else {
      var before := Trace(f, start, k - 1);
      ms := before + [f(before[k - 1])];
      forall j: nat ensures TurnAt(f, ms, j) { assert TurnAt(f, before, j); }
    }
  }

  lemma {:induction false} TraceOK<I(!new), O(!new), S(!new)>(model: Model<I, O, S>, hash: (set<nat>, S) -> nat,
                                                             nodes: seq<Entry<I, O>>, ops: seq<Operation<I, O>>,
                                                             sentinel: Entry<I, O>, ms: seq<Machine<I, O, S>>, k: nat)
    requires Lawful(model) && k < |ms| && MachineOK(model, nodes, ops, sentinel, ms[0])
    requires forall j: nat :: TurnAt(TurnOf(model, hash, ops), ms, j)
    ensures MachineOK(model, nodes, ops, sentinel, ms[k])
    decreases k
  {
    if k > 0 {
      TraceOK(model, hash, nodes, ops, sentinel, ms, k - 1);
      assert TurnAt(TurnOf(model, hash, ops), ms, k - 1);
      TurnOK(model, hash, nodes, ops, sentinel, ms[k - 1], ms[k]);
    }
  }

  /** Every turn of the search keeps everything the loop head knows. */
  lemma AfterOK<I(!new), O(!new), S(!new)>(model: Model<I, O, S>, hash: (set<nat>, S) -> nat,
                                           nodes: seq<Entry<I, O>>, ops: seq<Operation<I, O>>,
                                           sentinel: Entry<I, O>, k: nat, m: Machine<I, O, S>)
    requires Lawful(model) && Entries(nodes, ops) && sentinel !in nodes
    requires m == After(model, hash, nodes, ops, sentinel, k)
    ensures MachineOK(model, nodes, ops, sentinel, m)
  {
    var ms := Trace(TurnOf(model, hash, ops), FirstMachine(model, nodes, ops, sentinel), k);
    StartMachine(model, nodes, ops, sentinel, ms[0]);
    TraceOK(model, hash, nodes, ops, sentinel, ms, k);
  }

  lemma StartMachine<I, O, S>(model: Model<I, O, S>, nodes: seq<Entry<I, O>>, ops: seq<Operation<I, O>>,
                              sentinel: Entry<I, O>, m: Machine<I, O, S>)
    requires Entries(nodes, ops) && sentinel !in nodes
    requires m == Machine(Stage([sentinel] + nodes, Below(|ops|), model.init, [], []), 1, map[], 0)
    ensures MachineOK(model, nodes, ops, sentinel, m)
  {
    StartHead(model, nodes, ops, sentinel, m.st);
  }

  lemma TurnOK<I(!new), O(!new), S(!new)>(model: Model<I, O, S>, hash: (set<nat>, S) -> nat,
                                          nodes: seq<Entry<I, O>>, ops: seq<Operation<I, O>>, sentinel: Entry<I, O>,
                                          m: Machine<I, O, S>, m2: Machine<I, O, S>)
    requires Lawful(model) && MachineOK(model, nodes, ops, sentinel, m) && m2 == Turn(model, hash, ops, m)
    ensures MachineOK(model, nodes, ops, sentinel, m2)
  {
    match Choose(model, hash, ops, m)
    case TakeCall => TakeOK(model, hash, nodes, ops, sentinel, m);
    case PassCall => PassOK(model, hash, nodes, ops, sentinel, m);
    case GiveBack => GiveBackOK(model, hash, nodes, ops, sentinel, m);
    case _ =>
  }

  /** Every turn that goes on brings the search closer to its end. */
  lemma TurnShrinks<I, O, S>(model: Model<I, O, S>, hash: (set<nat>, S) -> nat, nodes: seq<Entry<I, O>>,
                             ops: seq<Operation<I, O>>, m: Machine<I, O, S>)
    requires Sized(nodes, m.st) && Measurable(nodes, ops, m.st, m.idx) && m.idx <= |nodes| && |m.st.slots| < |ops|
    requires Choose(model, hash, ops, m) in {TakeCall, PassCall, GiveBack}
    ensures Potential(nodes, ops, Turn(model, hash, ops, m)) < Potential(nodes, ops, m)
  {
    match Choose(model, hash, ops, m)
    case TakeCall =>
      var e := m.st.list[m.idx];
      PushShrinks(nodes, ops, m.st, SlotAt(m.st.list, m.idx), RestAt(m.st.list, m.idx),
                  model.step(m.st.state, e.op.input, e.partner.op.output).1);
    case PassCall => SkipShrinks(nodes, ops, m.st, m.idx);
    case GiveBack => PopShrinks(nodes, ops, m.st, m.idx);
  }

  /** What the heap has to allow for the next turn, and what stopping means. */
  ghost predicate TurnReady<I, O, S>(model: Model<I, O, S>, nodes: seq<Entry<I, O>>, ops: seq<Operation<I, O>>,
                                     sentinel: Entry<I, O>, m: Machine<I, O, S>, move: Move)
  {
    match move
    case TakeCall =>
      m.idx < |m.st.list| && m.st.list[m.idx].id in Below(|ops|) && m.st.list[m.idx].id in m.st.rem
      && Liftable(nodes, sentinel, m.st.slots, SlotAt(m.st.list, m.idx), RestAt(m.st.list, m.idx))
    case PassCall => m.idx < |m.st.list|
    case GiveBack =>
      |m.st.slots| == |m.st.levels| > 0
      && Liftable(nodes, sentinel, m.st.slots[..|m.st.slots| - 1], m.st.slots[|m.st.slots| - 1], m.st.list)
      && (var s := m.st.slots[|m.st.slots| - 1];
          Below(|ops|) - Popped(m.st).rem == (Below(|ops|) - m.st.rem) - {s.list[s.i].id})
    case Refute => !Linearizable(model, ops)
    case Accept => Linearizable(model, ops)
  }

  lemma Ready<I, O, S>(model: Model<I, O, S>, hash: (set<nat>, S) -> nat, nodes: seq<Entry<I, O>>,
                       ops: seq<Operation<I, O>>, sentinel: Entry<I, O>, m: Machine<I, O, S>)
    requires MachineOK(model, nodes, ops, sentinel, m)
    ensures TurnReady(model, nodes, ops, sentinel, m, Choose(model, hash, ops, m))
  {
    var move := Choose(model, hash, ops, m);
    if move == Accept {
      Finished(model, nodes, ops, sentinel, m.st);
    } else {
      HeadEntry(model, nodes, ops, sentinel, m.st, m.idx, m.cache);
      match move
      case TakeCall =>
        BelowIsRange(|ops|);
        FindPair(nodes, ops, sentinel, m.st.rem, m.st.list, m.st.slots, m.idx);
      case PassCall =>
      case _ => Returned(model, nodes, ops, sentinel, m.st, m.idx, m.cache);
    }
  }

  /** Puts the sentinel in front. */
  method Attach<I, O>(head: Entry<I, O>, ghost nodes: seq<Entry<I, O>>)
    returns (sentinel: Entry<I, O>)
    requires nodes != [] && head == nodes[0] && Linked(nodes)
    modifies nodes
    ensures fresh(sentinel) && Linked([sentinel] + nodes) && sentinel.next == head
  {
    sentinel := new Entry(true, 0, head.op, null, 0);
    head.prev := sentinel;
    sentinel.next := head;
  }

  lemma NextTurn<I(!new), O(!new), S(!new)>(model: Model<I, O, S>, hash: (set<nat>, S) -> nat,
                                            nodes: seq<Entry<I, O>>, ops: seq<Operation<I, O>>,
                                            sentinel: Entry<I, O>, k: nat, m: Machine<I, O, S>)
    requires Lawful(model) && Entries(nodes, ops) && sentinel !in nodes
    requires m == After(model, hash, nodes, ops, sentinel, k)
    ensures TurnReady(model, nodes, ops, sentinel, m, Choose(model, hash, ops, m))
    ensures (Choose(model, hash, ops, m) in {TakeCall, PassCall, GiveBack})
      ==> Potential(nodes, ops, Turn(model, hash, ops, m)) < Potential(nodes, ops, m)
  {
    AfterOK(model, hash, nodes, ops, sentinel, k, m);
    Ready(model, hash, nodes, ops, sentinel, m);
    if Choose(model, hash, ops, m) in {TakeCall, PassCall, GiveBack} {
      HeadEntry(model, nodes, ops, sentinel, m.st, m.idx, m.cache);
      TurnShrinks(model, hash, nodes, ops, m);
    }
  }

  /** The variables of the loop. */
  datatype Vars<I, O, !S> = Vars(entry: Entry?<I, O>, state: S, linearized: set<nat>, cache: map<nat, seq<Config<S>>>,
                                 cacheSize: nat, calls: seq<CallsEntry<I, O, S>>)

  /** The loop's variables store machine m. */
  ghost predicate Holds<I, O, S>(nodes: seq<Entry<I, O>>, ops: seq<Operation<I, O>>, sentinel: Entry<I, O>,
                                 m: Machine<I, O, S>, v: Vars<I, O, S>)
    reads m.st.list, nodes
  {
    Stored(nodes, sentinel, m.st, m.idx, v.entry, v.calls) && v.state == m.st.state
    && v.linearized == Below(|ops|) - m.st.rem && v.cache == m.cache && v.cacheSize == m.cacheSize
  }

  lemma EnteredIs<I, O, S>(model: Model<I, O, S>, hash: (set<nat>, S) -> nat, ops: seq<Operation<I, O>>,
                           m: Machine<I, O, S>, entry: Entry<I, O>, next: S, newLinearized: set<nat>, key: nat,
                           cache: map<nat, seq<Config<S>>>, cacheSize: nat)
    requires Choose(model, hash, ops, m) == TakeCall && m.idx < |m.st.list| && m.st.list[m.idx] == entry
    requires entry.partner != null && next == model.step(m.st.state, entry.op.input, entry.partner.op.output).1
    requires newLinearized == (Below(|ops|) - m.st.rem) + {entry.id} && key == hash(newLinearized, next)
    requires if m.cacheSize < CacheCap(|ops|)
      then cache == Remember(m.cache, key, Config(newLinearized, next)) && cacheSize == m.cacheSize + 1
      else cache == m.cache && cacheSize == m.cacheSize
    ensures Turn(model, hash, ops, m)
      == Machine(Pushed(m.st, SlotAt(m.st.list, m.idx), RestAt(m.st.list, m.idx), next), 1, cache, cacheSize)
  {
  }

  /** The turn that takes a call: its pair is lifted and the search goes on at the first entry left. */
  method Enter<I(!new), O(!new), S(!new)>(model: Model<I, O, S>, ghost hash: (set<nat>, S) -> nat, n: nat,
                                          entry: Entry<I, O>, v: Vars<I, O, S>, next: S, newLinearized: set<nat>,
                                          key: nat, sentinel: Entry<I, O>, ghost nodes: seq<Entry<I, O>>,
                                          ghost ops: seq<Operation<I, O>>, ghost m: Machine<I, O, S>)
    returns (v2: Vars<I, O, S>)
    requires Holds(nodes, ops, sentinel, m, v) && entry == v.entry && entry.partner != null && n == |ops|
    requires TurnReady(model, nodes, ops, sentinel, m, TakeCall) && Choose(model, hash, ops, m) == TakeCall
    requires next == model.step(v.state, entry.op.input, entry.partner.op.output).1
    requires newLinearized == v.linearized + {entry.id} && key == hash(newLinearized, next)
    modifies nodes, sentinel
    ensures Holds(nodes, ops, sentinel, Turn(model, hash, ops, m), v2)
  {
    var cache, cacheSize := v.cache, v.cacheSize;
    if cacheSize < CacheCap(n) {
      cache, cacheSize := Remember(cache, key, Config(newLinearized, next)), cacheSize + 1;
    }
    var first, calls := Descend(entry, v.state, v.calls, sentinel, nodes, m.st, SlotAt(m.st.list, m.idx),
                                RestAt(m.st.list, m.idx), next);
    v2 := Vars(first, next, newLinearized, cache, cacheSize, calls);
    EnteredIs(model, hash, ops, m, entry, next, newLinearized, key, cache, cacheSize);
  }

  /** One turn of the loop at a call entry. */
  method VisitCall<I(!new), O(!new), S(!new)>(model: Model<I, O, S>, hash: (set<nat>, S) -> nat, n: nat,
                                              entry: Entry<I, O>, v: Vars<I, O, S>, sentinel: Entry<I, O>,
                                              ghost nodes: seq<Entry<I, O>>, ghost ops: seq<Operation<I, O>>,
                                              ghost m: Machine<I, O, S>)
    returns (v2: Vars<I, O, S>)
    requires Holds(nodes, ops, sentinel, m, v) && entry == v.entry && entry.partner != null && n == |ops|
    requires TurnReady(model, nodes, ops, sentinel, m, Choose(model, hash, ops, m))
    modifies nodes, sentinel
    ensures Holds(nodes, ops, sentinel, Turn(model, hash, ops, m), v2)
  {
    var (possible, next) := model.step(v.state, entry.op.input, entry.partner.op.output);
    var newLinearized := v.linearized + {entry.id};
    var key := hash(newLinearized, next);
    var seen := false;
    if possible && key in v.cache { seen := Seen(v.cache[key], newLinearized, next, model.equal); }
    if possible && !seen {
      v2 := Enter(model, hash, n, entry, v, next, newLinearized, key, sentinel, nodes, ops, m);
    } else {
      NextAt(m.st.list, m.idx);
      v2 := v.(entry := entry.next);
    }
  }

  /** One turn of the loop at a return entry, with a call on the stack. */
  method VisitReturn<I(!new), O(!new), S(!new)>(ghost model: Model<I, O, S>, ghost hash: (set<nat>, S) -> nat,
                                                ghost entry: Entry<I, O>, v: Vars<I, O, S>, ghost sentinel: Entry<I, O>,
                                                ghost nodes: seq<Entry<I, O>>, ghost ops: seq<Operation<I, O>>,
                                                ghost m: Machine<I, O, S>)
    returns (v2: Vars<I, O, S>)
    requires Holds(nodes, ops, sentinel, m, v) && entry == v.entry && entry.partner == null && v.calls != []
    requires TurnReady(model, nodes, ops, sentinel, m, Choose(model, hash, ops, m))
    modifies nodes, sentinel
    ensures Holds(nodes, ops, sentinel, Turn(model, hash, ops, m), v2)
  {
    var next, state, id, calls := Backtrack(v.calls, sentinel, nodes, m.st, m.idx, entry);
    v2 := v.(entry := next, state := state, linearized := v.linearized - {id}, calls := calls);
  }

  /** The search answers right and ends, whatever the number of turns. */
  ghost predicate Sound<I, O, S>(model: Model<I, O, S>, hash: (set<nat>, S) -> nat, nodes: seq<Entry<I, O>>,
                                 ops: seq<Operation<I, O>>, sentinel: Entry<I, O>)
  {
    forall k: nat :: SoundAt(model, hash, nodes, ops, sentinel, After(model, hash, nodes, ops, sentinel, k))
  }

  ghost predicate SoundAt<I, O, S>(model: Model<I, O, S>, hash: (set<nat>, S) -> nat, nodes: seq<Entry<I, O>>,
                                   ops: seq<Operation<I, O>>, sentinel: Entry<I, O>, m: Machine<I, O, S>)
  {
    TurnReady(model, nodes, ops, sentinel, m, Choose(model, hash, ops, m))
    && ((Choose(model, hash, ops, m) in {TakeCall, PassCall, GiveBack})
        ==> Potential(nodes, ops, Turn(model, hash, ops, m)) < Potential(nodes, ops, m))
  }

  /** One turn of the loop: it goes on, or stops with the answer no. */
  method Visit<I(!new), O(!new), S(!new)>(model: Model<I, O, S>, hash: (set<nat>, S) -> nat, n: nat, entry: Entry<I, O>,
                                          v: Vars<I, O, S>, sentinel: Entry<I, O>, ghost nodes: seq<Entry<I, O>>,
                                          ghost ops: seq<Operation<I, O>>, ghost m: Machine<I, O, S>)
    returns (refuted: bool, v2: Vars<I, O, S>)
    requires Holds(nodes, ops, sentinel, m, v) && entry == v.entry && n == |ops|
    requires TurnReady(model, nodes, ops, sentinel, m, Choose(model, hash, ops, m))
    modifies nodes, sentinel
    ensures refuted <==> Choose(model, hash, ops, m) == Refute
    ensures !refuted ==> Holds(nodes, ops, sentinel, Turn(model, hash, ops, m), v2)
  {
    refuted, v2 := false, v;
    if entry.partner != null {
      v2 := VisitCall(model, hash, n, entry, v, sentinel, nodes, ops, m);
    } else if v.calls == [] {
      refuted := true;
    } else {
      v2 := VisitReturn(model, hash, entry, v, sentinel, nodes, ops, m);
    }
  }

  /** The variables store the search after some number of turns, with left still to do. */
  ghost predicate Running<I, O, S>(model: Model<I, O, S>, hash: (set<nat>, S) -> nat, nodes: seq<Entry<I, O>>,
                                   ops: seq<Operation<I, O>>, sentinel: Entry<I, O>, v: Vars<I, O, S>, left: nat)
    reads nodes, sentinel
  {
    exists k: nat :: RunningAt(nodes, ops, sentinel, After(model, hash, nodes, ops, sentinel, k), v, left)
  }

  ghost predicate RunningAt<I, O, S>(nodes: seq<Entry<I, O>>, ops: seq<Operation<I, O>>, sentinel: Entry<I, O>,
                                     m: Machine<I, O, S>, v: Vars<I, O, S>, left: nat)
    reads nodes, sentinel
  {
    ListIn(nodes, sentinel, m) && Holds(nodes, ops, sentinel, m, v) && left == Potential(nodes, ops, m)
  }

  ghost predicate ListIn<I, O, S>(nodes: seq<Entry<I, O>>, sentinel: Entry<I, O>, m: Machine<I, O, S>) {
    forall i :: 0 <= i < |m.st.list| ==> m.st.list[i] in nodes || m.st.list[i] == sentinel
  }

  lemma PairGone<I, O>(s: Slot<I, O>, rest: seq<Entry<I, O>>)
    requires PairRemoved(s.list, s.i, s.j, s.mid, rest)
    ensures forall k :: 0 <= k < |rest| ==> rest[k] in s.list
  {
    RemovedKeeps(s.list, s.i, s.mid);
    RemovedKeeps(s.mid, s.j - 1, rest);
    forall k | 0 <= k < |rest| ensures rest[k] in s.list { assert rest[k] in rest && rest[k] in s.mid; }
  }

  lemma TurnListIn<I, O, S>(model: Model<I, O, S>, hash: (set<nat>, S) -> nat, nodes: seq<Entry<I, O>>,
                            ops: seq<Operation<I, O>>, sentinel: Entry<I, O>, m: Machine<I, O, S>)
    requires ListIn(nodes, sentinel, m) && TurnReady(model, nodes, ops, sentinel, m, Choose(model, hash, ops, m))
    ensures ListIn(nodes, sentinel, Turn(model, hash, ops, m))
  {
    if Choose(model, hash, ops, m) == TakeCall {
      PairGone(SlotAt(m.st.list, m.idx), RestAt(m.st.list, m.idx));
    }
  }

  /** One turn, counted: it stops with the answer no, or leaves less to do. */
  method Advance<I(!new), O(!new), S(!new)>(model: Model<I, O, S>, hash: (set<nat>, S) -> nat, n: nat,
                                            entry: Entry<I, O>, v: Vars<I, O, S>, sentinel: Entry<I, O>,
                                            ghost nodes: seq<Entry<I, O>>, ghost ops: seq<Operation<I, O>>,
                                            ghost left: nat)
    returns (refuted: bool, v2: Vars<I, O, S>, ghost left2: nat)
    requires Sound(model, hash, nodes, ops, sentinel) && n == |ops| && entry == v.entry
    requires Running(model, hash, nodes, ops, sentinel, v, left)
    modifies nodes, sentinel
    ensures refuted ==> !Linearizable(model, ops)
    ensures !refuted ==> Running(model, hash, nodes, ops, sentinel, v2, left2) && left2 < left
  {
    ghost var k: nat :| RunningAt(nodes, ops, sentinel, After(model, hash, nodes, ops, sentinel, k), v, left);
    ghost var m := After(model, hash, nodes, ops, sentinel, k);
    assert SoundAt(model, hash, nodes, ops, sentinel, m);
    TurnListIn(model, hash, nodes, ops, sentinel, m);
    refuted, v2 := Visit(model, hash, n, entry, v, sentinel, nodes, ops, m);
    ghost var m2 := After(model, hash, nodes, ops, sentinel, k + 1);
    left2 := Potential(nodes, ops, m2);
    if !refuted { assert RunningAt(nodes, ops, sentinel, m2, v2, left2); }
  }

  lemma StartRuns<I, O, S>(model: Model<I, O, S>, hash: (set<nat>, S) -> nat, head: Entry<I, O>, sentinel: Entry<I, O>,
                           nodes: seq<Entry<I, O>>, ops: seq<Operation<I, O>>, left: nat)
    requires |nodes| > 0 && Linked([sentinel] + nodes) && head == nodes[0]
    requires left == Potential(nodes, ops, After(model, hash, nodes, ops, sentinel, 0))
    ensures Running(model, hash, nodes, ops, sentinel, Vars(head, model.init, {}, map[], 0, []), left)
  {
    var m := After(model, hash, nodes, ops, sentinel, 0);
    assert RunningAt(nodes, ops, sentinel, m, Vars(head, model.init, {}, map[], 0, []), left);
  }

  lemma EndAccepts<I, O, S>(model: Model<I, O, S>, hash: (set<nat>, S) -> nat, sentinel: Entry<I, O>,
                            nodes: seq<Entry<I, O>>, ops: seq<Operation<I, O>>, v: Vars<I, O, S>, left: nat)
    requires Sound(model, hash, nodes, ops, sentinel) && Running(model, hash, nodes, ops, sentinel, v, left)
    requires v.entry == null
    ensures Linearizable(model, ops)
  {
    var k: nat :| RunningAt(nodes, ops, sentinel, After(model, hash, nodes, ops, sentinel, k), v, left);
    assert SoundAt(model, hash, nodes, ops, sentinel, After(model, hash, nodes, ops, sentinel, k));
  }

  /**
   * Depth-first search for a linearization. Unless killed, it answers whether there is one:
   * neither the memo nor its capacity changes the answer. kill says that another thread may
   * raise the flag meanwhile.
   */
  method CheckSingle<I(!new), O(!new), S(!new)>(model: Model<I, O, S>, head: Entry?<I, O>,
                                                hash: (set<nat>, S) -> nat, kill: bool,
                                                ghost nodes: seq<Entry<I, O>>, ghost ops: seq<Operation<I, O>>)
    returns (ok: bool, ghost killed: bool)
    requires Lawful(model) && Entries(nodes, ops)
    requires if nodes == [] then head == null else head == nodes[0] && Linked(nodes)
    modifies nodes
    ensures ok ==> Linearizable(model, ops)
    ensures !ok && !killed ==> !Linearizable(model, ops)
    ensures !kill ==> !killed
  {
    var length := Length(head, nodes);
    var n := length / 2;
    if n == 0 {
      EmptyFinishes(model, ops, model.init);
      return true, false;
    }
    var sentinel := Attach(head, nodes);
    AlwaysSound(model, hash, nodes, ops, sentinel);
    var v := Vars(sentinel.next, model.init, {}, map[], 0, []);
    ghost var left := Potential(nodes, ops, After(model, hash, nodes, ops, sentinel, 0));
    StartRuns(model, hash, head, sentinel, nodes, ops, left);
    while v.entry != null
      invariant Running(model, hash, nodes, ops, sentinel, v, left)
      decreases left
    {
      var stop: bool := *;
      if kill && stop { return false, true; }
      var refuted;
      refuted, v, left := Advance(model, hash, n, v.entry, v, sentinel, nodes, ops, left);
      if refuted { return false, false; }
    }
    EndAccepts(model, hash, sentinel, nodes, ops, v, left);
    return true, false;
  }

  lemma AlwaysSound<I(!new), O(!new), S(!new)>(model: Model<I, O, S>, hash: (set<nat>, S) -> nat,
                                               nodes: seq<Entry<I, O>>, ops: seq<Operation<I, O>>,
                                               sentinel: Entry<I, O>)
    requires Lawful(model) && Entries(nodes, ops) && sentinel !in nodes
    ensures Sound(model, hash, nodes, ops, sentinel)
  {
    forall k: nat ensures SoundAt(model, hash, nodes, ops, sentinel, After(model, hash, nodes, ops, sentinel, k)) {
      NextTurn(model, hash, nodes, ops, sentinel, k, After(model, hash, nodes, ops, sentinel, k));
    }
  }
}
