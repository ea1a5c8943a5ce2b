/**
 * What it means for a history of timed operations to be linearizable (Herlihy and Wing,
 * 1990): some total order of the operations respects real time and is a legal run of a
 * sequential model.
 */
module Linearizability {
  import opened OrderStatistics

  /** One recorded operation: issued at call, answered at ret. */
  datatype Operation<I, O> = Operation(input: I, output: O, call: int, ret: int)

  /** A sequential model; equal identifies states that behave alike. */
  datatype Model<!I, !O, !S> = Model(init: S, step: (S, I, O) -> (bool, S), equal: (S, S) -> bool)

  /** a was answered before b was issued. */
  predicate Precedes<I, O>(ops: seq<Operation<I, O>>, a: nat, b: nat)
    requires a < |ops| && b < |ops|
  {
    ops[a].ret < ops[b].call
  }

  predicate Legal<I, O, S>(model: Model<I, O, S>, ops: seq<Operation<I, O>>, state: S, order: seq<nat>)
    requires forall k :: 0 <= k < |order| ==> order[k] < |ops|
    decreases |order|
  {
    if order == [] then true
    else
      var (ok, next) := model.step(state, ops[order[0]].input, ops[order[0]].output);
      ok && Legal(model, ops, next, order[1..])
  }

  predicate RealTime<I, O>(ops: seq<Operation<I, O>>, order: seq<nat>)
    requires forall k :: 0 <= k < |order| ==> order[k] < |ops|
  {
    forall i, j :: 0 <= i < j < |order| ==> !Precedes(ops, order[j], order[i])
  }

  /** order lists exactly the operations of rest, each once. */
  ghost predicate Lists(order: seq<nat>, rest: set<nat>) {
    (forall k :: 0 <= k < |order| ==> order[k] in rest)
    && (forall x :: x in rest ==> x in order)
    && (forall i, j :: 0 <= i < j < |order| ==> order[i] != order[j])
  }

  ghost predicate Within<I, O>(ops: seq<Operation<I, O>>, rest: set<nat>) {
    forall x :: x in rest ==> x < |ops|
  }

  ghost predicate Finishes<I, O, S>(model: Model<I, O, S>, ops: seq<Operation<I, O>>, rest: set<nat>, state: S,
                                    order: seq<nat>)
    requires Within(ops, rest)
  {
    Lists(order, rest) && RealTime(ops, order) && Legal(model, ops, state, order)
  }

  /** The operations of rest can be linearized from state. */
  ghost predicate CanFinish<I, O, S>(model: Model<I, O, S>, ops: seq<Operation<I, O>>, rest: set<nat>, state: S)
    requires Within(ops, rest)
  {
    exists order :: Finishes(model, ops, rest, state, order)
  }

  ghost predicate Linearizable<I, O, S>(model: Model<I, O, S>, ops: seq<Operation<I, O>>) {
    BelowIsRange(|ops|);
    CanFinish(model, ops, Below(|ops|), model.init)
  }

  /** o may come first: nothing left was answered before o was issued. */
  ghost predicate Minimal<I, O>(ops: seq<Operation<I, O>>, rest: set<nat>, o: nat)
    requires Within(ops, rest)
  {
    o in rest && forall x :: x in rest ==> !Precedes(ops, x, o)
  }

  /** o cannot come next. */
  ghost predicate Refuted<I, O, S>(model: Model<I, O, S>, ops: seq<Operation<I, O>>, rest: set<nat>, state: S, o: nat)
    requires Within(ops, rest) && o < |ops|
  {
    var (ok, next) := model.step(state, ops[o].input, ops[o].output);
    !ok || !CanFinish(model, ops, rest - {o}, next)
  }

  lemma EmptyFinishes<I, O, S>(model: Model<I, O, S>, ops: seq<Operation<I, O>>, state: S)
    ensures CanFinish(model, ops, {}, state)
  {
    assert Finishes(model, ops, {}, state, []);
  }

  /** Taking a minimal operation that the model allows keeps a way to finish. */
  lemma TakeFirst<I, O, S>(model: Model<I, O, S>, ops: seq<Operation<I, O>>, rest: set<nat>, state: S, o: nat)
    requires Within(ops, rest) && Minimal(ops, rest, o) && !Refuted(model, ops, rest, state, o)
    ensures CanFinish(model, ops, rest, state)
  {
    var next := model.step(state, ops[o].input, ops[o].output).1;
    var tail :| Finishes(model, ops, rest - {o}, next, tail);
    var order := [o] + tail;
    assert order[1..] == tail;
    forall x | x in rest ensures x in order {
      if x != o { assert x in tail; }
    }
    assert Finishes(model, ops, rest, state, order);
  }

  /** If every operation that may come first is refuted, nothing finishes. */
  lemma AllRefuted<I, O, S>(model: Model<I, O, S>, ops: seq<Operation<I, O>>, rest: set<nat>, state: S)
    requires Within(ops, rest) && rest != {}
    requires forall x :: x in rest ==> ops[x].call <= ops[x].ret
    requires forall o :: o in rest && Minimal(ops, rest, o) ==> Refuted(model, ops, rest, state, o)
    ensures !CanFinish(model, ops, rest, state)
  {
    if CanFinish(model, ops, rest, state) {
      var order :| Finishes(model, ops, rest, state, order);
      FirstIsMinimal(model, ops, rest, state, order);
      assert false;
    }
  }

  lemma FirstIsMinimal<I, O, S>(model: Model<I, O, S>, ops: seq<Operation<I, O>>, rest: set<nat>, state: S,
                                order: seq<nat>)
    requires Within(ops, rest) && rest != {} && Finishes(model, ops, rest, state, order)
    requires forall x :: x in rest ==> ops[x].call <= ops[x].ret
    ensures order != [] && Minimal(ops, rest, order[0]) && !Refuted(model, ops, rest, state, order[0])
  {
    var any :| any in rest;
    assert any in order;
    var o, tail := order[0], order[1..];
    forall x | x in rest ensures !Precedes(ops, x, o) {
      var j :| 0 <= j < |order| && order[j] == x;
    }
    forall x | x in rest - {o} ensures x in tail {
      var j :| 0 <= j < |order| && order[j] == x;
      assert tail[j - 1] == x;
    }
    var next := model.step(state, ops[o].input, ops[o].output).1;
    assert Finishes(model, ops, rest - {o}, next, tail);
  }

  /** equal is a congruence: equal states allow the same operations and stay equal. */
  ghost predicate Lawful<I(!new), O(!new), S(!new)>(model: Model<I, O, S>) {
    forall a: S, b: S, i: I, o: O :: LawfulAt(model, a, b, i, o)
  }

  ghost predicate LawfulAt<I(!new), O(!new), S(!new)>(model: Model<I, O, S>, a: S, b: S, i: I, o: O) {
    model.equal(a, b) ==>
      model.step(a, i, o).0 == model.step(b, i, o).0
      && (model.step(a, i, o).0 ==> model.equal(model.step(a, i, o).1, model.step(b, i, o).1))
  }

  lemma {:induction false} EqualLegal<I(!new), O(!new), S(!new)>(model: Model<I, O, S>, ops: seq<Operation<I, O>>,
                                                                a: S, b: S, order: seq<nat>)
    requires Lawful(model) && model.equal(a, b) && forall k :: 0 <= k < |order| ==> order[k] < |ops|
    ensures Legal(model, ops, a, order) == Legal(model, ops, b, order)
    decreases |order|
  {
    if order != [] {
      var op := ops[order[0]];
      var x, y := model.step(a, op.input, op.output), model.step(b, op.input, op.output);
      assert LawfulAt(model, a, b, op.input, op.output);
      if x.0 { EqualLegal(model, ops, x.1, y.1, order[1..]); }
    }
  }

  /** Equal states can finish the same operations. */
  lemma EqualFinish<I(!new), O(!new), S(!new)>(model: Model<I, O, S>, ops: seq<Operation<I, O>>, rest: set<nat>,
                                               a: S, b: S)
    requires Lawful(model) && model.equal(a, b) && Within(ops, rest)
    ensures CanFinish(model, ops, rest, b) ==> CanFinish(model, ops, rest, a)
  {
    if CanFinish(model, ops, rest, b) {
      var order :| Finishes(model, ops, rest, b, order);
      EqualLegal(model, ops, a, b, order);
      assert Finishes(model, ops, rest, a, order);
    }
  }
}
