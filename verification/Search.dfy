/**
 * The search for a linearization, apart from how the entries are stored: the trail of
 * chosen operations, the memo table, and the measure that shrinks.
 */
module Search {
  import opened OrderStatistics
  import opened Linearizability

  /** A choice on the trail: what was left, the state, and the operation taken next. */
  datatype Level<!S> = Level(rem: set<nat>, state: S, op: nat)

  /** Taking level l's operation leads to rem and state. */
  ghost predicate StepTo<I, O, S>(model: Model<I, O, S>, ops: seq<Operation<I, O>>, l: Level<S>, rem: set<nat>,
                                  state: S) {
    Within(ops, l.rem) && l.op in l.rem && rem == l.rem - {l.op}
    && model.step(l.state, ops[l.op].input, ops[l.op].output) == (true, state)
    && Minimal(ops, l.rem, l.op)
  }

  /** The levels lead from the start to rem and state. */
  ghost predicate Trail<I, O, S>(model: Model<I, O, S>, ops: seq<Operation<I, O>>, levels: seq<Level<S>>,
                                 rem: set<nat>, state: S)
    decreases |levels|
  {
    if levels == [] then rem == Below(|ops|) && state == model.init
    else
      var l := levels[|levels| - 1];
      StepTo(model, ops, l, rem, state) && Trail(model, ops, levels[..|levels| - 1], l.rem, l.state)
  }

  /** Finishing from the end of the trail is finishing from the start. */
  lemma {:induction false} TrailFinishes<I, O, S>(model: Model<I, O, S>, ops: seq<Operation<I, O>>,
                                                  levels: seq<Level<S>>, rem: set<nat>, state: S)
    requires Trail(model, ops, levels, rem, state) && Within(ops, rem) && CanFinish(model, ops, rem, state)
    ensures Linearizable(model, ops)
    decreases |levels|
  {
    BelowIsRange(|ops|);
    if levels != [] {
      var l := levels[|levels| - 1];
      TakeFirst(model, ops, l.rem, l.state, l.op);
      TrailFinishes(model, ops, levels[..|levels| - 1], l.rem, l.state);
    }
  }

  lemma {:induction false} TrailShrinks<I, O, S>(model: Model<I, O, S>, ops: seq<Operation<I, O>>,
                                                 levels: seq<Level<S>>, rem: set<nat>, state: S)
    requires Trail(model, ops, levels, rem, state)
    ensures rem <= Below(|ops|) && |levels| + |rem| == |ops|
    ensures forall d :: 0 <= d < |levels| ==> rem < levels[d].rem
    decreases |levels|
  {
    BelowIsRange(|ops|);
    if levels != [] {
      var l, init := levels[|levels| - 1], levels[..|levels| - 1];
      TrailShrinks(model, ops, init, l.rem, l.state);
      assert l.rem == rem + {l.op};
      forall d | 0 <= d < |levels| ensures rem < levels[d].rem {
        assert d < |levels| - 1 ==> levels[d] == init[d];
      }
    }
  }

  // --------------------------------------------------------------- the memo

  /** A memoized configuration: the operations taken and the state reached. */
  datatype Config<!S> = Config(done: set<nat>, state: S)

  ghost predicate OnTrail<S>(all: set<nat>, levels: seq<Level<S>>, rem: set<nat>, state: S, c: Config<S>) {
    (all - c.done == rem && c.state == state)
    || exists d :: 0 <= d < |levels| && all - c.done == levels[d].rem && c.state == levels[d].state
  }

  /** Nothing finishes from c, or c is on the trail. */
  ghost predicate ConfigOK<I, O, S>(model: Model<I, O, S>, ops: seq<Operation<I, O>>, levels: seq<Level<S>>,
                                    rem: set<nat>, state: S, c: Config<S>)
  {
    BelowIsRange(|ops|);
    !CanFinish(model, ops, Below(|ops|) - c.done, c.state) || OnTrail(Below(|ops|), levels, rem, state, c)
  }

  ghost predicate MemoOK<I, O, S>(model: Model<I, O, S>, ops: seq<Operation<I, O>>, levels: seq<Level<S>>,
                                  rem: set<nat>, state: S, memo: map<nat, seq<Config<S>>>)
  {
    forall k, x :: k in memo && 0 <= x < |memo[k]| ==> ConfigOK(model, ops, levels, rem, state, memo[k][x])
  }

  function Remember<S>(memo: map<nat, seq<Config<S>>>, key: nat, c: Config<S>): map<nat, seq<Config<S>>> {
    memo[key := (if key in memo then memo[key] else []) + [c]]
  }

  /** Going one level deeper keeps the memo right, whether or not the new configuration is recorded. */
  lemma MemoPush<I, O, S>(model: Model<I, O, S>, ops: seq<Operation<I, O>>, levels: seq<Level<S>>, rem: set<nat>,
                          state: S, memo: map<nat, seq<Config<S>>>, op: nat, next: S,
                          memo2: map<nat, seq<Config<S>>>, key: nat, c: Config<S>)
    requires MemoOK(model, ops, levels, rem, state, memo)
    requires Below(|ops|) - c.done == rem - {op} && c.state == next
    requires memo2 == memo || memo2 == Remember(memo, key, c)
    ensures MemoOK(model, ops, levels + [Level(rem, state, op)], rem - {op}, next, memo2)
  {
    var levels2 := levels + [Level(rem, state, op)];
    forall k, x | k in memo2 && 0 <= x < |memo2[k]|
      ensures ConfigOK(model, ops, levels2, rem - {op}, next, memo2[k][x])
    {
      if k in memo && x < |memo[k]| {
        assert memo2[k][x] == memo[k][x];
        ConfigPush(model, ops, levels, rem, state, op, next, memo[k][x]);
      }
    }
  }

  lemma ConfigPush<I, O, S>(model: Model<I, O, S>, ops: seq<Operation<I, O>>, levels: seq<Level<S>>, rem: set<nat>,
                            state: S, op: nat, next: S, c: Config<S>)
    requires ConfigOK(model, ops, levels, rem, state, c)
    ensures ConfigOK(model, ops, levels + [Level(rem, state, op)], rem - {op}, next, c)
  {
    var levels2 := levels + [Level(rem, state, op)];
    var all := Below(|ops|);
    if OnTrail(all, levels, rem, state, c) {
      if all - c.done == rem && c.state == state {
        assert levels2[|levels|] == Level(rem, state, op);
      } else {
        var d :| 0 <= d < |levels| && all - c.done == levels[d].rem && c.state == levels[d].state;
        assert levels2[d] == levels[d];
      }
    }
  }

  /** Leaving a level, whose configuration proved hopeless, keeps the memo right. */
  lemma MemoPop<I, O, S>(model: Model<I, O, S>, ops: seq<Operation<I, O>>, levels: seq<Level<S>>, rem: set<nat>,
                         state: S, memo: map<nat, seq<Config<S>>>)
    requires MemoOK(model, ops, levels, rem, state, memo) && levels != []
    requires Within(ops, rem) && !CanFinish(model, ops, rem, state)
    ensures var l := levels[|levels| - 1]; MemoOK(model, ops, levels[..|levels| - 1], l.rem, l.state, memo)
  {
    var l, init := levels[|levels| - 1], levels[..|levels| - 1];
    forall k, x | k in memo && 0 <= x < |memo[k]| ensures ConfigOK(model, ops, init, l.rem, l.state, memo[k][x]) {
      var c := memo[k][x];
      assert ConfigOK(model, ops, levels, rem, state, c);
      ConfigPop(model, ops, levels, rem, state, c);
    }
  }

  lemma ConfigPop<I, O, S>(model: Model<I, O, S>, ops: seq<Operation<I, O>>, levels: seq<Level<S>>, rem: set<nat>,
                           state: S, c: Config<S>)
    requires ConfigOK(model, ops, levels, rem, state, c) && levels != []
    requires Within(ops, rem) && !CanFinish(model, ops, rem, state)
    ensures var l := levels[|levels| - 1]; ConfigOK(model, ops, levels[..|levels| - 1], l.rem, l.state, c)
  {
    var all, init := Below(|ops|), levels[..|levels| - 1];
    BelowIsRange(|ops|);
    if CanFinish(model, ops, all - c.done, c.state) {
      var d :| 0 <= d < |levels| && all - c.done == levels[d].rem && c.state == levels[d].state;
      if d < |levels| - 1 { assert init[d] == levels[d]; }
    }
  }

  /** A memo hit refutes the operation: what it leads to was searched before, in vain. */
  lemma HitRefutes<I(!new), O(!new), S(!new)>(model: Model<I, O, S>, ops: seq<Operation<I, O>>, levels: seq<Level<S>>,
                                              rem: set<nat>, state: S, o: nat, c: Config<S>, next: S)
    requires Lawful(model) && Trail(model, ops, levels, rem, state) && Within(ops, rem) && o in rem
    requires ConfigOK(model, ops, levels, rem, state, c) && model.equal(c.state, next)
    requires c.done == (Below(|ops|) - rem) + {o}
    requires model.step(state, ops[o].input, ops[o].output) == (true, next)
    ensures Refuted(model, ops, rem, state, o)
  {
    TrailShrinks(model, ops, levels, rem, state);
    assert Below(|ops|) - c.done == rem - {o};
    EqualFinish(model, ops, rem - {o}, c.state, next);
  }

  // ------------------------------------------------------------ termination

  function Pow(b: nat, e: nat): (r: nat)
    ensures b > 0 ==> r > 0
  {
    if e == 0 then 1 else b * Pow(b, e - 1)
  }

  ghost predicate AllBelow(places: seq<nat>, base: nat) {
    forall k :: 0 <= k < |places| ==> places[k] < base
  }

  function Times(a: nat, b: nat): nat {
    a * b
  }

  /** The work left at the levels below the top, each with its position frozen. */
  ghost function Frozen(base: nat, n: nat, places: seq<nat>): nat
    requires |places| <= n && AllBelow(places, base)
    decreases |places|
  {
    if places == [] then 0
    else
      var last := |places| - 1;
      Frozen(base, n, places[..last]) + Times(base - places[last] - 1, Pow(base, n - last))
  }

  /** Everything the search may still do: it moves lexicographically forward through the positions. */
  ghost function Work(base: nat, n: nat, places: seq<nat>, idx: nat): nat
    requires |places| <= n && idx < base && AllBelow(places, base)
  {
    Frozen(base, n, places) + Times(base - idx, Pow(base, n - |places|))
  }

  lemma SkipLess(base: nat, n: nat, places: seq<nat>, idx: nat)
    requires |places| <= n && idx + 1 < base && AllBelow(places, base)
    ensures Work(base, n, places, idx + 1) < Work(base, n, places, idx)
  {
    var w := Pow(base, n - |places|);
    assert (base - idx) * w == (base - idx - 1) * w + w;
  }

  lemma PushLess(base: nat, n: nat, places: seq<nat>, idx: nat)
    requires |places| < n && 1 < base && idx < base && AllBelow(places, base)
    ensures Work(base, n, places + [idx], 1) < Work(base, n, places, idx)
  {
    var w := Pow(base, n - |places|);
    var v := Pow(base, n - |places| - 1);
    assert (places + [idx])[..|places|] == places;
    assert (base - idx) * w == (base - idx - 1) * w + w;
    assert w == base * v && (base - 1) * v == base * v - v;
  }

  lemma PopLess(base: nat, n: nat, places: seq<nat>, idx: nat)
    requires 0 < |places| <= n && idx < base && AllBelow(places, base) && places[|places| - 1] + 1 < base
    ensures Work(base, n, places[..|places| - 1], places[|places| - 1] + 1) < Work(base, n, places, idx)
  {
    var v := Pow(base, n - |places|);
    assert (base - idx) * v > 0;
  }
}
