/**
 * The sequential key-value model, its split by key, and the locality of linearizability: a
 * history is linearizable against the map of all keys exactly when every key's part is
 * linearizable against the single-key model.
 */
module KvModel {
  import opened OrderStatistics
  import opened Linearizability

  const GET: nat := 0
  const PUT: nat := 1
  const APPEND: nat := 2

  datatype KvInput = KvInput(op: nat, key: string, value: string)
  datatype KvOutput = KvOutput(value: string)
  type KvOperation = Operation<KvInput, KvOutput>

  /** One key: what operation inp answering out does to the key's value. */
  function KvStep(state: string, inp: KvInput, out: KvOutput): (bool, string) {
    if inp.op == GET then (out.value == state, state)
    else if inp.op == PUT then (true, inp.value)
    else if inp.op == APPEND then (true, state + inp.value)
    else (false, state)
  }

  function KvEqual(a: string, b: string): bool {
    a == b
  }

  const Single: Model<KvInput, KvOutput, string> := Model("", KvStep, KvEqual)

  lemma SingleLawful()
    ensures Lawful(Single)
  {
  }

  function Lookup(m: map<string, string>, k: string): string {
    if k in m then m[k] else ""
  }

  /** All keys at once. */
  function WholeStep(m: map<string, string>, inp: KvInput, out: KvOutput): (bool, map<string, string>) {
    var (ok, v) := KvStep(Lookup(m, inp.key), inp, out);
    (ok, m[inp.key := v])
  }

  function SameLookups(a: map<string, string>, b: map<string, string>): bool {
    a == b
  }

  const Whole: Model<KvInput, KvOutput, map<string, string>> := Model(map[], WholeStep, SameLookups)

  /** The operations of rest on key k. */
  ghost function OfKey(history: seq<KvOperation>, rest: set<nat>, k: string): set<nat>
    requires Within(history, rest)
  {
    set o | o in rest && history[o].input.key == k
  }

  ghost predicate Ordered(history: seq<KvOperation>) {
    forall o: nat :: o < |history| ==> history[o].call <= history[o].ret
  }

  ghost predicate EachKeyFinishes(history: seq<KvOperation>, rest: set<nat>, m: map<string, string>)
    requires Within(history, rest)
  {
    forall k :: CanFinish(Single, history, OfKey(history, rest, k), Lookup(m, k))
  }

  // --------------------------------------------------------------- locality

  /** Finishing everything finishes every key. */
  lemma {:induction false} WholeToKeys(history: seq<KvOperation>, rest: set<nat>, m: map<string, string>)
    requires Within(history, rest) && Ordered(history) && CanFinish(Whole, history, rest, m)
    ensures EachKeyFinishes(history, rest, m)
    decreases |rest|
  {
    if rest == {} {
      forall k ensures CanFinish(Single, history, OfKey(history, rest, k), Lookup(m, k)) {
        assert OfKey(history, rest, k) == {};
        EmptyFinishes(Single, history, Lookup(m, k));
      }
    } else {
      var order :| Finishes(Whole, history, rest, m, order);
      FirstIsMinimal(Whole, history, rest, m, order);
      var o := order[0];
      var m2 := Whole.step(m, history[o].input, history[o].output).1;
      WholeToKeys(history, rest - {o}, m2);
      forall k ensures CanFinish(Single, history, OfKey(history, rest, k), Lookup(m, k)) {
        assert CanFinish(Single, history, OfKey(history, rest - {o}, k), Lookup(m2, k));
        if k == history[o].input.key {
          assert OfKey(history, rest - {o}, k) == OfKey(history, rest, k) - {o};
          TakeFirst(Single, history, OfKey(history, rest, k), Lookup(m, k), o);
        } else {
          assert OfKey(history, rest - {o}, k) == OfKey(history, rest, k);
        }
      }
    }
  }

  /** The operation of a nonempty set that was answered first. */
  lemma {:induction false} EarliestAnswer(history: seq<KvOperation>, rest: set<nat>) returns (o: nat)
    requires Within(history, rest) && rest != {}
    ensures o in rest && forall x :: x in rest ==> history[o].ret <= history[x].ret
    decreases |rest|
  {
    var y :| y in rest;
    o := y;
    if rest != {y} {
      assert rest - {y} != {};
      var z := EarliestAnswer(history, rest - {y});
      if history[z].ret < history[y].ret { o := z; }
    }
  }

  /** Finishing every key finishes everything: the key of the earliest answer can always move. */
  lemma {:induction false} KeysToWhole(history: seq<KvOperation>, rest: set<nat>, m: map<string, string>)
    requires Within(history, rest) && Ordered(history) && EachKeyFinishes(history, rest, m)
    ensures CanFinish(Whole, history, rest, m)
    decreases |rest|
  {
    if rest == {} {
      EmptyFinishes(Whole, history, m);
    } else {
      var e := EarliestAnswer(history, rest);
      var k := history[e].input.key;
      var part := OfKey(history, rest, k);
      assert e in part && CanFinish(Single, history, part, Lookup(m, k));
      var order :| Finishes(Single, history, part, Lookup(m, k), order);
      FirstIsMinimal(Single, history, part, Lookup(m, k), order);
      var h := order[0];
      var m2 := Whole.step(m, history[h].input, history[h].output).1;
      forall j ensures CanFinish(Single, history, OfKey(history, rest - {h}, j), Lookup(m2, j)) {
        assert CanFinish(Single, history, OfKey(history, rest, j), Lookup(m, j));
        if j == k {
          assert OfKey(history, rest - {h}, j) == part - {h};
        } else {
          assert OfKey(history, rest - {h}, j) == OfKey(history, rest, j);
        }
      }
      KeysToWhole(history, rest - {h}, m2);
      TakeFirst(Whole, history, rest, m, h);
    }
  }

  /** Linearizability of the whole is linearizability of every key. */
  lemma Locality(history: seq<KvOperation>)
    requires Ordered(history)
    ensures Within(history, Below(|history|))
    ensures Linearizable(Whole, history)
      <==> forall k :: CanFinish(Single, history, OfKey(history, Below(|history|), k), "")
  {
    BelowIsRange(|history|);
    var all := Below(|history|);
    assert forall k :: Lookup(map[], k) == "";
    if Linearizable(Whole, history) { WholeToKeys(history, all, map[]); }
    if forall k :: CanFinish(Single, history, OfKey(history, all, k), "") {
      assert EachKeyFinishes(history, all, map[]);
      KeysToWhole(history, all, map[]);
    }
  }
}
