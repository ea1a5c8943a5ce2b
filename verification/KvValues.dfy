/**
 * What the store holds, said about the log alone: a key's value is the concatenation of what was
 * appended to it since it was last put, and only the first sending of an operation counts.
 */
module KvValues {
  import opened Wrappers
  import opened Pieces
  import opened KvServer
  import opened ExactlyOnce

  /** Operation i is new: its number is positive and larger than every earlier one of its client. */
  ghost predicate IsNew(log: seq<Logged>, i: nat)
    requires i < |log|
  {
    log[i].op.seqId > 0
    && forall j :: 0 <= j < i && log[j].op.clientId == log[i].op.clientId ==> log[j].op.seqId < log[i].op.seqId
  }

  /** The new Puts to k. */
  ghost function Puts(log: seq<Logged>, k: bytes): set<nat> {
    set i: nat | i < |log| && IsNew(log, i) && log[i].op.key == k && log[i].op.verb == PUT
  }

  /** The new Appends to k. */
  ghost function Appends(log: seq<Logged>, k: bytes): set<nat> {
    set i: nat | i < |log| && IsNew(log, i) && log[i].op.key == k && log[i].op.verb == APPEND
  }

  /**
   * writes are, below n and in their order, the appends since the last put, with that put in
   * front; or all appends, if there was no put.
   */
  ghost predicate Latest(puts: set<nat>, appends: set<nat>, n: nat, writes: seq<nat>) {
    (forall x, y :: 0 <= x < y < |writes| ==> writes[x] < writes[y])
    && (forall x :: 0 <= x < |writes| ==> writes[x] < n)
    && (forall x :: 0 <= x < |writes| ==> writes[x] in appends || (x == 0 && writes[x] in puts))
    && forall i :: i in puts + appends && i < n ==> i in writes || (writes != [] && i < writes[0] && writes[0] in puts)
  }

  /** The latest new writes to k among the first n operations. */
  ghost predicate LastWrites(log: seq<Logged>, n: nat, k: bytes, writes: seq<nat>)
    requires n <= |log|
  {
    Latest(Puts(log, k), Appends(log, k), n, writes)
  }

  /** The values of the operations at writes. */
  function ValuesAt(log: seq<Logged>, writes: seq<nat>): (vs: seq<bytes>)
    requires forall x :: 0 <= x < |writes| ==> writes[x] < |log|
    ensures |vs| == |writes| && forall x :: 0 <= x < |writes| ==> vs[x] == log[writes[x]].op.value
  {
    seq(|writes|, x requires 0 <= x < |writes| => log[writes[x]].op.value)
  }

  /** An operation is executed by the unbounded model exactly if it is new. */
  lemma NewIsExecuted(cfg: Config, log: seq<Logged>, states: seq<State>, ideals: seq<Ideal>, i: nat)
    requires Runs(cfg, log, states, ideals) && i < |log|
    ensures IsNew(log, i) <==> log[i].op.seqId > Newest(ideals[i], log[i].op.clientId)
  {
    NewestIsLargest(cfg, log, states, ideals, i, log[i].op.clientId);
  }

  /** k holds the concatenation of the values at writes, and is absent if there are none. */
  ghost predicate HoldsValues(store: map<bytes, bytes>, log: seq<Logged>, k: bytes, writes: seq<nat>)
    requires forall x :: 0 <= x < |writes| ==> writes[x] < |log|
  {
    (k in store <==> writes != []) && (k in store ==> store[k] == Cat(ValuesAt(log, writes), |writes|))
  }

  // ------------------------------------------------------------- lists of writes

  /** The newest write is the last one listed. */
  lemma NewestIsLast(puts: set<nat>, appends: set<nat>, n: nat, writes: seq<nat>)
    requires Latest(puts, appends, n + 1, writes) && n in puts + appends
    ensures writes != [] && writes[|writes| - 1] == n
  {
    assert n in writes;
    var x :| 0 <= x < |writes| && writes[x] == n;
    assert x < |writes| - 1 ==> writes[x] < writes[|writes| - 1];
  }

  lemma AfterPut(puts: set<nat>, appends: set<nat>, n: nat, writes: seq<nat>)
    requires Latest(puts, appends, n + 1, writes) && n in puts && puts !! appends
    ensures writes == [n]
  {
    NewestIsLast(puts, appends, n, writes);
  }

  lemma AfterAppend(puts: set<nat>, appends: set<nat>, n: nat, writes: seq<nat>, before: seq<nat>)
    requires Latest(puts, appends, n + 1, writes) && n in appends && puts !! appends && writes == before + [n]
    ensures Latest(puts, appends, n, before)
  {
    forall x | 0 <= x < |before| ensures before[x] < n && before[x] == writes[x] {
      assert writes[x] < writes[|before|];
    }
    forall i | i in puts + appends && i < n
      ensures i in before || (before != [] && i < before[0] && before[0] in puts)
    {
      assert i in writes || (i < writes[0] && writes[0] in puts);
    }
  }

  lemma AfterOther(puts: set<nat>, appends: set<nat>, n: nat, writes: seq<nat>)
    requires Latest(puts, appends, n + 1, writes) && n !in puts + appends
    ensures Latest(puts, appends, n, writes)
  {
    forall x | 0 <= x < |writes| ensures writes[x] < n { assert writes[x] != n; }
  }

  lemma BoundIsPositive(puts: set<nat>, appends: set<nat>, n: nat, writes: seq<nat>, x: nat)
    requires Latest(puts, appends, n, writes) && x < |writes|
    ensures n > 0
  {
    assert writes[x] < n;
  }

  lemma NothingBelowZero(puts: set<nat>, appends: set<nat>, writes: seq<nat>)
    requires Latest(puts, appends, 0, writes)
    ensures writes == []
  {
    if |writes| > 0 { BoundIsPositive(puts, appends, 0, writes, 0); }
  }

  /** There is such a list. */
  lemma {:induction false} LatestExists(puts: set<nat>, appends: set<nat>, n: nat) returns (writes: seq<nat>)
    requires puts !! appends
    ensures Latest(puts, appends, n, writes)
  {
    if n == 0 {
      writes := [];
    } else {
      var before := LatestExists(puts, appends, n - 1);
      if n - 1 in puts {
        writes := [n - 1];
      } else if n - 1 in appends {
        writes := before + [n - 1];
        Continued(puts, appends, n - 1, before, writes);
      } else {
        writes := before;
      }
    }
  }

  lemma Continued(puts: set<nat>, appends: set<nat>, n: nat, before: seq<nat>, writes: seq<nat>)
    requires Latest(puts, appends, n, before) && n in appends && writes == before + [n]
    ensures Latest(puts, appends, n + 1, writes)
  {
    forall i | i in puts + appends && i < n + 1
      ensures i in writes || (writes != [] && i < writes[0] && writes[0] in puts)
    {
      if i == n { assert writes[|before|] == i; }
    }
  }

  lemma JoinedMore(log: seq<Logged>, writes: seq<nat>, before: seq<nat>, n: nat)
    requires n < |log| && writes == before + [n] && forall x :: 0 <= x < |writes| ==> writes[x] < |log|
    requires forall x :: 0 <= x < |before| ==> before[x] < |log|
    ensures Cat(ValuesAt(log, writes), |writes|) == Cat(ValuesAt(log, before), |before|) + log[n].op.value
  {
    CatPrefix(ValuesAt(log, writes), ValuesAt(log, before), |before|);
  }

  // ---------------------------------------------------------------------- values

  /** What the operation at i does to k: put, append, or nothing. */
  ghost predicate KeyStep(before: map<bytes, bytes>, after: map<bytes, bytes>, k: bytes, value: bytes, puts: bool,
                          appends: bool)
  {
    if puts then k in after && after[k] == value
    else if appends then k in after && after[k] == Found(before, k) + value
    else (k in after <==> k in before) && Found(after, k) == Found(before, k)
  }

  /** Stores that go on from one another by puts and appends to k. */
  ghost predicate KeySteps(stores: seq<map<bytes, bytes>>, log: seq<Logged>, k: bytes, puts: set<nat>,
                           appends: set<nat>)
  {
    |stores| == |log| + 1 && k !in stores[0]
    && forall i: nat :: i < |log| ==>
         KeyStep(stores[i], stores[i + 1], k, log[i].op.value, i in puts, i in appends)
  }

  lemma PutHolds(store2: map<bytes, bytes>, log: seq<Logged>, k: bytes, puts: set<nat>, appends: set<nat>, i: nat,
                 writes: seq<nat>)
    requires i < |log| && i in puts && puts !! appends && Latest(puts, appends, i + 1, writes)
    requires k in store2 && store2[k] == log[i].op.value
    ensures forall x :: 0 <= x < |writes| ==> writes[x] < |log|
    ensures HoldsValues(store2, log, k, writes)
  {
    AfterPut(puts, appends, i, writes);
    OnlyValue(log, i);
  }

  lemma {:induction false} KeyHolds(stores: seq<map<bytes, bytes>>, log: seq<Logged>, k: bytes, puts: set<nat>,
                                    appends: set<nat>, n: nat, writes: seq<nat>)
    requires KeySteps(stores, log, k, puts, appends) && puts !! appends && n <= |log|
    requires Latest(puts, appends, n, writes)
    ensures HoldsValues(stores[n], log, k, writes)
    decreases n
  {
    if n == 0 {
      NothingBelowZero(puts, appends, writes);
    } else {
      var i := n - 1;
      assert KeyStep(stores[i], stores[i + 1], k, log[i].op.value, i in puts, i in appends);
      if i in puts {
        PutHolds(stores[n], log, k, puts, appends, i, writes);
      } else if i in appends {
        NewestIsLast(puts, appends, i, writes);
        var before := writes[..|writes| - 1];
        AfterAppend(puts, appends, i, writes, before);
        KeyHolds(stores, log, k, puts, appends, i, before);
        HoldsMore(stores[i], stores[n], log, k, i, before, writes);
      } else {
        AfterOther(puts, appends, i, writes);
        KeyHolds(stores, log, k, puts, appends, i, writes);
        HoldsSame(stores[i], stores[n], log, k, writes);
      }
    }
  }

  lemma HoldsSame(store: map<bytes, bytes>, store2: map<bytes, bytes>, log: seq<Logged>, k: bytes, writes: seq<nat>)
    requires (forall x :: 0 <= x < |writes| ==> writes[x] < |log|) && HoldsValues(store, log, k, writes)
    requires (k in store2 <==> k in store) && Found(store2, k) == Found(store, k)
    ensures HoldsValues(store2, log, k, writes)
  {
  }

  lemma HoldsMore(store: map<bytes, bytes>, store2: map<bytes, bytes>, log: seq<Logged>, k: bytes, i: nat,
                  before: seq<nat>, writes: seq<nat>)
    requires i < |log| && writes == before + [i] && forall x :: 0 <= x < |before| ==> before[x] < |log|
    requires HoldsValues(store, log, k, before)
    requires k in store2 && store2[k] == Found(store, k) + log[i].op.value
    ensures HoldsValues(store2, log, k, writes)
  {
    JoinedMore(log, writes, before, i);
    if before == [] { assert Cat(ValuesAt(log, before), 0) == []; }
  }

  /** What the next operation of the unbounded model does to k. */
  lemma IdealStep(cfg: Config, log: seq<Logged>, states: seq<State>, ideals: seq<Ideal>, i: nat, k: bytes)
    requires Runs(cfg, log, states, ideals) && i < |log|
    ensures KeyStep(ideals[i].store, ideals[i + 1].store, k, log[i].op.value, i in Puts(log, k), i in Appends(log, k))
  {
    assert StepAt(cfg, log, states, ideals, i);
    NewIsExecuted(cfg, log, states, ideals, i);
  }

  function StoresOf(ideals: seq<Ideal>): (stores: seq<map<bytes, bytes>>)
    ensures |stores| == |ideals| && forall i :: 0 <= i < |ideals| ==> stores[i] == ideals[i].store
  {
    seq(|ideals|, i requires 0 <= i < |ideals| => ideals[i].store)
  }

  lemma IdealSteps(cfg: Config, log: seq<Logged>, states: seq<State>, ideals: seq<Ideal>, k: bytes)
    requires Runs(cfg, log, states, ideals)
    ensures KeySteps(StoresOf(ideals), log, k, Puts(log, k), Appends(log, k))
  {
    var stores, puts, appends := StoresOf(ideals), Puts(log, k), Appends(log, k);
    forall i: nat | i < |log|
      ensures KeyStep(stores[i], stores[i + 1], k, log[i].op.value, i in puts, i in appends)
    {
      IdealStep(cfg, log, states, ideals, i, k);
    }
  }

  lemma OnlyValue(log: seq<Logged>, i: nat)
    requires i < |log|
    ensures Cat(ValuesAt(log, [i]), 1) == log[i].op.value
  {
    var vs := ValuesAt(log, [i]);
    assert Cat(vs, 1) == Cat(vs, 0) + vs[0] == vs[0];
  }

  /**
   * In every run in which no forgotten client repeats an old operation: the value of a key is the
   * concatenation, in the order of the log, of the value last put and of what was appended since,
   * every operation taken at its first sending; and a key that nobody wrote is absent.
   */
  lemma ValueIsConcatenation(cfg: Config, log: seq<Logged>, states: seq<State>, ideals: seq<Ideal>, n: nat, k: bytes)
    returns (writes: seq<nat>)
    requires Runs(cfg, log, states, ideals) && n <= |log| && NoneReplayed(log, states, ideals, n)
    ensures LastWrites(log, n, k, writes) && HoldsValues(states[n].store, log, k, writes)
    ensures forall ws :: LastWrites(log, n, k, ws) ==> HoldsValues(states[n].store, log, k, ws)
  {
    StoreIsDeduplicatedLog(cfg, log, states, ideals, n);
    var puts, appends := Puts(log, k), Appends(log, k);
    var stores := StoresOf(ideals);
    writes := LatestExists(puts, appends, n);
    IdealSteps(cfg, log, states, ideals, k);
    forall ws | LastWrites(log, n, k, ws) ensures HoldsValues(states[n].store, log, k, ws) {
      KeyHolds(stores, log, k, puts, appends, n, ws);
    }
  }
}
