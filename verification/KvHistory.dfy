/**
 * The model that the checker judges by is the store that the applier keeps: a history recorded from
 * the applier, one operation after the other, is linearizable exactly if every read answered what
 * the store held.
 */
module KvHistory {
  import opened Wrappers
  import opened OrderStatistics
  import opened Linearizability
  import Messages
  import M = KvModel
  import S = KvServer
  import E = ExactlyOnce

  // ------------------------------------------------------------ bytes as text

  /** The checker's text for a byte string: one character for each byte. */
  function Text(s: bytes): (t: string)
    ensures |t| == |s| && forall i :: 0 <= i < |s| ==> t[i] == s[i] as int as char
  {
    seq(|s|, i requires 0 <= i < |s| => s[i] as int as char)
  }

  lemma TextTells(a: bytes, b: bytes)
    requires Text(a) == Text(b)
    ensures a == b
  {
    forall i | 0 <= i < |a| ensures a[i] == b[i] { assert Text(a)[i] == Text(b)[i]; }
  }

  lemma TextJoins(a: bytes, b: bytes)
    ensures Text(a + b) == Text(a) + Text(b)
  {
  }

  // ----------------------------------------------------------------- sessions

  /** What a client asks for: a write, which the applier gets as a command at an index, or a read. */
  datatype Call = Write(op: Messages.Op, index: nat) | Read(key: bytes)

  /** states are those of the applier before, between and after the calls; every write is a new Put or Append. */
  ghost predicate Served(cfg: S.Config, calls: seq<Call>, states: seq<S.State>) {
    |states| == |calls| + 1 && states[0] == E.EmptyState
    && forall i: nat :: i < |calls| ==> ServedAt(cfg, calls[i], states[i], states[i + 1])
  }

  ghost predicate ServedAt(cfg: S.Config, call: Call, before: S.State, after: S.State) {
    match call
    case Write(op, index) =>
      (op.verb == S.PUT || op.verb == S.APPEND) && S.Executes(before, op)
      && after == S.AfterOp(cfg, before, op, index)
    case Read(key) => after == before
  }

  function InputOf(call: Call): M.KvInput {
    match call
    case Write(op, _) => M.KvInput(if op.verb == S.PUT then M.PUT else M.APPEND, Text(op.key), Text(op.value))
    case Read(key) => M.KvInput(M.GET, Text(key), "")
  }

  /** The recorded calls, each answered before the next one was issued; the answers may be anything. */
  ghost predicate Records(h: seq<M.KvOperation>, calls: seq<Call>) {
    |h| == |calls| && (forall i :: 0 <= i < |h| ==> h[i].input == InputOf(calls[i]) && h[i].call <= h[i].ret)
    && forall i, j :: 0 <= i < j < |h| ==> h[i].ret < h[j].call
  }

  /** If call i is a read, it answered what the store held for its key, or nothing for a key not there. */
  ghost predicate AnswersRight(h: seq<M.KvOperation>, calls: seq<Call>, states: seq<S.State>, i: nat)
    requires i < |h| == |calls| == |states| - 1
  {
    calls[i].Read? ==> h[i].output.value == Text(S.Found(states[i].store, calls[i].key))
  }

  // ------------------------------------------------------------- the only order

  function Upto(n: nat): (order: seq<nat>)
    ensures |order| == n && forall i :: 0 <= i < n ==> order[i] == i
  {
    seq(n, i => i)
  }

  /** An order that rises through all numbers below n is theirs. */
  lemma {:induction false} RisingIsUpto(order: seq<nat>, n: nat, i: nat)
    requires forall x, y :: 0 <= x < y < |order| ==> order[x] < order[y]
    requires (forall x :: 0 <= x < |order| ==> order[x] < n) && forall v: nat :: v < n ==> v in order
    requires i <= n
    ensures i <= |order| && forall x :: 0 <= x < i ==> order[x] == x
  {
    if i > 0 {
      RisingIsUpto(order, n, i - 1);
      assert i - 1 in order;
      var p :| 0 <= p < |order| && order[p] == i - 1;
      assert p >= i - 1;
      if i - 1 > 0 { assert order[i - 2] < order[i - 1]; }
    }
  }

  /** One operation after the other: the recorded order is the only one that respects real time. */
  lemma OnlyOrder(h: seq<M.KvOperation>, calls: seq<Call>, order: seq<nat>)
    requires Records(h, calls) && Lists(order, Below(|h|)) && forall x :: 0 <= x < |order| ==> order[x] < |h|
    requires RealTime(h, order)
    ensures order == Upto(|h|)
  {
    BelowIsRange(|h|);
    forall x, y | 0 <= x < y < |order| ensures order[x] < order[y] {
      assert !Precedes(h, order[y], order[x]) && order[x] != order[y];
    }
    RisingIsUpto(order, |h|, |h|);
    if order != [] { RisingAtLeast(order, |order| - 1); }
  }

  lemma {:induction false} RisingAtLeast(order: seq<nat>, x: nat)
    requires x < |order| && forall x, y :: 0 <= x < y < |order| ==> order[x] < order[y]
    ensures order[x] >= x
  {
    if x > 0 { RisingAtLeast(order, x - 1); }
  }

  lemma RecordedOrder(h: seq<M.KvOperation>, calls: seq<Call>)
    requires Records(h, calls)
    ensures Lists(Upto(|h|), Below(|h|)) && RealTime(h, Upto(|h|))
  {
    BelowIsRange(|h|);
    var order := Upto(|h|);
    forall x | x in Below(|h|) ensures x in order { assert order[x] == x; }
    forall i, j | 0 <= i < j < |order| ensures !Precedes(h, order[j], order[i]) {
      assert h[i].ret < h[j].call && h[i].call <= h[i].ret && h[j].call <= h[j].ret;
    }
  }

  // ------------------------------------------------------------------ the store

  /** m is the store as the model sees it. */
  ghost predicate Mirrors(m: map<string, string>, store: map<bytes, bytes>) {
    forall k :: M.Lookup(m, Text(k)) == Text(S.Found(store, k))
  }

  lemma StepMirrors(cfg: S.Config, call: Call, before: S.State, after: S.State, m: map<string, string>,
                    out: M.KvOutput)
    requires ServedAt(cfg, call, before, after) && Mirrors(m, before.store)
    ensures var (ok, m2) := M.WholeStep(m, InputOf(call), out);
      Mirrors(m2, after.store) && (ok <==> (call.Read? ==> out.value == Text(S.Found(before.store, call.key))))
  {
    var (ok, m2) := M.WholeStep(m, InputOf(call), out);
    var key := if call.Read? then call.key else call.op.key;
    assert M.Lookup(m, Text(key)) == Text(S.Found(before.store, key));
    if call.Write? { TextJoins(S.Found(before.store, key), call.op.value); }
    forall k ensures M.Lookup(m2, Text(k)) == Text(S.Found(after.store, k)) {
      assert M.Lookup(m, Text(k)) == Text(S.Found(before.store, k));
      if Text(k) == Text(key) { TextTells(k, key); }
    }
  }

  /** From call i on, the recorded order is legal exactly if every read from there on is right. */
  lemma {:induction false} LegalFrom(cfg: S.Config, h: seq<M.KvOperation>, calls: seq<Call>, states: seq<S.State>,
                                     i: nat, m: map<string, string>)
    requires Served(cfg, calls, states) && Records(h, calls) && i <= |h| && Mirrors(m, states[i].store)
    ensures Legal(M.Whole, h, m, Upto(|h|)[i..])
      <==> forall j: nat :: i <= j < |h| ==> AnswersRight(h, calls, states, j)
    decreases |h| - i
  {
    var order := Upto(|h|)[i..];
    if i < |h| {
      assert ServedAt(cfg, calls[i], states[i], states[i + 1]);
      StepMirrors(cfg, calls[i], states[i], states[i + 1], m, h[i].output);
      var (ok, m2) := M.WholeStep(m, h[i].input, h[i].output);
      assert order[0] == i && order[1..] == Upto(|h|)[i + 1..];
      LegalFrom(cfg, h, calls, states, i + 1, m2);
      LegalStep(h, m, order, ok, m2);
      assert ok <==> AnswersRight(h, calls, states, i);
      FirstAndRest(h, calls, states, i);
    }
  }

  lemma LegalStep(h: seq<M.KvOperation>, m: map<string, string>, order: seq<nat>, ok: bool, m2: map<string, string>)
    requires order != [] && forall k :: 0 <= k < |order| ==> order[k] < |h|
    requires M.WholeStep(m, h[order[0]].input, h[order[0]].output) == (ok, m2)
    ensures Legal(M.Whole, h, m, order) <==> ok && Legal(M.Whole, h, m2, order[1..])
  {
  }

  lemma FirstAndRest(h: seq<M.KvOperation>, calls: seq<Call>, states: seq<S.State>, i: nat)
    requires i < |h| == |calls| == |states| - 1
    ensures (forall j: nat :: i <= j < |h| ==> AnswersRight(h, calls, states, j))
      <==> AnswersRight(h, calls, states, i) && forall j: nat :: i + 1 <= j < |h| ==> AnswersRight(h, calls, states, j)
  {
  }

  /**
   * For every sequence of new Puts and Appends and of reads, of any length and over any keys: the
   * recorded history is linearizable against the map of all keys exactly if every read answered
   * the value that the applier's store held then, or the empty one for a key that was not there.
   */
  lemma RecordedIsLinearizable(cfg: S.Config, h: seq<M.KvOperation>, calls: seq<Call>, states: seq<S.State>)
    requires Served(cfg, calls, states) && Records(h, calls)
    ensures Linearizable(M.Whole, h) <==> forall i: nat :: i < |h| ==> AnswersRight(h, calls, states, i)
  {
    BelowIsRange(|h|);
    var order := Upto(|h|);
    RecordedOrder(h, calls);
    assert Mirrors(map[], states[0].store);
    LegalFrom(cfg, h, calls, states, 0, map[]);
    assert order[0..] == order;
    if Linearizable(M.Whole, h) {
      var found :| Finishes(M.Whole, h, Below(|h|), M.Whole.init, found);
      OnlyOrder(h, calls, found);
    }
    if Legal(M.Whole, h, map[], order) { assert Finishes(M.Whole, h, Below(|h|), M.Whole.init, order); }
  }
}
