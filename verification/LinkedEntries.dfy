/** The doubly linked list of call and return entries, and taking a pair out and putting it back. */
module LinkedEntries {
  import opened Linearizability
  import opened Sequences

  class Entry<I, O> {
    const isCall: bool
    const id: nat
    const op: Operation<I, O>
    const partner: Entry?<I, O>
    ghost const pos: nat
    var prev: Entry?<I, O>
    var next: Entry?<I, O>

    constructor (isCall: bool, id: nat, op: Operation<I, O>, partner: Entry?<I, O>, ghost pos: nat)
      ensures this.isCall == isCall && this.id == id && this.op == op && this.partner == partner && this.pos == pos
      ensures prev == null && next == null
    {
      this.isCall, this.id, this.op, this.partner, this.pos := isCall, id, op, partner, pos;
      prev, next := null, null;
    }
  }

  /** list, from its sentinel on, is chained both ways. */
  ghost predicate Linked<I, O>(list: seq<Entry<I, O>>)
    reads list
  {
    |list| >= 1
    && (forall k, l :: 0 <= k && l == k + 1 && l < |list| ==> list[k].next == list[l] && list[l].prev == list[k])
    && list[|list| - 1].next == null
    && Distinct(list)
  }

  /** Entry e points at its neighbours in list. */
  ghost predicate PointsInto<I, O>(e: Entry<I, O>, list: seq<Entry<I, O>>, i: nat)
    requires 1 <= i < |list|
    reads e
  {
    e.prev == list[i - 1] && e.next == if i + 1 < |list| then list[i + 1] else null
  }

  /** Unlinking one entry, which keeps its own pointers. */
  method Unlink<I, O>(e: Entry<I, O>, ghost list: seq<Entry<I, O>>, ghost i: nat, ghost rest: seq<Entry<I, O>>)
    requires Linked(list) && 1 <= i < |list| && list[i] == e && Removed(list, i, rest)
    modifies list
    ensures Linked(rest) && PointsInto(e, list, i)
  {
    RemovedKeeps(list, i, rest);
    assert e.prev == list[i - 1] == rest[i - 1];
    assert i + 1 < |list| ==> e.next == list[i + 1] == rest[i + 1 - 1];
    if e.next != null { e.next.prev := e.prev; }
    e.prev.next := e.next;
    forall k | 0 <= k < |rest| - 1 ensures rest[k].next == rest[k + 1] && rest[k + 1].prev == rest[k] {
      if k + 1 < i {
        assert rest[k] == list[k] && rest[k + 1] == list[k + 1];
      } else if k >= i {
        assert rest[k + 1 - 1] == list[k + 1] && rest[k + 2 - 1] == list[k + 2];
      }
    }
    assert rest[|rest| - 1] == if i == |list| - 1 then list[i - 1] else list[|list| - 1];
  }

  /** Linking it back where it points. */
  method Relink<I, O>(e: Entry<I, O>, ghost list: seq<Entry<I, O>>, ghost i: nat, ghost rest: seq<Entry<I, O>>)
    requires Distinct(list) && 1 <= i < |list| && list[i] == e && Removed(list, i, rest)
    requires Linked(rest) && PointsInto(e, list, i)
    modifies list
    ensures Linked(list)
  {
    RemovedKeeps(list, i, rest);
    assert rest[i - 1] == list[i - 1];
    assert i + 1 < |list| ==> rest[i + 1 - 1] == list[i + 1];
    if e.next != null { e.next.prev := e; }
    e.prev.next := e;
    forall k | 0 <= k < |list| - 1 ensures list[k].next == list[k + 1] && list[k + 1].prev == list[k] {
      if k + 1 < i {
        assert rest[k] == list[k] && rest[k + 1] == list[k + 1];
      } else if k > i {
        assert rest[k - 1] == list[k] && rest[k + 1 - 1] == list[k + 1];
      }
    }
    assert i < |list| - 1 ==> rest[|list| - 1 - 1] == list[|list| - 1];
  }

  /** mid is list without the call at i; rest is mid without the return, which list has at j. */
  ghost predicate PairRemoved<T>(list: seq<T>, i: nat, j: nat, mid: seq<T>, rest: seq<T>) {
    1 <= i < j < |list| && Removed(list, i, mid) && Removed(mid, j - 1, rest)
  }

  /** The lifted pair still points at its places: the call into list, the return into mid. */
  ghost predicate Remembers<I, O>(list: seq<Entry<I, O>>, i: nat, j: nat, mid: seq<Entry<I, O>>)
    requires 1 <= i < j < |list| && |mid| == |list| - 1
    reads list[i], list[j]
  {
    PointsInto(list[i], list, i) && PointsInto(list[j], mid, j - 1)
  }

  method Lift<I, O>(entry: Entry<I, O>, ghost list: seq<Entry<I, O>>, ghost i: nat, ghost j: nat,
                    ghost mid: seq<Entry<I, O>>, ghost rest: seq<Entry<I, O>>)
    requires Linked(list) && PairRemoved(list, i, j, mid, rest) && list[i] == entry && list[j] == entry.partner
    modifies list
    ensures Linked(rest) && Remembers(list, i, j, mid)
  {
    RemovedKeeps(list, i, mid);
    Unlink(entry, list, i, mid);
    assert mid[j - 1] == list[j];
    Unlink(entry.partner, mid, j - 1, rest);
  }

  /** Exactly undoes Lift. */
  method Unlift<I, O>(entry: Entry<I, O>, ghost list: seq<Entry<I, O>>, ghost i: nat, ghost j: nat,
                      ghost mid: seq<Entry<I, O>>, ghost rest: seq<Entry<I, O>>)
    requires PairRemoved(list, i, j, mid, rest) && Distinct(list) && list[i] == entry && list[j] == entry.partner
    requires Linked(rest) && Remembers(list, i, j, mid)
    modifies list
    ensures Linked(list)
  {
    RemovedKeeps(list, i, mid);
    assert mid[j - 1] == list[j] && entry !in mid;
    Relink(entry.partner, mid, j - 1, rest);
    assert PointsInto(entry, list, i);
    Relink(entry, list, i, mid);
  }
}
