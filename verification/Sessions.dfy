/**
 * The session table: the newest sequence number of each client, kept in order of last use,
 * cut back by idle time and by size. Time is the index of the log entry being applied.
 */
module Sessions {
  import opened Sequences

  datatype Session = Session(lastSeq: int, lastIndex: nat)

  /** The sessions, and their clients from the most to the least recently used. */
  datatype Table = Table(entries: map<int, Session>, lru: seq<int>)

  datatype Limits = Limits(cap: nat, maxIdle: nat)

  /** A session taken out: its client and the sequence number it had. */
  datatype Eviction = Eviction(clientId: int, lastSeq: int)

  ghost predicate Sound(t: Table) {
    Distinct(t.lru) && forall c :: c in t.lru <==> c in t.entries
  }

  function UsedAt(t: Table, c: int): nat {
    if c in t.entries then t.entries[c].lastIndex else 0
  }

  /** The list goes from the newest use to the oldest, and nothing was used after now. */
  ghost predicate Ordered(t: Table, now: nat) {
    (forall i :: 0 <= i < |t.lru| ==> UsedAt(t, t.lru[i]) <= now)
    && (forall i, j :: 0 <= i < j < |t.lru| ==> UsedAt(t, t.lru[j]) <= UsedAt(t, t.lru[i]))
  }

  // ------------------------------------------------- the operations as functions

  function SeqOf(t: Table, c: int): int {
    if c in t.entries then t.entries[c].lastSeq else 0
  }

  function ToFront(lru: seq<int>, c: int): seq<int>
    requires c in lru
  {
    [c] + Without(lru, Place(lru, c))
  }

  function Touched(t: Table, c: int, now: nat): Table
    requires c in t.lru && c in t.entries
  {
    Table(t.entries[c := t.entries[c].(lastIndex := now)], ToFront(t.lru, c))
  }

  function AfterGet(t: Table, c: int, now: nat): Table {
    if c in t.entries && c in t.lru then Touched(t, c, now) else t
  }

  function AfterPut(t: Table, c: int, seqId: int, now: nat): Table {
    if c in t.entries && c in t.lru then Touched(t.(entries := t.entries[c := t.entries[c].(lastSeq := seqId)]), c, now)
    else Table(t.entries[c := Session(seqId, now)], [c] + t.lru)
  }

  function AfterLoad(t: Table, c: int, seqId: int, lastIndex: nat): Table {
    if c in t.entries then t.(entries := t.entries[c := Session(seqId, lastIndex)])
    else Table(t.entries[c := Session(seqId, lastIndex)], [c] + t.lru)
  }

  function Drop(t: Table): Table
    requires t.lru != []
  {
    Table(t.entries - {t.lru[|t.lru| - 1]}, t.lru[..|t.lru| - 1])
  }

  function Idle(t: Table, c: int, now: nat): nat {
    if now >= UsedAt(t, c) then now - UsedAt(t, c) else 0
  }

  // -------------------------------------------------- what the operations keep

  /** Moving c to the front keeps the others in their order. */
  lemma ToFrontKeeps(lru: seq<int>, c: int)
    requires Distinct(lru) && c in lru
    ensures Distinct(ToFront(lru, c)) && forall x :: x in ToFront(lru, c) <==> x in lru
    ensures |ToFront(lru, c)| == |lru| && ToFront(lru, c)[0] == c
    ensures var p := Place(lru, c);
      forall j :: 0 < j < |lru| ==> ToFront(lru, c)[j] == lru[if j - 1 < p then j - 1 else j]
  {
    var p := Place(lru, c);
    var rest := Without(lru, p);
    WithoutRemoves(lru, p);
    RemovedKeeps(lru, p, rest);
    var moved := ToFront(lru, c);
    forall j | 0 < j < |moved| ensures moved[j] == rest[j - 1] && moved[j] in rest {}
    forall i, j | 0 <= i < j < |moved| ensures moved[i] != moved[j] {
      if i > 0 { assert moved[i] == rest[i - 1] && moved[j] == rest[j - 1]; }
    }
  }

  lemma TouchKeeps(t: Table, c: int, now: nat)
    requires Sound(t) && c in t.entries
    ensures Sound(Touched(t, c, now))
  {
    ToFrontKeeps(t.lru, c);
  }

  /** Behind the client now in front, the others keep their times and their order. */
  lemma TouchShifts(t: Table, c: int, now: nat, j: nat)
    requires Sound(t) && c in t.entries && 0 < j < |t.lru|
    ensures |Touched(t, c, now).lru| == |t.lru|
    ensures var p := Place(t.lru, c);
      UsedAt(Touched(t, c, now), Touched(t, c, now).lru[j]) == UsedAt(t, t.lru[if j - 1 < p then j - 1 else j])
  {
    ToFrontKeeps(t.lru, c);
    var t2 := Touched(t, c, now);
    assert t2.lru[j] != t2.lru[0];
  }

  lemma TouchOrders(t: Table, c: int, now: nat)
    requires Sound(t) && c in t.entries && Ordered(t, now)
    ensures Ordered(Touched(t, c, now), now)
  {
    var t2 := Touched(t, c, now);
    TouchSizes(t, c, now);
    forall j | 0 < j < |t2.lru| ensures UsedAt(t2, t2.lru[j]) <= now { TouchShifts(t, c, now, j); }
    forall i, j | 0 <= i < j < |t2.lru| ensures UsedAt(t2, t2.lru[j]) <= UsedAt(t2, t2.lru[i]) {
      TouchShifts(t, c, now, j);
      if i > 0 { TouchShifts(t, c, now, i); }
    }
  }

  lemma TouchSizes(t: Table, c: int, now: nat)
    requires Sound(t) && c in t.entries
    ensures |Touched(t, c, now).lru| == |t.lru| > 0 && UsedAt(Touched(t, c, now), Touched(t, c, now).lru[0]) == now
  {
    ToFrontKeeps(t.lru, c);
  }

  /** Later, the list is still in order. */
  lemma OrderedLater(t: Table, now: nat, later: nat)
    requires Ordered(t, now) && now <= later
    ensures Ordered(t, later)
  {
  }

  lemma PutKeeps(t: Table, c: int, seqId: int, now: nat)
    requires Sound(t)
    ensures Sound(AfterPut(t, c, seqId, now))
    ensures Ordered(t, now) ==> Ordered(AfterPut(t, c, seqId, now), now)
  {
    if c in t.entries {
      var t1 := t.(entries := t.entries[c := t.entries[c].(lastSeq := seqId)]);
      assert forall x :: UsedAt(t1, x) == UsedAt(t, x);
      TouchKeeps(t1, c, now);
      if Ordered(t, now) { TouchOrders(t1, c, now); }
    }
  }

  lemma GetKeeps(t: Table, c: int, now: nat)
    requires Sound(t)
    ensures Sound(AfterGet(t, c, now))
    ensures Ordered(t, now) ==> Ordered(AfterGet(t, c, now), now)
  {
    if c in t.entries {
      TouchKeeps(t, c, now);
      if Ordered(t, now) { TouchOrders(t, c, now); }
    }
  }

  lemma DropKeeps(t: Table)
    requires Sound(t) && t.lru != []
    ensures Sound(Drop(t))
  {
    var last, t2 := t.lru[|t.lru| - 1], Drop(t);
    forall x ensures x in t2.lru <==> x in t2.entries {
      if x in t.entries && x != last {
        var k :| 0 <= k < |t.lru| && t.lru[k] == x;
        assert t2.lru[k] == x;
      }
    }
  }

  lemma DropOrders(t: Table, now: nat)
    requires Sound(t) && t.lru != [] && Ordered(t, now)
    ensures Ordered(Drop(t), now)
  {
    forall i | 0 <= i < |t.lru| - 1 ensures UsedAt(Drop(t), t.lru[i]) == UsedAt(t, t.lru[i]) {}
  }

  // ------------------------------------------------------------------ reaping

  /** How many sessions, from the front, survive the idle pass when n are left. */
  function AwakeCount(t: Table, n: nat, now: nat, maxIdle: nat): nat
    requires n <= |t.lru|
  {
    if n == 0 || Idle(t, t.lru[n - 1], now) <= maxIdle then n else AwakeCount(t, n - 1, now, maxIdle)
  }

  /** How many sessions a reap leaves. */
  function KeepCount(t: Table, now: nat, limits: Limits): nat {
    var awake := AwakeCount(t, |t.lru|, now, limits.maxIdle);
    Capped(awake, limits.cap)
  }

  function Capped(n: nat, cap: nat): nat {
    if n > cap then cap else n
  }

  /** The table with only its first k sessions. */
  function CutTo(t: Table, k: nat): (cut: Table)
    requires k <= |t.lru|
    ensures |cut.lru| == k && forall i :: 0 <= i < k ==> cut.lru[i] == t.lru[i]
    ensures forall c :: c in cut.entries ==> c in t.entries && cut.entries[c] == t.entries[c]
    decreases |t.lru| - k
  {
    if k == |t.lru| then t else Drop(CutTo(t, k + 1))
  }

  /** The sessions of the first k clients, and no others. */
  lemma {:induction false} CutMembers(t: Table, k: nat)
    requires Sound(t) && k <= |t.lru|
    ensures Sound(CutTo(t, k)) && CutTo(t, k).lru == t.lru[..k]
    ensures forall c :: c in CutTo(t, k).entries <==> c in t.lru[..k]
    decreases |t.lru| - k
  {
    if k == |t.lru| {
      assert t.lru[..k] == t.lru;
    } else {
      CutMembers(t, k + 1);
      DropKeeps(CutTo(t, k + 1));
      assert t.lru[..k + 1] == t.lru[..k] + [t.lru[k]];
      assert CutTo(t, k).lru == t.lru[..k];
    }
  }

  lemma {:induction false} CutOrders(t: Table, k: nat, now: nat)
    requires Sound(t) && Ordered(t, now) && k <= |t.lru|
    ensures Ordered(CutTo(t, k), now)
    decreases |t.lru| - k
  {
    if k < |t.lru| {
      var cut := CutTo(t, k + 1);
      CutOrders(t, k + 1, now);
      CutMembers(t, k + 1);
      DropOrders(cut, now);
      assert CutTo(t, k) == Drop(cut);
    }
  }

  function EvictionAt(t: Table, i: nat): Eviction
    requires i < |t.lru|
  {
    Eviction(t.lru[i], SeqOf(t, t.lru[i]))
  }

  /** The sessions from place k on, the oldest first: the order in which they go. */
  function Evicted(t: Table, k: nat): (es: seq<Eviction>)
    requires k <= |t.lru|
    ensures |es| == |t.lru| - k
    decreases |t.lru| - k
  {
    if k == |t.lru| then [] else Evicted(t, k + 1) + [EvictionAt(t, k)]
  }

  /**
   * Stopping at the first session that is not overdue is exact when the list is in order: a
   * session is kept exactly when it was not idle too long and fewer than cap were used after it.
   */
  lemma KeptExactly(t: Table, now: nat, limits: Limits, p: nat)
    requires Sound(t) && Ordered(t, now) && p < |t.lru|
    ensures p < KeepCount(t, now, limits) <==> now <= UsedAt(t, t.lru[p]) + limits.maxIdle && p < limits.cap
  {
    AwakeIsExact(t, |t.lru|, now, limits.maxIdle, p);
  }

  lemma {:induction false} AwakeIsExact(t: Table, n: nat, now: nat, maxIdle: nat, p: nat)
    requires Sound(t) && Ordered(t, now) && p < n <= |t.lru|
    ensures p < AwakeCount(t, n, now, maxIdle) <==> Idle(t, t.lru[p], now) <= maxIdle
    ensures AwakeCount(t, n, now, maxIdle) <= n
  {
    if Idle(t, t.lru[n - 1], now) <= maxIdle {
      assert UsedAt(t, t.lru[n - 1]) <= UsedAt(t, t.lru[p]) || p == n - 1;
    } else if p < n - 1 {
      AwakeIsExact(t, n - 1, now, maxIdle, p);
    } else {
      AwakeBound(t, n - 1, now, maxIdle);
    }
  }

  lemma AwakeStep(t: Table, n: nat, now: nat, maxIdle: nat, idle: nat)
    requires 0 < n <= |t.lru| && idle == Idle(t, t.lru[n - 1], now)
    ensures AwakeCount(t, n, now, maxIdle) == if idle <= maxIdle then n else AwakeCount(t, n - 1, now, maxIdle)
  {
  }

  lemma {:induction false} AwakeBound(t: Table, n: nat, now: nat, maxIdle: nat)
    requires n <= |t.lru|
    ensures AwakeCount(t, n, now, maxIdle) <= n
  {
    if n > 0 && Idle(t, t.lru[n - 1], now) > maxIdle { AwakeBound(t, n - 1, now, maxIdle); }
  }

  // --------------------------------------------------------------- tombstones

  /** The last sequence numbers of evicted clients, and the order in which they went. */
  datatype Tombs = Tombs(fenced: map<int, int>, fifo: seq<int>)

  ghost predicate TombsSound(t: Tombs) {
    Distinct(t.fifo) && forall c :: c in t.fifo <==> c in t.fenced
  }

  /** A second eviction refreshes the tombstone; a new one may push out the oldest. */
  function Buried(t: Tombs, e: Eviction, cap: nat): Tombs {
    if e.clientId in t.fenced then t.(fenced := t.fenced[e.clientId := e.lastSeq])
    else
      var fenced, fifo := t.fenced[e.clientId := e.lastSeq], t.fifo + [e.clientId];
      if |fifo| > cap then Tombs(fenced - {fifo[0]}, fifo[1..]) else Tombs(fenced, fifo)
  }

  function AllBuried(t: Tombs, es: seq<Eviction>, cap: nat): Tombs {
    if es == [] then t else Buried(AllBuried(t, es[..|es| - 1], cap), es[|es| - 1], cap)
  }

  lemma BuryOne(t: Tombs, es: seq<Eviction>, e: Eviction, cap: nat)
    ensures AllBuried(t, es + [e], cap) == Buried(AllBuried(t, es, cap), e, cap)
  {
    assert (es + [e])[..|es|] == es;
  }

  lemma BuriedKeeps(t: Tombs, e: Eviction, cap: nat)
    requires TombsSound(t)
    ensures TombsSound(Buried(t, e, cap)) && (|t.fifo| <= cap ==> |Buried(t, e, cap).fifo| <= cap)
  {
    var fifo := t.fifo + [e.clientId];
    if e.clientId !in t.fenced {
      assert Distinct(fifo);
      forall c ensures c in fifo[1..] <==> c in fifo && c != fifo[0] {
        if c in fifo && c != fifo[0] {
          var k :| 0 <= k < |fifo| && fifo[k] == c;
          assert fifo[1..][k - 1] == c;
        }
      }
    }
  }

  lemma {:induction false} BuriedSound(t: Tombs, es: seq<Eviction>, cap: nat)
    requires TombsSound(t)
    ensures TombsSound(AllBuried(t, es, cap))
    decreases |es|
  {
    if es != [] {
      BuriedSound(t, es[..|es| - 1], cap);
      BuriedKeeps(AllBuried(t, es[..|es| - 1], cap), es[|es| - 1], cap);
    }
  }

  class Fence {
    const cap: nat
    var fenced: map<int, int>
    var fifo: seq<int>

    ghost function View(): Tombs
      reads this
    {
      Tombs(fenced, fifo)
    }

    constructor (cap: nat)
      ensures View() == Tombs(map[], []) && this.cap == cap
    {
      this.cap := cap;
      fenced, fifo := map[], [];
    }

    /** What the applier does with an evicted session. */
    method Bury(cid: int, lastSeq: int)
      modifies this
      ensures View() == Buried(old(View()), Eviction(cid, lastSeq), cap)
    {
      if cid !in fenced {
        fenced := fenced[cid := lastSeq];
        fifo := fifo + [cid];
        if |fifo| > cap {
          var oldest := fifo[0];
          fifo := fifo[1..];
          fenced := fenced - {oldest};
        }
      } else {
        fenced := fenced[cid := lastSeq];
      }
    }
  }

  /** The sessions, the tombstones, and every eviction so far. */
  datatype Scene = Scene(table: Table, tombs: Tombs, gone: seq<Eviction>)

  ghost function Evict(s: Scene, cap: nat): Scene
    requires s.table.lru != []
  {
    var e := EvictionAt(s.table, |s.table.lru| - 1);
    Scene(Drop(s.table), Buried(s.tombs, e, cap), s.gone + [e])
  }

  /** Only the first k sessions are left, and the others were evicted and buried, the oldest first. */
  ghost predicate Reaped(from: Scene, cap: nat, k: nat, to: Scene) {
    k <= |from.table.lru|
    && exists es: seq<Eviction> :: es == Evicted(from.table, k) && ReapedWith(from, cap, k, to, es)
  }

  ghost predicate ReapedWith(from: Scene, cap: nat, k: nat, to: Scene, es: seq<Eviction>)
    requires k <= |from.table.lru|
  {
    to == Scene(CutTo(from.table, k), AllBuried(from.tombs, es, cap), from.gone + es)
  }

  // ---------------------------------------------------------------- the table

  class SessionTable {
    var limits: Limits
    var evicted: nat
    var entries: map<int, Session>
    var lru: seq<int>
    /** Every session evicted so far, in order. */
    ghost var gone: seq<Eviction>

    ghost function View(): Table
      reads this
    {
      Table(entries, lru)
    }

    ghost predicate Valid()
      reads this
    {
      Sound(View()) && evicted == |gone|
    }

    constructor (limits: Limits)
      ensures Valid() && View() == Table(map[], []) && this.limits == limits && gone == []
    {
      this.limits := limits;
      evicted, gone, entries, lru := 0, [], map[], [];
    }

    method Get(cid: int, now: nat) returns (lastSeq: int)
      requires Valid()
      modifies this
      ensures Valid() && lastSeq == SeqOf(old(View()), cid) && View() == AfterGet(old(View()), cid, now)
      ensures limits == old(limits) && gone == old(gone)
    {
      GetKeeps(View(), cid, now);
      if cid !in entries { return 0; }
      Touch(cid, now);
      return entries[cid].lastSeq;
    }

    method Put(cid: int, seqId: int, now: nat)
      requires Valid()
      modifies this
      ensures Valid() && View() == AfterPut(old(View()), cid, seqId, now)
      ensures limits == old(limits) && gone == old(gone)
    {
      PutKeeps(View(), cid, seqId, now);
      if cid !in entries {
        lru := [cid] + lru;
        entries := entries[cid := Session(seqId, now)];
      } else {
        entries := entries[cid := entries[cid].(lastSeq := seqId)];
        Touch(cid, now);
      }
    }

    /** Used only when a snapshot is restored: no touch. */
    method Load(cid: int, seqId: int, lastIndex: nat)
      requires Valid()
      modifies this
      ensures Valid() && View() == AfterLoad(old(View()), cid, seqId, lastIndex)
      ensures limits == old(limits) && gone == old(gone)
    {
      if cid !in entries {
        lru := [cid] + lru;
      }
      entries := entries[cid := Session(seqId, lastIndex)];
    }

    method Clear()
      requires Valid()
      modifies this
      ensures Valid() && View() == Table(map[], []) && limits == old(limits) && gone == old(gone)
    {
      entries, lru := map[], [];
    }

    method Touch(cid: int, now: nat)
      requires Valid() && cid in entries
      modifies this
      ensures View() == Touched(old(View()), cid, now) && Valid()
      ensures limits == old(limits) && gone == old(gone)
    {
      TouchKeeps(View(), cid, now);
      entries := entries[cid := entries[cid].(lastIndex := now)];
      lru := [cid] + Without(lru, Place(lru, cid));
    }

    ghost function Shown(fence: Fence): Scene
      reads this, fence
    {
      Scene(View(), fence.View(), gone)
    }

    /** Takes out the least recently used session and buries it. */
    method EvictLast(fence: Fence)
      requires Valid() && lru != []
      modifies this, fence
      ensures Valid() && limits == old(limits) && Shown(fence) == Evict(old(Shown(fence)), fence.cap)
    {
      DropKeeps(View());
      var cid := lru[|lru| - 1];
      var lastSeq := entries[cid].lastSeq;
      lru := lru[..|lru| - 1];
      entries := entries - {cid};
      evicted := evicted + 1;
      gone := gone + [Eviction(cid, lastSeq)];
      fence.Bury(cid, lastSeq);
    }

    method EvictOne(fence: Fence, ghost from: Scene, ghost n: nat)
      requires Valid() && lru != [] && Sound(from.table) && Reaped(from, fence.cap, n, Shown(fence))
      modifies this, fence
      ensures n > 0 && Reaped(from, fence.cap, n - 1, Shown(fence))
      ensures Valid() && limits == old(limits) && |lru| == n - 1 == |entries|
    {
      ReapOne(from, fence.cap, n, Shown(fence));
      EvictLast(fence);
      SizeOf(View());
    }

    /**
     * The idle pass: from the old end up to the first session that was not idle too long.
     * Every client of the list has a session, so the pass never meets one without.
     */
    method ReapIdle(now: nat, fence: Fence, ghost from: Scene)
      requires Valid() && from == Shown(fence)
      modifies this, fence
      ensures Valid() && limits == old(limits)
      ensures Reaped(from, fence.cap, AwakeCount(from.table, |from.table.lru|, now, limits.maxIdle), Shown(fence))
    {
      ghost var n: nat := |lru|;
      StartReap(from, fence.cap);
      while lru != []
        invariant Valid() && limits == old(limits) && n == |lru| && Reaped(from, fence.cap, n, Shown(fence))
        invariant AwakeCount(from.table, n, now, limits.maxIdle)
          == AwakeCount(from.table, |from.table.lru|, now, limits.maxIdle)
        decreases |lru|
      {
        var last := lru[|lru| - 1];
        var idle := if now >= entries[last].lastIndex then now - entries[last].lastIndex else 0;
        ReapOne(from, fence.cap, n, Shown(fence));
        AwakeStep(from.table, n, now, limits.maxIdle, idle);
        if idle <= limits.maxIdle { break; }
        EvictOne(fence, from, n);
        n := n - 1;
      }
    }

    /** The capacity pass: from the old end, what is over capacity. */
    method ReapExcess(fence: Fence, ghost from: Scene, ghost k: nat)
      requires Valid() && Sound(from.table) && Reaped(from, fence.cap, k, Shown(fence))
      modifies this, fence
      ensures Valid() && limits == old(limits)
      ensures Reaped(from, fence.cap, Capped(k, limits.cap), Shown(fence))
    {
      ghost var n: nat, least: nat := k, Capped(k, limits.cap);
      ReapedSize(from, fence.cap, k, Shown(fence));
      SizeOf(View());
      while lru != [] && |entries| > limits.cap
        invariant Valid() && limits == old(limits) && |entries| == |lru| == n
        invariant Reaped(from, fence.cap, n, Shown(fence)) && least <= n <= k
        decreases |lru|
      {
        EvictOne(fence, from, n);
        n := n - 1;
      }
      assert n == least;
    }

    /** What is left is what KeptExactly says, and the others went in order. */
    method Reap(now: nat, fence: Fence)
      requires Valid()
      modifies this, fence
      ensures Valid() && limits == old(limits)
      ensures Reaped(old(Shown(fence)), fence.cap, KeepCount(old(View()), now, limits), Shown(fence))
    {
      ghost var from := Shown(fence);
      ReapIdle(now, fence, from);
      ReapExcess(fence, from, AwakeCount(from.table, |from.table.lru|, now, limits.maxIdle));
    }
  }

  lemma SizeOf(t: Table)
    requires Sound(t)
    ensures |t.entries| == |t.lru|
  {
    forall c ensures c in t.lru <==> c in t.entries.Keys {}
    DistinctCount(t.lru, t.entries.Keys);
  }

  lemma ReapedSize(from: Scene, cap: nat, k: nat, to: Scene)
    requires Reaped(from, cap, k, to)
    ensures |to.table.lru| == k
  {
  }

  lemma StartReap(from: Scene, cap: nat)
    ensures Reaped(from, cap, |from.table.lru|, from)
  {
    assert Evicted(from.table, |from.table.lru|) == [] && from.gone + [] == from.gone;
    assert ReapedWith(from, cap, |from.table.lru|, from, []);
  }

  lemma ReapOne(from: Scene, cap: nat, n: nat, to: Scene)
    requires Sound(from.table) && Reaped(from, cap, n, to) && n > 0
    ensures |to.table.lru| == n && to.table.lru[n - 1] == from.table.lru[n - 1]
    ensures UsedAt(to.table, to.table.lru[n - 1]) == UsedAt(from.table, from.table.lru[n - 1])
    ensures Reaped(from, cap, n - 1, Evict(to, cap))
  {
    CutMembers(from.table, n);
    CutOne(from.table, n, from.tombs, cap);
    var e, es := EvictionAt(from.table, n - 1), Evicted(from.table, n);
    assert Evicted(from.table, n - 1) == es + [e] && from.gone + es + [e] == from.gone + (es + [e]);
    assert ReapedWith(from, cap, n - 1, Evict(to, cap), es + [e]);
  }

  lemma CutOne(t: Table, n: nat, tombs: Tombs, cap: nat)
    requires Sound(t) && 0 < n <= |t.lru|
    ensures Drop(CutTo(t, n)) == CutTo(t, n - 1)
    ensures EvictionAt(CutTo(t, n), n - 1) == EvictionAt(t, n - 1)
    ensures AllBuried(tombs, Evicted(t, n - 1), cap)
      == Buried(AllBuried(tombs, Evicted(t, n), cap), EvictionAt(t, n - 1), cap)
  {
    BuryOne(tombs, Evicted(t, n), EvictionAt(t, n - 1), cap);
    CutMembers(t, n);
    assert CutTo(t, n).lru[n - 1] == t.lru[n - 1];
  }
}
