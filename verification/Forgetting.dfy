/**
 * How many clients it takes to forget one: runs in which a client's session is evicted, its
 * tombstone is pushed out by others, and its repeated operation is executed a second time; and
 * why with fewer clients there are none.
 */
module Forgetting {
  import opened Wrappers
  import opened Codec
  import opened Messages
  import opened Sequences
  import opened OrderStatistics
  import opened Sessions
  import opened KvServer
  import opened ExactlyOnce

  // ------------------------------------------------------------ clients in turn

  /** Of n clients, all in turn and then, without client 0, in turn again: the one whose turn v is. */
  function ClientAt(n: nat, v: nat): nat {
    if v < n then v else v - n + 1
  }

  /** The sessions are those of turns b to v - 1, the last one in front. */
  ghost predicate Stacked(t: Table, n: nat, v: nat, b: nat) {
    Sound(t) && |t.lru| + b == v && forall i :: 0 <= i < |t.lru| ==> t.lru[i] == ClientAt(n, v - 1 - i)
  }

  function Excess(n: nat, cap: nat): nat {
    if n > cap then n - cap else 0
  }

  /** Clients 0 to b - 1 were buried in turn, and as many of the last ones as there is room for are left. */
  ghost predicate Lined(tombs: Tombs, b: nat, cap: nat) {
    TombsSound(tombs) && |tombs.fifo| + Excess(b, cap) == b
    && forall i :: 0 <= i < |tombs.fifo| ==> tombs.fifo[i] == Excess(b, cap) + i
  }

  lemma BuriedInTurn(tombs: Tombs, e: Eviction, cap: nat, b: nat)
    requires Lined(tombs, b, cap) && e.clientId == b
    ensures Lined(Buried(tombs, e, cap), b + 1, cap)
  {
    BuriedKeeps(tombs, e, cap);
    assert e.clientId !in tombs.fifo;
  }

  /** Burying the sessions of turns b on, all of them first turns. */
  lemma {:induction false} AllInTurn(t: Table, tombs: Tombs, cap: nat, n: nat, v: nat, b: nat, k: nat)
    requires Stacked(t, n, v, b) && Lined(tombs, b, cap) && k <= |t.lru| && v <= n + k
    ensures v >= k && Lined(AllBuried(tombs, Evicted(t, k), cap), v - k, cap)
    decreases |t.lru| - k
  {
    if k < |t.lru| {
      AllInTurn(t, tombs, cap, n, v, b, k + 1);
      BuryOne(tombs, Evicted(t, k + 1), EvictionAt(t, k), cap);
      assert EvictionAt(t, k).clientId == ClientAt(n, v - k - 1);
      BuriedInTurn(AllBuried(tombs, Evicted(t, k + 1), cap), EvictionAt(t, k), cap, v - k - 1);
    }
  }

  lemma CutStacked(t: Table, n: nat, v: nat, b: nat, k: nat)
    requires Stacked(t, n, v, b) && k <= |t.lru|
    ensures Stacked(CutTo(t, k), n, v, v - k)
  {
    CutMembers(t, k);
  }

  lemma NewSession(s: State, op: Op, now: nat, n: nat, v: nat, b: nat)
    requires Stacked(s.table, n, v, b) && op.clientId == ClientAt(n, v) && op.clientId !in s.table.lru
    requires Executes(s, op)
    ensures Stacked(TableWith(s, op, now), n, v + 1, b)
  {
    TableWithIs(s, op, now, 0);
    assert TableWith(s, op, now).lru == [op.clientId] + s.table.lru;
  }

  /** The client whose turn it is has no session: its last turn is long over, or there was none. */
  lemma NotSeated(t: Table, n: nat, v: nat, b: nat)
    requires Stacked(t, n, v, b) && (v < n || v - b + 2 <= n)
    ensures ClientAt(n, v) !in t.lru
  {
    forall i | 0 <= i < |t.lru| ensures t.lru[i] != ClientAt(n, v) {}
  }

  ghost predicate Positive(s: State) {
    Sound(s.table) && TombsSound(s.tombs)
    && (forall c :: c in s.table.entries ==> s.table.entries[c].lastSeq > 0)
    && (forall c :: c in s.tombs.fenced ==> s.tombs.fenced[c] > 0)
  }

  ghost predicate NumbersUpTo(s: State, v: nat) {
    forall c :: LastSeq(s, c) <= v
  }

  /** The operation of turn v is numbered v + 1, and so is new. */
  lemma NumbersGrow(cfg: Config, s: State, op: Op, now: nat, v: nat)
    requires Positive(s) && NumbersUpTo(s, v) && op.seqId == v + 1
    ensures Executes(s, op) && Positive(AfterOp(cfg, s, op, now)) && NumbersUpTo(AfterOp(cfg, s, op, now), v + 1)
  {
    assert LastSeq(s, op.clientId) <= v;
    StepSound(cfg, s, op, now);
    var t := TableWith(s, op, now);
    KeepBound(t, now, cfg.limits);
    TableWithSound(s, op, now);
    forall c ensures LastSeq(AfterOp(cfg, s, op, now), c) <= v + 1 {
      assert LastSeq(s, c) <= v;
      TableWithIs(s, op, now, c);
      ReapRemembers(t, s.tombs, KeepCount(t, now, cfg.limits), cfg.fenceCap, c);
    }
  }

  // ------------------------------------------------- the first client's append

  /** The operation of client 0, and what the others do. */
  const First: Op := Op([1], [2], APPEND, 0, 1)

  function TurnOp(n: nat, v: nat): Op
    requires ClientAt(n, v) < TWO_31 && v + 1 < TWO_63
  {
    if v == 0 then First else Op([3], [], PUT, ClientAt(n, v), v + 1)
  }

  /** Client 0's value is in the store, and the unbounded model knows its number. */
  ghost predicate Appended(s: State, d: Ideal) {
    [1] in s.store && s.store[[1]] == [2] && [1] in d.store && d.store[[1]] == [2] && Newest(d, 0) == 1
  }

  /** Before client 0's append nothing is stored under its key. */
  ghost predicate Clean(s: State, d: Ideal) {
    [1] !in s.store && [1] !in d.store && Newest(d, 0) == 0
  }

  lemma FirstAppends(cfg: Config, s: State, d: Ideal, now: nat)
    requires Executes(s, First) && Clean(s, d)
    ensures Appended(AfterOp(cfg, s, First, now), IdealAfter(d, First))
  {
    assert PUT[0] != APPEND[0] && [] + First.value == [2];
  }

  lemma OtherLeaves(cfg: Config, s: State, d: Ideal, n: nat, v: nat, now: nat)
    requires 0 < v && ClientAt(n, v) < TWO_31 && v + 1 < TWO_63 && n > 0 && Appended(s, d)
    ensures Appended(AfterOp(cfg, s, TurnOp(n, v), now), IdealAfter(d, TurnOp(n, v)))
  {
    assert [1][0] != [3][0];
  }

  ghost predicate Stores(store: map<bytes, bytes>, value: bytes) {
    [1] in store && store[[1]] == value
  }

  lemma AppendsAgain(cfg: Config, s: State, d: Ideal, now: nat)
    requires LastSeq(s, 0) == 0 && Appended(s, d)
    ensures Replayed(s, d, First)
    ensures Stores(AfterOp(cfg, s, First, now).store, [2, 2]) && Stores(IdealAfter(d, First).store, [2])
  {
    assert PUT[0] != APPEND[0] && [2] + First.value == [2, 2];
  }

  // ------------------------------------------------------ runs without idling

  /** After turns 0 to v - 1: the last ones have the sessions, those before them were buried in turn. */
  ghost predicate InTurn(cfg: Config, n: nat, s: State, v: nat) {
    Stacked(s.table, n, v, Excess(v, cfg.limits.cap)) && Lined(s.tombs, Excess(v, cfg.limits.cap), cfg.fenceCap)
  }

  /** Enough clients that whoever is in turn has no session left. */
  predicate Enough(cfg: Config, n: nat, v: nat) {
    (v < n || cfg.limits.cap + 2 <= n) && Excess(v + 1, cfg.limits.cap) <= n
  }

  /** The idle pass leaves everybody: it is too early, or nobody is left anyway. */
  predicate Unhurried(cfg: Config, now: nat) {
    now <= cfg.limits.maxIdle || cfg.limits.cap == 0
  }

  lemma KeepsByCap(cfg: Config, t: Table, now: nat)
    requires Unhurried(cfg, now)
    ensures KeepCount(t, now, cfg.limits) == Capped(|t.lru|, cfg.limits.cap)
  {
  }

  lemma TurnReaped(cfg: Config, n: nat, t: Table, tombs: Tombs, v: nat, b: nat, k: nat)
    requires Stacked(t, n, v + 1, b) && b == Excess(v, cfg.limits.cap) && k == Capped(|t.lru|, cfg.limits.cap)
    requires Lined(tombs, b, cfg.fenceCap) && Excess(v + 1, cfg.limits.cap) <= n
    ensures Stacked(CutTo(t, k), n, v + 1, Excess(v + 1, cfg.limits.cap))
    ensures Lined(AllBuried(tombs, Evicted(t, k), cfg.fenceCap), Excess(v + 1, cfg.limits.cap), cfg.fenceCap)
  {
    CutStacked(t, n, v + 1, b, k);
    AllInTurn(t, tombs, cfg.fenceCap, n, v + 1, b, k);
  }

  lemma TurnTaken(cfg: Config, n: nat, s: State, v: nat, op: Op, now: nat)
    requires InTurn(cfg, n, s, v) && Enough(cfg, n, v) && Unhurried(cfg, now)
    requires op.clientId == ClientAt(n, v) && Executes(s, op)
    ensures InTurn(cfg, n, AfterOp(cfg, s, op, now), v + 1)
  {
    var b := Excess(v, cfg.limits.cap);
    var t := TableWith(s, op, now);
    NotSeated(s.table, n, v, b);
    NewSession(s, op, now, n, v, b);
    KeepBound(t, now, cfg.limits);
    KeepsByCap(cfg, t, now);
    TurnReaped(cfg, n, t, s.tombs, v, b, KeepCount(t, now, cfg.limits));
  }

  /** The turns 0 to m, and client 0's operation once more. */
  function Crowd(n: nat, m: nat): (log: seq<Logged>)
    requires n <= TWO_31 && m + 2 < TWO_63 && m + 1 < 2 * n
    ensures |log| == m + 2 && log[m + 1] == Logged(m + 2, First)
    ensures forall v: nat :: v <= m ==> log[v] == Logged(v + 1, TurnOp(n, v))
  {
    seq(m + 1, v requires 0 <= v <= m => Logged(v + 1, TurnOp(n, v))) + [Logged(m + 2, First)]
  }

  ghost predicate TurnsOK(cfg: Config, n: nat, s: State, d: Ideal, v: nat) {
    InTurn(cfg, n, s, v) && Positive(s) && NumbersUpTo(s, v) && (if v > 0 then Appended(s, d) else Clean(s, d))
  }

  lemma EnoughBefore(cfg: Config, n: nat, v: nat, m: nat)
    requires v <= m && Enough(cfg, n, m) && Unhurried(cfg, m + 1)
    ensures Enough(cfg, n, v) && Unhurried(cfg, v + 1)
  {
  }

  lemma StoresAfter(cfg: Config, n: nat, s: State, d: Ideal, v: nat, op: Op, now: nat)
    requires ClientAt(n, v) < TWO_31 && v + 1 < TWO_63 && n > 0 && op == TurnOp(n, v) && Executes(s, op)
    requires if v > 0 then Appended(s, d) else Clean(s, d)
    ensures Appended(AfterOp(cfg, s, op, now), IdealAfter(d, op))
  {
    if v == 0 { FirstAppends(cfg, s, d, now); } else { OtherLeaves(cfg, s, d, n, v, now); }
  }

  lemma OneTurn(cfg: Config, n: nat, s: State, d: Ideal, v: nat, op: Op, s2: State, d2: Ideal)
    requires Enough(cfg, n, v) && Unhurried(cfg, v + 1) && TurnsOK(cfg, n, s, d, v)
    requires 0 < n <= TWO_31 && v + 1 < TWO_63 && ClientAt(n, v) < TWO_31 && op == TurnOp(n, v)
    requires s2 == AfterOp(cfg, s, op, v + 1) && d2 == IdealAfter(d, op)
    ensures TurnsOK(cfg, n, s2, d2, v + 1)
  {
    NumbersGrow(cfg, s, op, v + 1, v);
    TurnTaken(cfg, n, s, v, op, v + 1);
    StoresAfter(cfg, n, s, d, v, op, v + 1);
  }

  lemma {:induction false} CrowdPasses(cfg: Config, n: nat, m: nat, states: seq<State>, ideals: seq<Ideal>, v: nat)
    requires n <= TWO_31 && m + 2 < TWO_63 && m + 1 < 2 * n && Runs(cfg, Crowd(n, m), states, ideals) && v <= m + 1
    requires Enough(cfg, n, m) && Unhurried(cfg, m + 1)
    ensures TurnsOK(cfg, n, states[v], ideals[v], v)
  {
    if v == 0 {
      assert states[0] == EmptyState;
    } else {
      var u: nat := v - 1;
      CrowdPasses(cfg, n, m, states, ideals, u);
      assert StepAt(cfg, Crowd(n, m), states, ideals, u) && Crowd(n, m)[u] == Logged(u + 1, TurnOp(n, u));
      EnoughBefore(cfg, n, u, m);
      OneTurn(cfg, n, states[u], ideals[u], u, TurnOp(n, u), states[v], ideals[v]);
    }
  }

  // ------------------------------------------------ the threshold without idling

  /** So many clients can push one of them out of the sessions and out of the tombstones. */
  function Threshold(cfg: Config): nat {
    if cfg.fenceCap == 0 then cfg.limits.cap + 1
    else if cfg.fenceCap > cfg.limits.cap then cfg.fenceCap + 1
    else cfg.limits.cap + 2
  }

  ghost predicate By(log: seq<Logged>, clients: set<int>) {
    forall i :: 0 <= i < |log| ==> log[i].op.clientId in clients
  }

  /** All times fit the index type. */
  ghost predicate Dated(log: seq<Logged>) {
    forall i :: 0 <= i < |log| ==> log[i].index < TWO_63
  }

  ghost predicate Brisk(cfg: Config, log: seq<Logged>) {
    forall i :: 0 <= i < |log| ==> Unhurried(cfg, log[i].index)
  }

  /** A run at the end of which a forgotten client's append is executed a second time. */
  ghost predicate AppendsTwice(cfg: Config, log: seq<Logged>, states: seq<State>, ideals: seq<Ideal>) {
    && Runs(cfg, log, states, ideals) && Rising(log) && |log| > 1
    && log[|log| - 1].op == log[0].op == First
    && Replayed(states[|log| - 1], ideals[|log| - 1], First)
    && Stores(states[|log|].store, [2, 2]) && Stores(ideals[|log|].store, [2])
  }

  lemma FirstForgotten(cfg: Config, n: nat, s: State, v: nat)
    requires InTurn(cfg, n, s, v) && v > cfg.limits.cap + cfg.fenceCap && n > 0
    ensures LastSeq(s, 0) == 0
  {
    assert 0 !in s.table.lru && 0 !in s.tombs.fifo;
  }

  lemma CrowdForgets(cfg: Config, n: nat, m: nat, states: seq<State>, ideals: seq<Ideal>)
    requires m == cfg.limits.cap + cfg.fenceCap < TWO_31 && n == Threshold(cfg)
    requires Unhurried(cfg, m + 1) && Runs(cfg, Crowd(n, m), states, ideals)
    ensures LastSeq(states[m + 1], 0) == 0 && Appended(states[m + 1], ideals[m + 1])
  {
    CrowdPasses(cfg, n, m, states, ideals, m + 1);
    FirstForgotten(cfg, n, states[m + 1], m + 1);
  }

  lemma CrowdIs(n: nat, m: nat)
    requires n <= TWO_31 && m + 2 < TWO_63 && m + 1 < 2 * n
    ensures Rising(Crowd(n, m)) && By(Crowd(n, m), Below(n)) && Crowd(n, m)[0].op == First
    ensures forall i :: 0 <= i < |Crowd(n, m)| ==> Crowd(n, m)[i].index <= m + 2
  {
    BelowIsRange(n);
    var log := Crowd(n, m);
    forall i: nat | i < |log| ensures log[i].op.clientId in Below(n) && log[i].index == i + 1 {
      if i <= m { assert log[i] == Logged(i + 1, TurnOp(n, i)); }
    }
  }

  /** When nothing is left of client 0 at the end of a log, its append is executed again. */
  lemma OnceMore(cfg: Config, log: seq<Logged>, states: seq<State>, ideals: seq<Ideal>, last: nat)
    requires Runs(cfg, log, states, ideals) && Rising(log) && 0 < last == |log| - 1
    requires log[last].op == log[0].op == First && LastSeq(states[last], 0) == 0 && Appended(states[last], ideals[last])
    ensures AppendsTwice(cfg, log, states, ideals)
  {
    assert StepAt(cfg, log, states, ideals, last);
    AppendsAgain(cfg, states[last], ideals[last], log[last].index);
  }

  /** As many clients as the threshold says, and no idling: the first one's append is executed again. */
  lemma CrowdAppendsTwice(cfg: Config, n: nat, m: nat)
    returns (log: seq<Logged>, states: seq<State>, ideals: seq<Ideal>)
    requires m == cfg.limits.cap + cfg.fenceCap && n == Threshold(cfg) && m < TWO_31 && Unhurried(cfg, m + 2)
    ensures AppendsTwice(cfg, log, states, ideals) && By(log, Below(n)) && Brisk(cfg, log) && Dated(log)
  {
    log := Crowd(n, m);
    CrowdIs(n, m);
    states, ideals := RunExists(cfg, log);
    CrowdForgets(cfg, n, m, states, ideals);
    OnceMore(cfg, log, states, ideals, m + 1);
  }

  // ------------------------------------------------------ below the threshold

  /** At most one of the clients that sent anything has no session, and then all sessions are taken. */
  ghost predicate OneAway(cfg: Config, s: State, d: Ideal, clients: set<int>) {
    && Tracks(s, d) && KnowsExactly(s, d) && |s.table.lru| <= cfg.limits.cap
    && (forall c :: c in s.table.entries ==> c in clients)
    && (forall c :: Newest(d, c) != 0 ==> c in clients && (c in s.table.entries || |s.table.lru| == cfg.limits.cap))
  }

  predicate SmallCircle(cfg: Config, size: nat) {
    size <= cfg.limits.cap || (cfg.fenceCap > 0 && size <= cfg.limits.cap + 1)
  }

  lemma EverybodySeated(t: Table, clients: set<int>, c: int)
    requires Sound(t) && (forall x :: x in t.entries ==> x in clients) && |t.lru| >= |clients| && c in clients
    ensures c in t.entries && |t.lru| == |clients|
  {
    var keys := t.entries.Keys;
    forall x ensures x in t.lru <==> x in keys {}
    DistinctCount(t.lru, keys);
    forall x | x in keys + {c} ensures x in clients {}
    SubsetSize(keys + {c}, clients);
  }

  /** What the reap does when there is one session too many. */
  lemma LastGoes(cfg: Config, s: State, op: Op, now: nat, t: Table, after: State)
    requires t == TableWith(s, op, now) && Sound(t) && TombsSound(s.tombs) && Unhurried(cfg, now)
    requires |t.lru| == cfg.limits.cap + 1 && cfg.fenceCap > 0 && after == AfterOp(cfg, s, op, now)
    ensures |after.table.lru| == cfg.limits.cap && t.lru[cfg.limits.cap] in after.tombs.fenced
    ensures forall c :: c in t.entries && c != t.lru[cfg.limits.cap] ==> c in after.table.entries
    ensures forall c :: c in after.table.entries ==> c in t.entries
  {
    var k := cfg.limits.cap;
    KeepBound(t, now, cfg.limits);
    KeepsByCap(cfg, t, now);
    CutMembers(t, k);
    assert t.lru == t.lru[..k] + [t.lru[k]];
    assert Evicted(t, k) == [EvictionAt(t, k)] && AllBuried(s.tombs, [], cfg.fenceCap) == s.tombs;
    BuryOne(s.tombs, [], EvictionAt(t, k), cfg.fenceCap);
    assert [] + [EvictionAt(t, k)] == [EvictionAt(t, k)];
    FreshTomb(s.tombs, EvictionAt(t, k), cfg.fenceCap);
  }

  lemma FreshTomb(tombs: Tombs, e: Eviction, cap: nat)
    requires TombsSound(tombs) && cap > 0
    ensures e.clientId in Buried(tombs, e, cap).fenced
  {
    if e.clientId !in tombs.fenced && |tombs.fifo| + 1 > cap {
      assert (tombs.fifo + [e.clientId])[0] == tombs.fifo[0] && tombs.fifo[0] in tombs.fenced;
    }
  }

  /** With no session overdue, nobody goes. */
  lemma NobodyGoes(cfg: Config, s: State, op: Op, now: nat, t: Table, after: State)
    requires t == TableWith(s, op, now) && KeepCount(t, now, cfg.limits) == |t.lru|
    requires after == AfterOp(cfg, s, op, now)
    ensures after.table == t && after.tombs == s.tombs
  {
    assert Evicted(t, |t.lru|) == [];
  }

  lemma TableGrows(s: State, op: Op, now: nat, t: Table)
    requires Sound(s.table) && t == TableWith(s, op, now)
    ensures Sound(t) && |s.table.lru| <= |t.lru| <= |s.table.lru| + 1
    ensures forall c :: c in t.entries <==> c in s.table.entries || (c == op.clientId && Executes(s, op))
  {
    TableWithIs(s, op, now, 0);
    forall c ensures c in t.entries <==> c in s.table.entries || (c == op.clientId && Executes(s, op)) {
      TableWithIs(s, op, now, c);
    }
    var get := AfterGet(s.table, op.clientId, now);
    if op.clientId in s.table.entries { TouchSizes(s.table, op.clientId, now); }
    GetKeeps(s.table, op.clientId, now);
    if Executes(s, op) && op.clientId in get.entries {
      var put := get.(entries := get.entries[op.clientId := get.entries[op.clientId].(lastSeq := op.seqId)]);
      TouchSizes(put, op.clientId, now);
    }
  }

  /** Whoever is known after the operation has a session in t, or the sessions were all taken before. */
  lemma KnownSeated(cfg: Config, s: State, d: Ideal, op: Op, now: nat, t: Table, clients: set<int>, c: int)
    requires OneAway(cfg, s, d, clients) && op.clientId in clients && t == TableWith(s, op, now)
    requires Newest(IdealAfter(d, op), c) != 0
    ensures c in clients && (c in t.entries || (|s.table.lru| == cfg.limits.cap && c in s.tombs.fenced))
  {
    TableGrows(s, op, now, t);
    assert LastSeq(s, op.clientId) == Newest(d, op.clientId) && LastSeq(s, c) == Newest(d, c);
  }

  /** A client with a session or a tombstone is remembered. */
  lemma Remembers(s: State, d: Ideal, c: int)
    requires Tracks(s, d) && (c in s.table.entries || c in s.tombs.fenced)
    ensures LastSeq(s, c) != 0
  {
  }

  /** After the operation, everybody known has a session or a tombstone, and at most one has none. */
  lemma SeatsAfter(cfg: Config, s: State, d: Ideal, op: Op, now: nat, t: Table, after: State, clients: set<int>)
    requires OneAway(cfg, s, d, clients) && op.clientId in clients && SmallCircle(cfg, |clients|)
    requires Unhurried(cfg, now) && t == TableWith(s, op, now) && after == AfterOp(cfg, s, op, now)
    ensures |after.table.lru| <= cfg.limits.cap && forall c :: c in after.table.entries ==> c in clients
    ensures forall c :: Newest(IdealAfter(d, op), c) != 0 ==>
      && c in clients && (c in after.table.entries || c in after.tombs.fenced)
      && (c in after.table.entries || |after.table.lru| == cfg.limits.cap)
  {
    TableGrows(s, op, now, t);
    if |t.lru| <= cfg.limits.cap {
      KeepsByCap(cfg, t, now);
      NobodyGoes(cfg, s, op, now, t, after);
    } else {
      EverybodySeated(t, clients, op.clientId);
      LastGoes(cfg, s, op, now, t, after);
    }
    forall c | Newest(IdealAfter(d, op), c) != 0
      ensures c in clients && (c in after.table.entries || c in after.tombs.fenced)
      ensures c in after.table.entries || |after.table.lru| == cfg.limits.cap
    {
      KnownSeated(cfg, s, d, op, now, t, clients, c);
      if |t.lru| > cfg.limits.cap { EverybodySeated(t, clients, c); }
    }
  }

  lemma StepOneAway(cfg: Config, s: State, d: Ideal, op: Op, now: nat, s2: State, d2: Ideal, clients: set<int>)
    requires OneAway(cfg, s, d, clients) && op.clientId in clients && SmallCircle(cfg, |clients|)
    requires Unhurried(cfg, now) && s2 == AfterOp(cfg, s, op, now) && d2 == IdealAfter(d, op)
    ensures OneAway(cfg, s2, d2, clients) && !Replayed(s, d, op)
  {
    assert LastSeq(s, op.clientId) == Newest(d, op.clientId);
    StepTracks(cfg, s, d, op, now);
    SeatsAfter(cfg, s, d, op, now, TableWith(s, op, now), s2, clients);
    forall c ensures LastSeq(s2, c) == Newest(d2, c) {
      StepRemembers(cfg, s, d, op, now, c);
      if Newest(d2, c) != 0 { Remembers(s2, d2, c); }
    }
  }

  lemma NobodyYet(cfg: Config, s: State, d: Ideal, clients: set<int>)
    requires s == EmptyState && d == EmptyIdeal
    ensures OneAway(cfg, s, d, clients)
  {
  }

  lemma NextAway(cfg: Config, log: seq<Logged>, states: seq<State>, ideals: seq<Ideal>, clients: set<int>, n: nat)
    requires Runs(cfg, log, states, ideals) && By(log, clients) && Brisk(cfg, log) && n < |log|
    requires SmallCircle(cfg, |clients|) && OneAway(cfg, states[n], ideals[n], clients)
    ensures OneAway(cfg, states[n + 1], ideals[n + 1], clients) && !Replayed(states[n], ideals[n], log[n].op)
  {
    var e := log[n];
    assert StepAt(cfg, log, states, ideals, n) && Unhurried(cfg, e.index);
    StepOneAway(cfg, states[n], ideals[n], e.op, e.index, states[n + 1], ideals[n + 1], clients);
  }

  lemma {:induction false} SmallCircleRemembers(cfg: Config, log: seq<Logged>, states: seq<State>, ideals: seq<Ideal>,
                                                clients: set<int>, n: nat)
    requires Runs(cfg, log, states, ideals) && By(log, clients) && Brisk(cfg, log) && n <= |log|
    requires SmallCircle(cfg, |clients|)
    ensures OneAway(cfg, states[n], ideals[n], clients) && NoneReplayed(log, states, ideals, n)
  {
    if n == 0 {
      NobodyYet(cfg, states[0], ideals[0], clients);
    } else {
      SmallCircleRemembers(cfg, log, states, ideals, clients, n - 1);
      NextAway(cfg, log, states, ideals, clients, n - 1);
    }
  }

  /** A run over at most n clients in which an old operation of a forgotten client is executed. */
  ghost predicate Forgets(cfg: Config, n: nat, clients: set<int>, log: seq<Logged>, states: seq<State>,
                          ideals: seq<Ideal>)
  {
    && Runs(cfg, log, states, ideals) && Rising(log) && By(log, clients) && |clients| <= n
    && !NoneReplayed(log, states, ideals, |log|)
  }

  ghost predicate ForgetsBriskly(cfg: Config, n: nat, clients: set<int>, log: seq<Logged>, states: seq<State>,
                                 ideals: seq<Ideal>)
  {
    Forgets(cfg, n, clients, log, states, ideals) && Brisk(cfg, log)
  }

  /** With fewer clients nobody is forgotten. */
  lemma FewAreSafe(cfg: Config, n: nat, clients: set<int>, log: seq<Logged>, states: seq<State>, ideals: seq<Ideal>)
    requires n < Threshold(cfg)
    ensures !ForgetsBriskly(cfg, n, clients, log, states, ideals)
  {
    if ForgetsBriskly(cfg, n, clients, log, states, ideals) {
      if |clients| <= cfg.fenceCap {
        RoomForAll(cfg, log, states, ideals, clients, |log|);
        ExactWhileTombsLast(cfg, log, states, ideals, |log|);
      } else {
        SmallCircleRemembers(cfg, log, states, ideals, clients, |log|);
      }
    }
  }

  lemma TwiceIsForgetting(cfg: Config, n: nat, log: seq<Logged>, states: seq<State>, ideals: seq<Ideal>)
    requires AppendsTwice(cfg, log, states, ideals) && By(log, Below(n))
    ensures forall k: nat :: n <= k ==> Forgets(cfg, k, Below(n), log, states, ideals)
  {
    BelowIsRange(n);
  }

  /**
   * As long as no session is evicted for idling: runs over n clients execute an operation a
   * second time exactly when n reaches the threshold. So fenceCap + 1 clients are enough exactly
   * when there are fewer sessions than tombstones, or room for neither.
   */
  lemma ForgetsFromThreshold(cfg: Config, n: nat)
    requires cfg.limits.cap + cfg.fenceCap < TWO_31 && Unhurried(cfg, cfg.limits.cap + cfg.fenceCap + 2)
    ensures (exists clients, log, states, ideals :: ForgetsBriskly(cfg, n, clients, log, states, ideals))
      <==> n >= Threshold(cfg)
  {
    if n >= Threshold(cfg) {
      var log, states, ideals := CrowdAppendsTwice(cfg, Threshold(cfg), cfg.limits.cap + cfg.fenceCap);
      TwiceIsForgetting(cfg, Threshold(cfg), log, states, ideals);
      assert ForgetsBriskly(cfg, n, Below(Threshold(cfg)), log, states, ideals);
    } else {
      forall clients, log, states, ideals ensures !ForgetsBriskly(cfg, n, clients, log, states, ideals) {
        FewAreSafe(cfg, n, clients, log, states, ideals);
      }
    }
  }
}
