/**
 * The key-value state machine: what applying one command does to the store, the session
 * table and the tombstones.
 */
module KvServer {
  import opened Wrappers
  import opened Sequences
  import opened Messages
  import opened Sessions

  const PUT: bytes := [0x50, 0x75, 0x74]
  const APPEND: bytes := [0x41, 0x70, 0x70, 0x65, 0x6e, 0x64]

  datatype State = State(store: map<bytes, bytes>, table: Table, tombs: Tombs)

  datatype Config = Config(limits: Limits, fenceCap: nat)

  /** The newest sequence number remembered for a client: its session's, or else its tombstone's. */
  function Remembered(t: Table, tombs: Tombs, c: int): int {
    if SeqOf(t, c) != 0 then SeqOf(t, c) else if c in tombs.fenced then tombs.fenced[c] else 0
  }

  function LastSeq(s: State, c: int): int {
    Remembered(s.table, s.tombs, c)
  }

  function Executes(s: State, op: Op): bool {
    op.seqId > LastSeq(s, op.clientId)
  }

  function Written(store: map<bytes, bytes>, op: Op): map<bytes, bytes> {
    if op.verb == PUT then store[op.key := op.value]
    else if op.verb == APPEND then store[op.key := (if op.key in store then store[op.key] else []) + op.value]
    else store
  }

  /** A key's value, empty when there is none. */
  function Found(store: map<bytes, bytes>, key: bytes): bytes {
    if key in store then store[key] else []
  }

  /** The table before the reap. */
  function TableWith(s: State, op: Op, now: nat): Table {
    var t := AfterGet(s.table, op.clientId, now);
    if Executes(s, op) then AfterPut(t, op.clientId, op.seqId, now) else t
  }

  function StoreWith(s: State, op: Op): map<bytes, bytes> {
    if Executes(s, op) then Written(s.store, op) else s.store
  }

  /** Applying op at index now. */
  ghost function AfterOp(cfg: Config, s: State, op: Op, now: nat): State {
    var t := TableWith(s, op, now);
    KeepBound(t, now, cfg.limits);
    var k := KeepCount(t, now, cfg.limits);
    State(StoreWith(s, op), CutTo(t, k), AllBuried(s.tombs, Evicted(t, k), cfg.fenceCap))
  }

  /** The sessions evicted while op is applied at index now, in order. */
  ghost function EvictionsAt(cfg: Config, s: State, op: Op, now: nat): seq<Eviction> {
    var t := TableWith(s, op, now);
    KeepBound(t, now, cfg.limits);
    Evicted(t, KeepCount(t, now, cfg.limits))
  }

  /** A command and its index in the log. */
  datatype Logged = Logged(index: nat, op: Op)

  ghost function Applying(cfg: Config): (State, Logged) -> State {
    (s: State, e: Logged) => AfterOp(cfg, s, e.op, e.index)
  }

  ghost function Evicting(cfg: Config): (State, Logged) -> seq<Eviction> {
    (s: State, e: Logged) => EvictionsAt(cfg, s, e.op, e.index)
  }

  /** What a log makes of s. */
  ghost function StateAfter(cfg: Config, s: State, log: seq<Logged>): State {
    FoldAll(Applying(cfg), s, log)
  }

  /** The sessions it evicts, in order. */
  ghost function EvictionsOver(cfg: Config, s: State, log: seq<Logged>): seq<Eviction> {
    Gathered(Applying(cfg), Evicting(cfg), s, log, |log|)
  }

  lemma KeepBound(t: Table, now: nat, limits: Limits)
    ensures KeepCount(t, now, limits) <= |t.lru|
  {
    AwakeBound(t, |t.lru|, now, limits.maxIdle);
  }

  lemma ReapedSound(from: Scene, cap: nat, k: nat, to: Scene)
    requires Reaped(from, cap, k, to) && TombsSound(from.tombs)
    ensures TombsSound(to.tombs)
  {
    BuriedSound(from.tombs, Evicted(from.table, k), cap);
  }

  lemma OneMore(cfg: Config, s: State, log: seq<Logged>, n: nat, before: seq<Eviction>, now: State, gone: seq<Eviction>)
    requires n < |log| && now == Folded(Applying(cfg), s, log, n)
    requires gone == before + Gathered(Applying(cfg), Evicting(cfg), s, log, n)
    ensures AfterOp(cfg, now, log[n].op, log[n].index) == Folded(Applying(cfg), s, log, n + 1)
    ensures gone + EvictionsAt(cfg, now, log[n].op, log[n].index)
      == before + Gathered(Applying(cfg), Evicting(cfg), s, log, n + 1)
  {
    GatherMore(Applying(cfg), Evicting(cfg), s, log, n, before, now, gone);
  }

  /** Applying a log is applying its front and then its back. */
  lemma AfterBoth(cfg: Config, s: State, front: seq<Logged>, back: seq<Logged>)
    ensures StateAfter(cfg, s, front + back) == StateAfter(cfg, StateAfter(cfg, s, front), back)
  {
    FoldAllBoth(Applying(cfg), s, front, back);
  }

  /** The reap of the table that the operation left makes the state after it. */
  lemma ReapCompletes(cfg: Config, s: State, op: Op, now: nat, from: Scene, to: Scene)
    requires from.table == TableWith(s, op, now) && from.tombs == s.tombs
    requires Reaped(from, cfg.fenceCap, KeepCount(from.table, now, cfg.limits), to)
    ensures State(StoreWith(s, op), to.table, to.tombs) == AfterOp(cfg, s, op, now)
    ensures to.gone == from.gone + EvictionsAt(cfg, s, op, now)
  {
  }

  class Server {
    var store: map<bytes, bytes>
    const sessions: SessionTable
    const fence: Fence
    var lastCmdIndex: nat

    ghost function View(): State
      reads this, sessions, fence
    {
      State(store, sessions.View(), fence.View())
    }

    ghost predicate Valid()
      reads this, sessions, fence
    {
      sessions.Valid() && TombsSound(fence.View())
    }

    ghost function Cfg(): Config
      reads sessions
    {
      Config(sessions.limits, fence.cap)
    }

    constructor (limits: Limits, fenceCap: nat)
      ensures Valid() && Cfg() == Config(limits, fenceCap) && lastCmdIndex == 0 && fresh(sessions) && fresh(fence)
      ensures View() == State(map[], Table(map[], []), Tombs(map[], []))
    {
      store, lastCmdIndex := map[], 0;
      sessions := new SessionTable(limits);
      fence := new Fence(fenceCap);
    }

    /** Executes op unless its client has sent its number before. */
    method Execute(op: Op, index: nat)
      requires Valid()
      modifies this`store, sessions
      ensures sessions.Valid() && sessions.limits == old(sessions.limits) && sessions.gone == old(sessions.gone)
      ensures store == StoreWith(old(View()), op) && sessions.View() == TableWith(old(View()), op, index)
    {
      var existing := sessions.Get(op.clientId, index);
      if existing == 0 {
        if op.clientId in fence.fenced { existing := fence.fenced[op.clientId]; }
      }
      if op.seqId > existing {
        if op.verb == PUT {
          store := store[op.key := op.value];
        } else if op.verb == APPEND {
          store := store[op.key := (if op.key in store then store[op.key] else []) + op.value];
        }
        sessions.Put(op.clientId, op.seqId, index);
      }
    }

    /** A read that has caught up: the key's value, or nothing and that there is none. */
    method Read(key: bytes) returns (found: bool, value: bytes)
      ensures found <==> key in store
      ensures value == Found(store, key)
    {
      found := key in store;
      value := if found then store[key] else [];
    }

    /** The critical section for one command. */
    method ApplyOp(op: Op, index: nat)
      requires Valid()
      modifies this, sessions, fence
      ensures Valid() && Cfg() == old(Cfg()) && View() == AfterOp(old(Cfg()), old(View()), op, index)
      ensures sessions.gone == old(sessions.gone) + EvictionsAt(old(Cfg()), old(View()), op, index)
      ensures lastCmdIndex == if index > old(lastCmdIndex) then index else old(lastCmdIndex)
    {
      Execute(op, index);
      ghost var from := sessions.Shown(fence);
      sessions.Reap(index, fence);
      ghost var to := sessions.Shown(fence);
      ReapedSound(from, fence.cap, KeepCount(from.table, index, sessions.limits), to);
      ReapCompletes(Cfg(), old(View()), op, index, from, to);
      if index > lastCmdIndex { lastCmdIndex := index; }
    }

    /** The commands of log, one after another. */
    method ApplyAll(log: seq<Logged>)
      requires Valid()
      modifies this, sessions, fence
      ensures Valid() && Cfg() == old(Cfg()) && View() == StateAfter(old(Cfg()), old(View()), log)
      ensures sessions.gone == old(sessions.gone) + EvictionsOver(old(Cfg()), old(View()), log)
    {
      ghost var cfg, s, before := Cfg(), View(), sessions.gone;
      for i := 0 to |log|
        invariant Valid() && Cfg() == cfg && View() == Folded(Applying(cfg), s, log, i)
        invariant sessions.gone == before + Gathered(Applying(cfg), Evicting(cfg), s, log, i)
      {
        OneMore(cfg, s, log, i, before, View(), sessions.gone);
        ApplyOp(log[i].op, log[i].index);
      }
    }
  }
}
