/**
 * The bounded session table and tombstones stand in for one unbounded map from client to its
 * largest sequence number: they give the same answer except for a client that was forgotten
 * altogether and sends an old number again.
 */
module ExactlyOnce {
  import opened Wrappers
  import opened Sequences
  import opened Messages
  import opened Sessions
  import opened KvServer
  import OrderStatistics

  // ------------------------------------------------------ the unbounded model

  /** The store and each client's largest sequence number so far. */
  datatype Ideal = Ideal(store: map<bytes, bytes>, newest: map<int, int>)

  function Newest(d: Ideal, c: int): int {
    if c in d.newest then d.newest[c] else 0
  }

  function IdealAfter(d: Ideal, op: Op): Ideal {
    if op.seqId > Newest(d, op.clientId) then Ideal(Written(d.store, op), d.newest[op.clientId := op.seqId]) else d
  }

  // --------------------------------------------------------------------- runs

  const EmptyIdeal: Ideal := Ideal(map[], map[])
  const EmptyState: State := State(map[], Table(map[], []), Tombs(map[], []))

  /** states and ideals are the bounded state and the unbounded model after each prefix of the log. */
  ghost predicate Runs(cfg: Config, log: seq<Logged>, states: seq<State>, ideals: seq<Ideal>) {
    |states| == |ideals| == |log| + 1 && states[0] == EmptyState && ideals[0] == EmptyIdeal
    && forall j: nat :: j < |log| ==> StepAt(cfg, log, states, ideals, j)
  }

  ghost predicate StepAt(cfg: Config, log: seq<Logged>, states: seq<State>, ideals: seq<Ideal>, j: nat)
    requires j < |log| && |states| == |ideals| == |log| + 1
  {
    states[j + 1] == AfterOp(cfg, states[j], log[j].op, log[j].index)
    && ideals[j + 1] == IdealAfter(ideals[j], log[j].op)
  }

  /** The unbounded model is the deduplicated log: its number for a client is the largest so far, or 0. */
  lemma {:induction false} NewestIsLargest(cfg: Config, log: seq<Logged>, states: seq<State>, ideals: seq<Ideal>,
                                           n: nat, c: int)
    requires Runs(cfg, log, states, ideals) && n <= |log|
    ensures Newest(ideals[n], c) >= 0
    ensures forall i :: 0 <= i < n && log[i].op.clientId == c ==> log[i].op.seqId <= Newest(ideals[n], c)
    ensures Newest(ideals[n], c) == 0
      || exists i :: 0 <= i < n && log[i].op.clientId == c && log[i].op.seqId == Newest(ideals[n], c)
  {
    if n > 0 {
      NewestIsLargest(cfg, log, states, ideals, n - 1, c);
      assert StepAt(cfg, log, states, ideals, n - 1);
    }
  }

  /** Nothing is left of a client that has sent operations. */
  ghost predicate Forgotten(s: State, d: Ideal, c: int) {
    LastSeq(s, c) == 0 && Newest(d, c) != 0
  }

  /** An old number of a forgotten client. */
  ghost predicate Replayed(s: State, d: Ideal, op: Op) {
    Forgotten(s, d, op.clientId) && 0 < op.seqId <= Newest(d, op.clientId)
  }

  /** What is remembered is right, and nothing remembered is 0. */
  ghost predicate Tracks(s: State, d: Ideal) {
    Sound(s.table) && TombsSound(s.tombs)
    && (forall c :: c in s.table.entries ==> s.table.entries[c].lastSeq > 0)
    && (forall c :: c in s.tombs.fenced ==> s.tombs.fenced[c] > 0)
    && (forall c :: LastSeq(s, c) != 0 ==> LastSeq(s, c) == Newest(d, c))
    && (forall c :: Newest(d, c) >= 0)
  }

  /** The state decides as the unbounded model does, exactly unless a forgotten client repeats itself. */
  lemma DecidesAlike(s: State, d: Ideal, op: Op)
    requires Tracks(s, d)
    ensures (Executes(s, op) <==> op.seqId > Newest(d, op.clientId)) <==> !Replayed(s, d, op)
  {
  }

  // --------------------------------------------------- what a reap leaves behind

  /** c's tombstone, if there is one, says v. */
  ghost predicate Says(t: Tombs, c: int, v: int) {
    c in t.fenced ==> t.fenced[c] == v
  }

  /** Every eviction of c leaves v. */
  ghost predicate EvictedWith(es: seq<Eviction>, c: int, v: int) {
    forall i :: 0 <= i < |es| && es[i].clientId == c ==> es[i].lastSeq == v
  }

  lemma {:induction false} BuriedSays(t: Tombs, es: seq<Eviction>, cap: nat, c: int, v: int)
    requires TombsSound(t) && EvictedWith(es, c, v)
    requires Says(t, c, v) || exists i :: 0 <= i < |es| && es[i].clientId == c
    ensures Says(AllBuried(t, es, cap), c, v)
    decreases |es|
  {
    if es != [] {
      var last := |es| - 1;
      if es[last].clientId != c {
        if !Says(t, c, v) {
          var i :| 0 <= i < |es| && es[i].clientId == c;
          assert es[..last][i].clientId == c;
        }
        BuriedSays(t, es[..last], cap, c, v);
      }
    }
  }

  lemma {:induction false} BuriedPositive(t: Tombs, es: seq<Eviction>, cap: nat)
    requires forall c :: c in t.fenced ==> t.fenced[c] > 0
    requires forall i :: 0 <= i < |es| ==> es[i].lastSeq > 0
    ensures forall c :: c in AllBuried(t, es, cap).fenced ==> AllBuried(t, es, cap).fenced[c] > 0
    decreases |es|
  {
    if es != [] { BuriedPositive(t, es[..|es| - 1], cap); }
  }

  /** The evictions are the sessions from place k on. */
  lemma {:induction false} EvictedAre(t: Table, k: nat)
    requires Sound(t) && k <= |t.lru|
    ensures forall i :: 0 <= i < |Evicted(t, k)| ==>
      Evicted(t, k)[i].clientId in t.lru[k..] && Evicted(t, k)[i].lastSeq == SeqOf(t, Evicted(t, k)[i].clientId)
    ensures forall c :: c in t.lru[k..] ==> exists i :: 0 <= i < |Evicted(t, k)| && Evicted(t, k)[i].clientId == c
    decreases |t.lru| - k
  {
    if k < |t.lru| {
      EvictedAre(t, k + 1);
      var es := Evicted(t, k + 1);
      assert t.lru[k..] == [t.lru[k]] + t.lru[k + 1..];
      forall c | c in t.lru[k..] ensures exists i :: 0 <= i < |Evicted(t, k)| && Evicted(t, k)[i].clientId == c {
        if c == t.lru[k] {
          assert Evicted(t, k)[|es|].clientId == c;
        } else {
          var i :| 0 <= i < |es| && es[i].clientId == c;
          assert Evicted(t, k)[i].clientId == c;
        }
      }
    }
  }

  /** A reap forgets a client or leaves what is remembered of it. */
  lemma ReapRemembers(t: Table, tombs: Tombs, k: nat, cap: nat, c: int)
    requires Sound(t) && TombsSound(tombs) && k <= |t.lru|
    requires forall x :: x in t.entries ==> t.entries[x].lastSeq > 0
    requires forall x :: x in tombs.fenced ==> tombs.fenced[x] > 0
    ensures var after := Remembered(CutTo(t, k), AllBuried(tombs, Evicted(t, k), cap), c);
      after == Remembered(t, tombs, c) || after == 0
    ensures c in t.entries && c !in CutTo(t, k).entries && c in AllBuried(tombs, Evicted(t, k), cap).fenced
      ==> AllBuried(tombs, Evicted(t, k), cap).fenced[c] == SeqOf(t, c)
  {
    var es := Evicted(t, k);
    EvictedAre(t, k);
    CutMembers(t, k);
    assert t.lru == t.lru[..k] + t.lru[k..];
    if c in t.entries {
      var v := SeqOf(t, c);
      if c in t.lru[k..] { BuriedSays(tombs, es, cap, c, v); }
    } else {
      assert c !in t.lru[k..];
      var v := if c in tombs.fenced then tombs.fenced[c] else 1;
      BuriedSays(tombs, es, cap, c, v);
      if c !in tombs.fenced { BuriedSays(tombs, es, cap, c, 2); }
    }
  }

  lemma TableWithIs(s: State, op: Op, now: nat, c: int)
    requires Sound(s.table)
    ensures Sound(TableWith(s, op, now))
    ensures SeqOf(TableWith(s, op, now), c)
      == if c == op.clientId && Executes(s, op) then op.seqId else SeqOf(s.table, c)
    ensures c in TableWith(s, op, now).entries <==> c in s.table.entries || (c == op.clientId && Executes(s, op))
  {
    var t := AfterGet(s.table, op.clientId, now);
    GetKeeps(s.table, op.clientId, now);
    PutKeeps(t, op.clientId, op.seqId, now);
  }

  lemma TableWithSound(s: State, op: Op, now: nat)
    requires Sound(s.table) && (forall c :: c in s.table.entries ==> s.table.entries[c].lastSeq > 0)
    requires LastSeq(s, op.clientId) >= 0
    ensures Sound(TableWith(s, op, now))
    ensures forall c :: c in TableWith(s, op, now).entries ==> TableWith(s, op, now).entries[c].lastSeq > 0
  {
    TableWithIs(s, op, now, 0);
    forall c | c in TableWith(s, op, now).entries ensures TableWith(s, op, now).entries[c].lastSeq > 0 {
      TableWithIs(s, op, now, c);
    }
  }

  /** After a step, what is remembered of c is right. */
  lemma StepRemembers(cfg: Config, s: State, d: Ideal, op: Op, now: nat, c: int)
    requires Tracks(s, d) && !Replayed(s, d, op)
    ensures var after := LastSeq(AfterOp(cfg, s, op, now), c); after == Newest(IdealAfter(d, op), c) || after == 0
  {
    var t := TableWith(s, op, now);
    KeepBound(t, now, cfg.limits);
    DecidesAlike(s, d, op);
    TableWithSound(s, op, now);
    TableWithIs(s, op, now, c);
    ReapRemembers(t, s.tombs, KeepCount(t, now, cfg.limits), cfg.fenceCap, c);
  }

  /** A step keeps the tables sound and what they hold positive. */
  lemma StepSound(cfg: Config, s: State, op: Op, now: nat)
    requires Sound(s.table) && TombsSound(s.tombs) && LastSeq(s, op.clientId) >= 0
    requires forall c :: c in s.table.entries ==> s.table.entries[c].lastSeq > 0
    requires forall c :: c in s.tombs.fenced ==> s.tombs.fenced[c] > 0
    ensures var s2 := AfterOp(cfg, s, op, now); Sound(s2.table) && TombsSound(s2.tombs)
    ensures var s2 := AfterOp(cfg, s, op, now); forall c :: c in s2.table.entries ==> s2.table.entries[c].lastSeq > 0
    ensures var s2 := AfterOp(cfg, s, op, now); forall c :: c in s2.tombs.fenced ==> s2.tombs.fenced[c] > 0
  {
    var t := TableWith(s, op, now);
    var k := KeepCount(t, now, cfg.limits);
    KeepBound(t, now, cfg.limits);
    TableWithSound(s, op, now);
    CutMembers(t, k);
    EvictedAre(t, k);
    var es := Evicted(t, k);
    BuriedSound(s.tombs, es, cfg.fenceCap);
    forall i | 0 <= i < |es| ensures es[i].lastSeq > 0 {
      assert es[i].clientId in t.lru[k..] && es[i].clientId in t.lru;
    }
    BuriedPositive(s.tombs, es, cfg.fenceCap);
  }

  /** Every operation but a forgotten client's old one is decided right, and what is remembered stays right. */
  lemma StepTracks(cfg: Config, s: State, d: Ideal, op: Op, now: nat)
    requires Tracks(s, d) && !Replayed(s, d, op)
    ensures Tracks(AfterOp(cfg, s, op, now), IdealAfter(d, op))
    ensures s.store == d.store ==> AfterOp(cfg, s, op, now).store == IdealAfter(d, op).store
  {
    DecidesAlike(s, d, op);
    StepSound(cfg, s, op, now);
    NewestStays(d, op);
    var s2, d2 := AfterOp(cfg, s, op, now), IdealAfter(d, op);
    forall c ensures LastSeq(s2, c) != 0 ==> LastSeq(s2, c) == Newest(d2, c) { StepRemembers(cfg, s, d, op, now, c); }
    TracksIs(s2, d2);
  }

  lemma NewestStays(d: Ideal, op: Op)
    requires forall c :: Newest(d, c) >= 0
    ensures forall c :: Newest(IdealAfter(d, op), c) >= 0
  {
    forall c ensures Newest(IdealAfter(d, op), c) >= 0 { assert Newest(d, c) >= 0 && Newest(d, op.clientId) >= 0; }
  }

  lemma TracksIs(s: State, d: Ideal)
    requires Sound(s.table) && TombsSound(s.tombs)
    requires forall c :: c in s.table.entries ==> s.table.entries[c].lastSeq > 0
    requires forall c :: c in s.tombs.fenced ==> s.tombs.fenced[c] > 0
    requires forall c :: LastSeq(s, c) != 0 ==> LastSeq(s, c) == Newest(d, c)
    requires forall c :: Newest(d, c) >= 0
    ensures Tracks(s, d)
  {
  }

  // ---------------------------------------------------------------- whole runs

  /** No old operation of a forgotten client among the first n. */
  ghost predicate NoneReplayed(log: seq<Logged>, states: seq<State>, ideals: seq<Ideal>, n: nat)
    requires |states| == |ideals| == |log| + 1 && n <= |log|
  {
    forall j :: 0 <= j < n ==> !Replayed(states[j], ideals[j], log[j].op)
  }

  /**
   * As long as no forgotten client repeats itself, the store is the deduplicated log applied in
   * order, whatever the limits; and the next operation is decided right exactly when it is not
   * such a repetition.
   */
  lemma {:induction false} StoreIsDeduplicatedLog(cfg: Config, log: seq<Logged>, states: seq<State>,
                                                  ideals: seq<Ideal>, n: nat)
    requires Runs(cfg, log, states, ideals) && n <= |log| && NoneReplayed(log, states, ideals, n)
    ensures states[n].store == ideals[n].store && Tracks(states[n], ideals[n])
    ensures n < |log| ==> ((Executes(states[n], log[n].op) <==> log[n].op.seqId > Newest(ideals[n], log[n].op.clientId))
                           <==> NoneReplayed(log, states, ideals, n + 1))
  {
    if n > 0 {
      StoreIsDeduplicatedLog(cfg, log, states, ideals, n - 1);
      StoreNext(cfg, log, states, ideals, n - 1);
    }
    if n < |log| { DecidesAlike(states[n], ideals[n], log[n].op); }
  }

  lemma StoreNext(cfg: Config, log: seq<Logged>, states: seq<State>, ideals: seq<Ideal>, n: nat)
    requires Runs(cfg, log, states, ideals) && n < |log| && !Replayed(states[n], ideals[n], log[n].op)
    requires states[n].store == ideals[n].store && Tracks(states[n], ideals[n])
    ensures states[n + 1].store == ideals[n + 1].store && Tracks(states[n + 1], ideals[n + 1])
  {
    assert StepAt(cfg, log, states, ideals, n);
    StepTracks(cfg, states[n], ideals[n], log[n].op, log[n].index);
  }

  // ------------------------------------------- while no tombstone is pushed out

  /** The step at index now keeps every tombstone, and leaves one for every session it evicts. */
  ghost predicate KeepsTombs(cfg: Config, s: State, op: Op, now: nat) {
    var s2 := AfterOp(cfg, s, op, now);
    forall c :: (c in s.tombs.fenced || (c in TableWith(s, op, now).entries && c !in s2.table.entries))
      ==> c in s2.tombs.fenced
  }

  ghost predicate TombsLast(cfg: Config, log: seq<Logged>, states: seq<State>, n: nat)
    requires |states| == |log| + 1 && n <= |log|
  {
    forall j :: 0 <= j < n ==> KeepsTombs(cfg, states[j], log[j].op, log[j].index)
  }

  ghost predicate KnowsExactly(s: State, d: Ideal) {
    forall c :: LastSeq(s, c) == Newest(d, c)
  }

  lemma StepExact(cfg: Config, s: State, d: Ideal, op: Op, now: nat, c: int)
    requires Tracks(s, d) && KnowsExactly(s, d) && KeepsTombs(cfg, s, op, now)
    ensures LastSeq(AfterOp(cfg, s, op, now), c) == Newest(IdealAfter(d, op), c)
  {
    assert LastSeq(s, op.clientId) == Newest(d, op.clientId) && LastSeq(s, c) == Newest(d, c);
    StepRemembers(cfg, s, d, op, now, c);
    StepSound(cfg, s, op, now);
    TableWithIs(s, op, now, c);
    KeepBound(TableWith(s, op, now), now, cfg.limits);
    CutMembers(TableWith(s, op, now), KeepCount(TableWith(s, op, now), now, cfg.limits));
  }

  lemma StepExactAll(cfg: Config, s: State, d: Ideal, op: Op, now: nat)
    requires Tracks(s, d) && KnowsExactly(s, d) && KeepsTombs(cfg, s, op, now)
    ensures KnowsExactly(AfterOp(cfg, s, op, now), IdealAfter(d, op)) && !Replayed(s, d, op)
  {
    assert LastSeq(s, op.clientId) == Newest(d, op.clientId);
    forall c ensures LastSeq(AfterOp(cfg, s, op, now), c) == Newest(IdealAfter(d, op), c) {
      StepExact(cfg, s, d, op, now, c);
    }
  }

  lemma {:induction false} ExactWhileTombsLast(cfg: Config, log: seq<Logged>, states: seq<State>,
                                               ideals: seq<Ideal>, n: nat)
    requires Runs(cfg, log, states, ideals) && n <= |log| && TombsLast(cfg, log, states, n)
    ensures KnowsExactly(states[n], ideals[n]) && NoneReplayed(log, states, ideals, n)
  {
    if n > 0 {
      ExactWhileTombsLast(cfg, log, states, ideals, n - 1);
      StoreIsDeduplicatedLog(cfg, log, states, ideals, n - 1);
      assert StepAt(cfg, log, states, ideals, n - 1);
      StepExactAll(cfg, states[n - 1], ideals[n - 1], log[n - 1].op, log[n - 1].index);
    }
  }

  /** Entry n's number exceeds 0 and every earlier number of its client. */
  ghost predicate NewestOf(log: seq<Logged>, n: nat)
    requires n < |log|
  {
    log[n].op.seqId > 0
    && forall i :: 0 <= i < n && log[i].op.clientId == log[n].op.clientId ==> log[i].op.seqId < log[n].op.seqId
  }

  /**
   * For any log and any limits: as long as no tombstone has been pushed out, the store is the
   * deduplicated log, and the next operation is executed exactly when its number exceeds all
   * earlier ones of its client.
   */
  lemma DecidedWhileTombsLast(cfg: Config, log: seq<Logged>, states: seq<State>, ideals: seq<Ideal>, n: nat)
    requires Runs(cfg, log, states, ideals) && n < |log| && TombsLast(cfg, log, states, n)
    ensures states[n].store == ideals[n].store
    ensures Executes(states[n], log[n].op)
      <==> NewestOf(log, n)
  {
    var c := log[n].op.clientId;
    ExactWhileTombsLast(cfg, log, states, ideals, n);
    StoreIsDeduplicatedLog(cfg, log, states, ideals, n);
    NewestIsLargest(cfg, log, states, ideals, n, c);
    assert LastSeq(states[n], c) == Newest(ideals[n], c);
  }

  // ------------------------------------------------------- room for everybody

  ghost predicate KnownAmong(s: State, clients: set<int>) {
    forall c :: c in s.table.entries || c in s.tombs.fenced ==> c in clients
  }

  /** With room for every client no tombstone is pushed out. */
  lemma {:induction false} NonePushedOut(t: Tombs, es: seq<Eviction>, cap: nat, clients: set<int>)
    requires TombsSound(t) && |clients| <= cap && (forall c :: c in t.fenced ==> c in clients)
    requires forall i :: 0 <= i < |es| ==> es[i].clientId in clients
    ensures forall c :: c in AllBuried(t, es, cap).fenced ==> c in clients
    ensures forall c :: c in t.fenced ==> c in AllBuried(t, es, cap).fenced
    ensures forall i :: 0 <= i < |es| ==> es[i].clientId in AllBuried(t, es, cap).fenced
    decreases |es|
  {
    if es != [] {
      var last := |es| - 1;
      var mid := AllBuried(t, es[..last], cap);
      NonePushedOut(t, es[..last], cap, clients);
      BuriedSound(t, es[..last], cap);
      if es[last].clientId !in mid.fenced { FifoFits(mid, es[last].clientId, clients); }
      forall i | 0 <= i < |es| ensures es[i].clientId in AllBuried(t, es, cap).fenced {
        if i < last { assert es[..last][i] == es[i]; }
      }
    }
  }

  lemma FifoFits(t: Tombs, c: int, clients: set<int>)
    requires TombsSound(t) && c !in t.fenced && c in clients && forall x :: x in t.fenced ==> x in clients
    ensures |t.fifo| + 1 <= |clients|
  {
    var keys := t.fenced.Keys;
    forall x ensures x in t.fifo <==> x in keys {}
    DistinctCount(t.fifo, keys);
    forall x | x in keys + {c} ensures x in clients {}
    OrderStatistics.SubsetSize(keys + {c}, clients);
  }

  ghost predicate Evicts(es: seq<Eviction>, c: int) {
    exists i :: 0 <= i < |es| && es[i].clientId == c
  }

  lemma EvictedAmong(t: Table, k: nat, clients: set<int>)
    requires Sound(t) && k <= |t.lru| && forall c :: c in t.entries ==> c in clients
    ensures forall i :: 0 <= i < |Evicted(t, k)| ==> Evicted(t, k)[i].clientId in clients
    ensures forall c :: c in t.entries && c !in CutTo(t, k).entries ==> Evicts(Evicted(t, k), c)
  {
    EvictedAre(t, k);
    CutMembers(t, k);
    assert t.lru == t.lru[..k] + t.lru[k..];
    forall i | 0 <= i < |Evicted(t, k)| ensures Evicted(t, k)[i].clientId in clients {
      assert Evicted(t, k)[i].clientId in t.lru;
    }
  }

  lemma TableAmong(s: State, op: Op, now: nat, clients: set<int>)
    requires Sound(s.table) && KnownAmong(s, clients) && op.clientId in clients
    ensures Sound(TableWith(s, op, now)) && forall c :: c in TableWith(s, op, now).entries ==> c in clients
  {
    TableWithIs(s, op, now, 0);
    forall x | x in TableWith(s, op, now).entries ensures x in clients { TableWithIs(s, op, now, x); }
  }

  lemma StepHasRoom(cfg: Config, s: State, op: Op, now: nat, clients: set<int>)
    requires Sound(s.table) && TombsSound(s.tombs) && KnownAmong(s, clients)
    requires op.clientId in clients && |clients| <= cfg.fenceCap
    ensures KeepsTombs(cfg, s, op, now) && KnownAmong(AfterOp(cfg, s, op, now), clients)
  {
    var t := TableWith(s, op, now);
    var k := KeepCount(t, now, cfg.limits);
    KeepBound(t, now, cfg.limits);
    TableAmong(s, op, now, clients);
    EvictedAmong(t, k, clients);
    NonePushedOut(s.tombs, Evicted(t, k), cfg.fenceCap, clients);
  }

  /** With a tombstone cap no smaller than the number of clients, no tombstone is ever pushed out. */
  lemma {:induction false} RoomForAll(cfg: Config, log: seq<Logged>, states: seq<State>, ideals: seq<Ideal>,
                                      clients: set<int>, n: nat)
    requires Runs(cfg, log, states, ideals) && n <= |log| && |clients| <= cfg.fenceCap
    requires forall i :: 0 <= i < |log| ==> log[i].op.clientId in clients
    ensures TombsLast(cfg, log, states, n) && KnownAmong(states[n], clients)
  {
    if n == 0 {
      assert states[0] == EmptyState;
    } else {
      RoomForAll(cfg, log, states, ideals, clients, n - 1);
      RoomNext(cfg, log, states, ideals, clients, n - 1);
    }
  }

  lemma RoomNext(cfg: Config, log: seq<Logged>, states: seq<State>, ideals: seq<Ideal>, clients: set<int>, n: nat)
    requires Runs(cfg, log, states, ideals) && n < |log| && |clients| <= cfg.fenceCap && log[n].op.clientId in clients
    requires TombsLast(cfg, log, states, n) && KnownAmong(states[n], clients)
    ensures TombsLast(cfg, log, states, n + 1) && KnownAmong(states[n + 1], clients)
  {
    SoundWhileTombsLast(cfg, log, states, ideals, n);
    assert StepAt(cfg, log, states, ideals, n);
    StepHasRoom(cfg, states[n], log[n].op, log[n].index, clients);
  }

  lemma SoundWhileTombsLast(cfg: Config, log: seq<Logged>, states: seq<State>, ideals: seq<Ideal>, n: nat)
    requires Runs(cfg, log, states, ideals) && n <= |log| && TombsLast(cfg, log, states, n)
    ensures Sound(states[n].table) && TombsSound(states[n].tombs)
  {
    ExactWhileTombsLast(cfg, log, states, ideals, n);
    StoreIsDeduplicatedLog(cfg, log, states, ideals, n);
  }

  lemma RunGrows(cfg: Config, log: seq<Logged>, states: seq<State>, ideals: seq<Ideal>, e: Logged, s: State, d: Ideal)
    requires Runs(cfg, log, states, ideals)
    requires s == AfterOp(cfg, states[|log|], e.op, e.index) && d == IdealAfter(ideals[|log|], e.op)
    ensures Runs(cfg, log + [e], states + [s], ideals + [d])
  {
    forall j: nat | j < |log| + 1 ensures StepAt(cfg, log + [e], states + [s], ideals + [d], j) {
      if j < |log| { assert StepAt(cfg, log, states, ideals, j); }
    }
  }

  lemma RunExtends(cfg: Config, log: seq<Logged>, states: seq<State>, ideals: seq<Ideal>, e: Logged)
    returns (states2: seq<State>, ideals2: seq<Ideal>)
    requires Runs(cfg, log, states, ideals)
    ensures Runs(cfg, log + [e], states2, ideals2)
  {
    var s, d := AfterOp(cfg, states[|log|], e.op, e.index), IdealAfter(ideals[|log|], e.op);
    RunGrows(cfg, log, states, ideals, e, s, d);
    states2, ideals2 := states + [s], ideals + [d];
  }

  /** Every log has its run. */
  lemma {:induction false} RunExists(cfg: Config, log: seq<Logged>) returns (states: seq<State>, ideals: seq<Ideal>)
    ensures Runs(cfg, log, states, ideals)
    decreases |log|
  {
    if log == [] {
      states, ideals := [EmptyState], [EmptyIdeal];
    } else {
      var init, e := log[..|log| - 1], log[|log| - 1];
      states, ideals := RunExists(cfg, init);
      states, ideals := RunExtends(cfg, init, states, ideals, e);
      assert init + [e] == log;
    }
  }

  // ----------------------------------------------------- the reap, over runs

  /** The log's indices never go down. */
  ghost predicate Rising(log: seq<Logged>) {
    forall i, j :: 0 <= i <= j < |log| ==> log[i].index <= log[j].index
  }

  lemma WithOrders(s: State, op: Op, now: nat)
    requires Sound(s.table) && Ordered(s.table, now)
    ensures Sound(TableWith(s, op, now)) && Ordered(TableWith(s, op, now), now)
  {
    GetKeeps(s.table, op.clientId, now);
    PutKeeps(AfterGet(s.table, op.clientId, now), op.clientId, op.seqId, now);
  }

  /** A step keeps the sessions in the order of their last use. */
  lemma StepOrders(cfg: Config, s: State, op: Op, now: nat)
    requires Sound(s.table) && Ordered(s.table, now)
    ensures Sound(AfterOp(cfg, s, op, now).table) && Ordered(AfterOp(cfg, s, op, now).table, now)
  {
    var t := TableWith(s, op, now);
    var k := KeepCount(t, now, cfg.limits);
    WithOrders(s, op, now);
    KeepBound(t, now, cfg.limits);
    CutMembers(t, k);
    CutOrders(t, k, now);
  }

  /** In every run the sessions stand in the order of their last use. */
  lemma {:induction false} RunOrdered(cfg: Config, log: seq<Logged>, states: seq<State>, ideals: seq<Ideal>, n: nat)
    requires Runs(cfg, log, states, ideals) && Rising(log) && n <= |log|
    ensures Sound(states[n].table) && (n > 0 ==> Ordered(states[n].table, log[n - 1].index))
    ensures n < |log| ==> Ordered(states[n].table, log[n].index)
  {
    if n > 0 {
      RunOrdered(cfg, log, states, ideals, n - 1);
      assert StepAt(cfg, log, states, ideals, n - 1);
      StepOrders(cfg, states[n - 1], log[n - 1].op, log[n - 1].index);
      if n < |log| { OrderedLater(states[n].table, log[n - 1].index, log[n].index); }
    }
  }

  lemma LeftAre(t: Table, k: nat, p: nat)
    requires Sound(t) && k <= |t.lru| && p < |t.lru|
    ensures t.lru[p] in CutTo(t, k).entries <==> p < k
  {
    CutMembers(t, k);
  }

  /**
   * In every run the reap is exact: of the sessions there after an operation, those survive
   * that were not idle too long and have fewer than cap sessions used after them.
   */
  lemma ReapIsExact(cfg: Config, log: seq<Logged>, states: seq<State>, ideals: seq<Ideal>, n: nat, p: nat)
    requires Runs(cfg, log, states, ideals) && Rising(log) && n < |log|
    requires p < |TableWith(states[n], log[n].op, log[n].index).lru|
    ensures var t := TableWith(states[n], log[n].op, log[n].index);
      t.lru[p] in states[n + 1].table.entries
      <==> log[n].index <= UsedAt(t, t.lru[p]) + cfg.limits.maxIdle && p < cfg.limits.cap
  {
    var now := log[n].index;
    var t := TableWith(states[n], log[n].op, now);
    RunOrdered(cfg, log, states, ideals, n);
    WithOrders(states[n], log[n].op, now);
    assert StepAt(cfg, log, states, ideals, n);
    KeepBound(t, now, cfg.limits);
    LeftAre(t, KeepCount(t, now, cfg.limits), p);
    KeptExactly(t, now, cfg.limits, p);
  }

  // --------------------------------------------------------- when a session was used

  /** Operation j is the last one of client c among the first n. */
  ghost predicate LastBy(log: seq<Logged>, n: nat, c: int, j: nat) {
    j < n <= |log| && log[j].op.clientId == c && forall i :: j < i < n ==> log[i].op.clientId != c
  }

  /** An operation dates its own client's session and no other. */
  lemma StepDates(cfg: Config, s: State, op: Op, now: nat, c: int)
    requires Sound(s.table) && c in AfterOp(cfg, s, op, now).table.entries
    ensures UsedAt(AfterOp(cfg, s, op, now).table, c) == if c == op.clientId then now else UsedAt(s.table, c)
    ensures c != op.clientId ==> c in s.table.entries
  {
    var t := TableWith(s, op, now);
    KeepBound(t, now, cfg.limits);
    TableWithIs(s, op, now, c);
    assert t.entries[c] == AfterOp(cfg, s, op, now).table.entries[c];
  }

  lemma DatesNext(cfg: Config, log: seq<Logged>, states: seq<State>, ideals: seq<Ideal>, i: nat, c: int)
    requires Runs(cfg, log, states, ideals) && Rising(log) && i < |log| && c in states[i + 1].table.entries
    ensures UsedAt(states[i + 1].table, c)
      == if c == log[i].op.clientId then log[i].index else UsedAt(states[i].table, c)
    ensures c != log[i].op.clientId ==> c in states[i].table.entries
  {
    RunOrdered(cfg, log, states, ideals, i);
    assert StepAt(cfg, log, states, ideals, i);
    StepDates(cfg, states[i], log[i].op, log[i].index, c);
  }

  /** In every run a session's time is the index of its client's last operation, executed or not. */
  lemma {:induction false} UsedAtLastOperation(cfg: Config, log: seq<Logged>, states: seq<State>, ideals: seq<Ideal>,
                                               n: nat, c: int)
    returns (j: nat)
    requires Runs(cfg, log, states, ideals) && Rising(log) && n <= |log| && c in states[n].table.entries
    ensures LastBy(log, n, c, j) && UsedAt(states[n].table, c) == log[j].index
    decreases n
  {
    assert n > 0;
    var i := n - 1;
    DatesNext(cfg, log, states, ideals, i, c);
    if c == log[i].op.clientId { j := i; } else { j := UsedAtLastOperation(cfg, log, states, ideals, i, c); }
  }
}
