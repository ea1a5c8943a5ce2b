/**
 * The same with sessions evicted for idling: entries of the log that are no operations let any
 * time pass between two operations, and then one client more than there are tombstones is enough
 * to forget one.
 */
module Idling {
  import opened Codec
  import opened Messages
  import opened Sequences
  import opened OrderStatistics
  import opened Sessions
  import opened KvServer
  import opened ExactlyOnce
  import opened Forgetting

  /** Turn v comes so late that every session before it is overdue. */
  function TurnTime(cfg: Config, v: nat): nat {
    1 + v * (cfg.limits.maxIdle + 1)
  }

  lemma TurnTimes(cfg: Config, v: nat, w: nat)
    requires v <= w
    ensures TurnTime(cfg, v) <= TurnTime(cfg, w)
    ensures TurnTime(cfg, v + 1) == TurnTime(cfg, v) + cfg.limits.maxIdle + 1
  {
    assert v * (cfg.limits.maxIdle + 1) <= w * (cfg.limits.maxIdle + 1);
  }

  /** After turns 0 to v - 1: only the last client has a session, the others were buried in turn. */
  ghost predicate Alone(cfg: Config, n: nat, s: State, v: nat) {
    v > 0 && Stacked(s.table, n, v, v - 1) && Lined(s.tombs, v - 1, cfg.fenceCap)
    && UsedAt(s.table, s.table.lru[0]) == TurnTime(cfg, v - 1)
  }

  /** Of two sessions the one behind is overdue. */
  lemma OnlyFront(cfg: Config, t: Table, now: nat)
    requires |t.lru| == 2 && UsedAt(t, t.lru[0]) == now && cfg.limits.cap > 0
    requires now > UsedAt(t, t.lru[1]) + cfg.limits.maxIdle
    ensures KeepCount(t, now, cfg.limits) == 1
  {
    assert AwakeCount(t, 1, now, cfg.limits.maxIdle) == 1;
  }

  lemma FreshSession(s: State, op: Op, now: nat, t: Table)
    requires Sound(s.table) && op.clientId !in s.table.entries && Executes(s, op) && t == TableWith(s, op, now)
    ensures t == Table(s.table.entries[op.clientId := Session(op.seqId, now)], [op.clientId] + s.table.lru)
  {
  }

  /** The first turn, of a client that then has the only session. */
  lemma FirstAlone(cfg: Config, n: nat, s: State, op: Op, s2: State)
    requires s == EmptyState && op.clientId == 0 && Executes(s, op) && cfg.limits.cap > 0 && n > 0
    requires s2 == AfterOp(cfg, s, op, 1)
    ensures Alone(cfg, n, s2, 1)
  {
    var t := TableWith(s, op, 1);
    FreshSession(s, op, 1, t);
    NobodyGoes(cfg, s, op, 1, t, s2);
  }

  lemma NextAlone(cfg: Config, n: nat, s: State, v: nat, op: Op, t: Table)
    requires Alone(cfg, n, s, v) && v < n && op.clientId == v && Executes(s, op) && cfg.limits.cap > 0
    requires t == TableWith(s, op, TurnTime(cfg, v))
    ensures Stacked(t, n, v + 1, v - 1) && KeepCount(t, TurnTime(cfg, v), cfg.limits) == 1
    ensures UsedAt(t, t.lru[0]) == TurnTime(cfg, v)
  {
    NotSeated(s.table, n, v, v - 1);
    NewSession(s, op, TurnTime(cfg, v), n, v, v - 1);
    FreshSession(s, op, TurnTime(cfg, v), t);
    TurnTimes(cfg, v - 1, v);
    OnlyFront(cfg, t, TurnTime(cfg, v));
  }

  /** Every later turn evicts the session of the one before. */
  lemma TurnAlone(cfg: Config, n: nat, s: State, v: nat, op: Op, s2: State)
    requires Alone(cfg, n, s, v) && v < n && op.clientId == v && Executes(s, op) && cfg.limits.cap > 0
    requires s2 == AfterOp(cfg, s, op, TurnTime(cfg, v))
    ensures Alone(cfg, n, s2, v + 1)
  {
    var t := TableWith(s, op, TurnTime(cfg, v));
    NextAlone(cfg, n, s, v, op, t);
    KeepBound(t, TurnTime(cfg, v), cfg.limits);
    CutStacked(t, n, v + 1, v - 1, 1);
    AllInTurn(t, s.tombs, cfg.fenceCap, n, v + 1, v - 1, 1);
  }

  // -------------------------------------------------------------- the log

  /** The turns of n clients, and client 0's operation once or twice more. */
  function Stragglers(cfg: Config, n: nat, more: nat): (log: seq<Logged>)
    requires 0 < n <= TWO_31
    ensures |log| == n + more
    ensures forall v: nat :: v < n ==> log[v] == Logged(TurnTime(cfg, v), TurnOp(n, v))
    ensures forall v: nat :: n <= v < n + more ==> log[v] == Logged(TurnTime(cfg, n), First)
  {
    seq(n, v requires 0 <= v < n => Logged(TurnTime(cfg, v), TurnOp(n, v)))
    + seq(more, i => Logged(TurnTime(cfg, n), First))
  }

  lemma StragglersAre(cfg: Config, n: nat, more: nat)
    requires 0 < n <= TWO_31
    ensures Rising(Stragglers(cfg, n, more)) && By(Stragglers(cfg, n, more), Below(n))
    ensures forall i :: 0 <= i < n + more ==> Stragglers(cfg, n, more)[i].index <= TurnTime(cfg, n)
  {
    BelowIsRange(n);
    var log := Stragglers(cfg, n, more);
    forall i, j | 0 <= i <= j < |log| ensures log[i].index <= log[j].index <= TurnTime(cfg, n) {
      TurnTimes(cfg, Least(i, n), Least(j, n));
      TurnTimes(cfg, Least(j, n), n);
      assert log[i].index == TurnTime(cfg, Least(i, n)) && log[j].index == TurnTime(cfg, Least(j, n));
    }
    forall i | 0 <= i < |log| ensures log[i].op.clientId in Below(n) {
      if i < n { assert log[i] == Logged(TurnTime(cfg, i), TurnOp(n, i)); }
    }
  }

  function Least(a: nat, b: nat): nat {
    if a < b then a else b
  }

  ghost predicate LateOK(cfg: Config, n: nat, s: State, d: Ideal, v: nat) {
    Alone(cfg, n, s, v) && Positive(s) && NumbersUpTo(s, v) && Appended(s, d)
  }

  lemma LateTurn(cfg: Config, n: nat, s: State, d: Ideal, v: nat, op: Op, s2: State, d2: Ideal)
    requires LateOK(cfg, n, s, d, v) && v < n <= TWO_31 && op == TurnOp(n, v) && cfg.limits.cap > 0
    requires s2 == AfterOp(cfg, s, op, TurnTime(cfg, v)) && d2 == IdealAfter(d, op)
    ensures LateOK(cfg, n, s2, d2, v + 1)
  {
    NumbersGrow(cfg, s, op, TurnTime(cfg, v), v);
    TurnAlone(cfg, n, s, v, op, s2);
    OtherLeaves(cfg, s, d, n, v, TurnTime(cfg, v));
  }

  lemma LateStart(cfg: Config, n: nat, s: State, d: Ideal, s2: State, d2: Ideal)
    requires s == EmptyState && d == EmptyIdeal && cfg.limits.cap > 0 && n > 0
    requires s2 == AfterOp(cfg, s, First, 1) && d2 == IdealAfter(d, First)
    ensures LateOK(cfg, n, s2, d2, 1)
  {
    NumbersGrow(cfg, s, First, 1, 0);
    FirstAlone(cfg, n, s, First, s2);
    FirstAppends(cfg, s, d, 1);
  }

  lemma {:induction false} StragglersPass(cfg: Config, n: nat, more: nat, states: seq<State>, ideals: seq<Ideal>,
                                          v: nat)
    requires 0 < v <= n <= TWO_31 && cfg.limits.cap > 0 && Runs(cfg, Stragglers(cfg, n, more), states, ideals)
    ensures LateOK(cfg, n, states[v], ideals[v], v)
  {
    var u: nat := v - 1;
    var log := Stragglers(cfg, n, more);
    assert StepAt(cfg, log, states, ideals, u) && log[u] == Logged(TurnTime(cfg, u), TurnOp(n, u));
    if u == 0 {
      LateStart(cfg, n, states[0], ideals[0], states[1], ideals[1]);
    } else {
      StragglersPass(cfg, n, more, states, ideals, u);
      LateTurn(cfg, n, states[u], ideals[u], u, TurnOp(n, u), states[v], ideals[v]);
    }
  }

  // ------------------------------------------------------ the push, and after

  /** A client's old operation, while it has no session, only evicts the one that is there. */
  lemma RepeatEvicts(cfg: Config, n: nat, s: State, op: Op, now: nat, s2: State)
    requires Alone(cfg, n, s, n) && op.clientId == 0 && !Executes(s, op) && n > 1
    requires now == TurnTime(cfg, n) && s2 == AfterOp(cfg, s, op, now)
    ensures s2.store == s.store && s2.table.lru == [] && Sound(s2.table) && Lined(s2.tombs, n, cfg.fenceCap)
  {
    TurnTimes(cfg, n - 1, n);
    assert s.table.lru[0] == n - 1;
    var t := TableWith(s, op, now);
    assert t == s.table && AwakeCount(t, 0, now, cfg.limits.maxIdle) == 0;
    KeepBound(t, now, cfg.limits);
    CutMembers(t, 0);
    AllInTurn(t, s.tombs, cfg.fenceCap, n, n, n - 1, 0);
  }

  lemma OldIsKnown(cfg: Config, n: nat, s: State, d: Ideal)
    requires LateOK(cfg, n, s, d, n) && n == cfg.fenceCap + 1 && cfg.fenceCap > 0
    ensures !Executes(s, First)
  {
    assert s.tombs.fifo[0] == 0 && 0 in s.tombs.fenced && 0 !in s.table.lru;
  }

  lemma KnownStays(d: Ideal)
    requires Newest(d, 0) == 1
    ensures IdealAfter(d, First) == d
  {
  }

  /** With room for a tombstone: client 0's first repetition pushes its own tombstone out. */
  lemma PushedBySelf(cfg: Config, n: nat, log: seq<Logged>, states: seq<State>, ideals: seq<Ideal>)
    requires n == cfg.fenceCap + 1 <= TWO_31 && cfg.fenceCap > 0 && cfg.limits.cap > 0
    requires log == Stragglers(cfg, n, 2) && Runs(cfg, log, states, ideals)
    ensures AppendsTwice(cfg, log, states, ideals)
  {
    StragglersPass(cfg, n, 2, states, ideals, n);
    StragglersAre(cfg, n, 2);
    assert StepAt(cfg, log, states, ideals, n) && log[n] == Logged(TurnTime(cfg, n), First);
    OldIsKnown(cfg, n, states[n], ideals[n]);
    RepeatEvicts(cfg, n, states[n], First, TurnTime(cfg, n), states[n + 1]);
    KnownStays(ideals[n]);
    NothingLeft(cfg, states[n + 1], n);
    assert log[0] == Logged(TurnTime(cfg, 0), TurnOp(n, 0));
    OnceMore(cfg, log, states, ideals, n + 1);
  }

  lemma NothingLeft(cfg: Config, s: State, b: nat)
    requires 0 !in s.table.lru && Sound(s.table) && Lined(s.tombs, b, cfg.fenceCap) && b > cfg.fenceCap
    ensures LastSeq(s, 0) == 0
  {
    assert 0 !in s.tombs.fifo;
  }

  /** Without tombstones: the second client's operation is enough. */
  lemma PushedByOther(cfg: Config, log: seq<Logged>, states: seq<State>, ideals: seq<Ideal>)
    requires cfg.fenceCap == 0 && cfg.limits.cap > 0 && log == Stragglers(cfg, 2, 1) && Runs(cfg, log, states, ideals)
    ensures AppendsTwice(cfg, log, states, ideals)
  {
    StragglersPass(cfg, 2, 1, states, ideals, 2);
    StragglersAre(cfg, 2, 1);
    assert states[2].table.lru == [1];
    NothingLeft(cfg, states[2], 1);
    assert log[0] == Logged(TurnTime(cfg, 0), TurnOp(2, 0)) && log[2] == Logged(TurnTime(cfg, 2), First);
    OnceMore(cfg, log, states, ideals, 2);
  }

  // ----------------------------------------------------- the late threshold

  function LateThreshold(cfg: Config): nat {
    if cfg.fenceCap > 0 || cfg.limits.cap == 0 then cfg.fenceCap + 1 else 2
  }

  ghost predicate ForgetsLate(cfg: Config, n: nat, clients: set<int>, log: seq<Logged>, states: seq<State>,
                              ideals: seq<Ideal>)
  {
    Forgets(cfg, n, clients, log, states, ideals) && Dated(log)
  }

  lemma LateAppendsTwice(cfg: Config, n: nat) returns (log: seq<Logged>, states: seq<State>, ideals: seq<Ideal>)
    requires n == LateThreshold(cfg) <= TWO_31 && TurnTime(cfg, n) < TWO_63
    ensures AppendsTwice(cfg, log, states, ideals) && By(log, Below(n)) && Dated(log)
  {
    if cfg.limits.cap == 0 {
      log, states, ideals := CrowdAppendsTwice(cfg, n, cfg.fenceCap);
    } else {
      var more := if cfg.fenceCap > 0 then 2 else 1;
      log := Stragglers(cfg, n, more);
      StragglersAre(cfg, n, more);
      states, ideals := RunExists(cfg, log);
      if cfg.fenceCap > 0 {
        PushedBySelf(cfg, n, log, states, ideals);
      } else {
        PushedByOther(cfg, log, states, ideals);
      }
    }
  }

  /** The one client there is keeps its session: its own operation is always the newest use. */
  ghost predicate OnlyClient(s: State, d: Ideal, c: int) {
    Tracks(s, d) && KnowsExactly(s, d) && (forall x :: x in s.table.entries ==> x == c)
    && (forall x :: Newest(d, x) != 0 ==> x in s.table.entries)
  }

  lemma StaysSeated(cfg: Config, s: State, d: Ideal, op: Op, now: nat, t: Table)
    requires OnlyClient(s, d, op.clientId) && cfg.limits.cap > 0 && t == TableWith(s, op, now)
    ensures KeepCount(t, now, cfg.limits) == |t.lru|
  {
    TableGrows(s, op, now, t);
    forall i | 0 <= i < |t.lru| ensures t.lru[i] == op.clientId { assert t.lru[i] in t.lru; }
    if |t.lru| > 0 {
      assert t.lru[0] in t.lru;
      DistinctCount(t.lru, {op.clientId});
      UsedNow(s, op, now, t);
    }
  }

  lemma UsedNow(s: State, op: Op, now: nat, t: Table)
    requires Sound(s.table) && t == TableWith(s, op, now) && op.clientId in t.entries
    ensures UsedAt(t, op.clientId) == now
  {
  }

  lemma StepOnly(cfg: Config, s: State, d: Ideal, op: Op, now: nat, s2: State, d2: Ideal)
    requires OnlyClient(s, d, op.clientId) && cfg.limits.cap > 0
    requires s2 == AfterOp(cfg, s, op, now) && d2 == IdealAfter(d, op)
    ensures OnlyClient(s2, d2, op.clientId) && !Replayed(s, d, op)
  {
    var t := TableWith(s, op, now);
    assert LastSeq(s, op.clientId) == Newest(d, op.clientId);
    StaysSeated(cfg, s, d, op, now, t);
    NobodyGoes(cfg, s, op, now, t, s2);
    TableGrows(s, op, now, t);
    StepTracks(cfg, s, d, op, now);
    forall c ensures LastSeq(s2, c) == Newest(d2, c) && (Newest(d2, c) != 0 ==> c in s2.table.entries) {
      StepRemembers(cfg, s, d, op, now, c);
      assert LastSeq(s, c) == Newest(d, c);
      if Newest(d2, c) != 0 { Remembers(s2, d2, c); }
    }
  }

  lemma {:induction false} OnlyRemembers(cfg: Config, log: seq<Logged>, states: seq<State>, ideals: seq<Ideal>,
                                         c: int, n: nat)
    requires Runs(cfg, log, states, ideals) && By(log, {c}) && n <= |log| && cfg.limits.cap > 0
    ensures OnlyClient(states[n], ideals[n], c) && NoneReplayed(log, states, ideals, n)
  {
    if n == 0 {
      assert states[0] == EmptyState && ideals[0] == EmptyIdeal;
    } else {
      OnlyRemembers(cfg, log, states, ideals, c, n - 1);
      NextOnly(cfg, log, states, ideals, c, n - 1);
    }
  }

  lemma NextOnly(cfg: Config, log: seq<Logged>, states: seq<State>, ideals: seq<Ideal>, c: int, n: nat)
    requires Runs(cfg, log, states, ideals) && By(log, {c}) && n < |log| && cfg.limits.cap > 0
    requires OnlyClient(states[n], ideals[n], c)
    ensures OnlyClient(states[n + 1], ideals[n + 1], c) && !Replayed(states[n], ideals[n], log[n].op)
  {
    assert StepAt(cfg, log, states, ideals, n) && log[n].op.clientId in {c};
    StepOnly(cfg, states[n], ideals[n], log[n].op, log[n].index, states[n + 1], ideals[n + 1]);
  }

  lemma FewAreSafeLate(cfg: Config, n: nat, clients: set<int>, log: seq<Logged>, states: seq<State>,
                       ideals: seq<Ideal>)
    requires n < LateThreshold(cfg)
    ensures !Forgets(cfg, n, clients, log, states, ideals)
  {
    if Forgets(cfg, n, clients, log, states, ideals) {
      if |clients| <= cfg.fenceCap {
        RoomForAll(cfg, log, states, ideals, clients, |log|);
        ExactWhileTombsLast(cfg, log, states, ideals, |log|);
      } else {
        var c :| c in clients;
        var others := clients - {c};
        assert |others| == 0;
        assert clients == {c} + others;
        OnlyRemembers(cfg, log, states, ideals, c, |log|);
      }
    }
  }

  /**
   * However the log is dated: runs over n clients execute an operation a second time exactly when
   * n is more than the number of tombstones, except that without tombstones a single client that
   * has room for its session is never forgotten.
   */
  lemma ForgetsFromLateThreshold(cfg: Config, n: nat)
    requires LateThreshold(cfg) <= TWO_31 && TurnTime(cfg, LateThreshold(cfg)) < TWO_63
    ensures (exists clients, log, states, ideals :: ForgetsLate(cfg, n, clients, log, states, ideals))
      <==> n >= LateThreshold(cfg)
  {
    if n >= LateThreshold(cfg) {
      var log, states, ideals := LateAppendsTwice(cfg, LateThreshold(cfg));
      TwiceIsForgetting(cfg, LateThreshold(cfg), log, states, ideals);
      assert ForgetsLate(cfg, n, Below(LateThreshold(cfg)), log, states, ideals);
    } else {
      forall clients, log, states, ideals ensures !ForgetsLate(cfg, n, clients, log, states, ideals) {
        FewAreSafeLate(cfg, n, clients, log, states, ideals);
      }
    }
  }

  lemma LateFits(cfg: Config, n: nat)
    requires n == LateThreshold(cfg) && cfg.limits.cap + cfg.fenceCap < TWO_31
    requires cfg.limits.maxIdle < cfg.limits.cap + cfg.fenceCap + 2
    ensures n <= TWO_31 && TurnTime(cfg, n) < TWO_63
  {
    var g := cfg.limits.maxIdle + 1;
    assert n <= TWO_31 && g <= TWO_31 + 1;
    assert n * g <= TWO_31 * g <= TWO_31 * (TWO_31 + 1);
  }

  /**
   * So the bounded tables forget, whatever the limits: there is always a log over which the first
   * client's append is executed a second time.
   */
  lemma ForgettingAppendsTwice(cfg: Config) returns (log: seq<Logged>, states: seq<State>, ideals: seq<Ideal>)
    requires cfg.limits.cap + cfg.fenceCap < TWO_31
    ensures AppendsTwice(cfg, log, states, ideals) && Dated(log)
  {
    if Unhurried(cfg, cfg.limits.cap + cfg.fenceCap + 2) {
      log, states, ideals := CrowdAppendsTwice(cfg, Threshold(cfg), cfg.limits.cap + cfg.fenceCap);
    } else {
      LateFits(cfg, LateThreshold(cfg));
      log, states, ideals := LateAppendsTwice(cfg, LateThreshold(cfg));
    }
  }
}
