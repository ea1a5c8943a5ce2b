/** Appending as leader, accepting as follower, committing: each keeps the invariant. */
module RaftReplication {
  import opened OrderStatistics
  import opened RaftTypes
  import opened RaftRules
  import opened RaftSystem
  import opened RaftInvariant
  import opened RaftGrowth
  import opened RaftFrame
  import opened RaftElections
  import opened RaftLeaders

  // ------------------------------------------------------- the leader's log

  ghost function Appended(h: History, i: nat, t: nat, log: Log): History
    requires t in h.reigns
  {
    h.(reigns := h.reigns[t := h.reigns[t].(log := log)], acked := h.acked[(i, t) := |log|])
  }

  lemma AppendedExtends(h: History, i: nat, t: nat, log: Log)
    requires t in h.reigns && h.reigns[t].leader == i && h.reigns[t].log <= log && Acked(h, i, t) <= |log|
    ensures Extends(h, Appended(h, i, t, log)) && OnlyBy(h, Appended(h, i, t, log), i)
  {
    assert ExtendsOver(h, Appended(h, i, t, log), h.votes);
  }

  lemma AppendedReign(h: History, i: nat, t: nat, e: LogEntry, peers: nat)
    requires t in h.reigns && ReignOK(h, peers, t) && e.term == t && e.index == |h.reigns[t].log| + 1
    requires forall c: nat :: Vote(h.reigns[t].leader, t, c) in h.votes ==> c == h.reigns[t].leader
    requires Extends(h, Appended(h, i, t, h.reigns[t].log + [e]))
    ensures ReignOK(Appended(h, i, t, h.reigns[t].log + [e]), peers, t)
  {
    var before, log := h.reigns[t].log, h.reigns[t].log + [e];
    var k := Appended(h, i, t, log);
    GroundedGrows(h, k, before);
    LastFromLeader(k, before, log, t);
  }

  lemma AppendedHistory(h: History, i: nat, t: nat, log: Log, peers: nat)
    requires HistoryOK(h, peers) && i < peers && t in h.reigns && h.reigns[t].log <= log
    requires Extends(h, Appended(h, i, t, log)) && ReignOK(Appended(h, i, t, log), peers, t)
    ensures HistoryOK(Appended(h, i, t, log), peers)
  {
    var k := Appended(h, i, t, log);
    forall u | u in k.reigns ensures ReignOK(k, peers, u) {
      if u != t {
        assert ReignOK(h, peers, u);
        ReignGrows(h, k, peers, u);
      }
    }
    CandsGrow(h, k);
    CommitsGrow(h, k, peers);
    forall v, u | (v, u) in k.acked ensures AckOK(k, peers, v, u) {
      assert (v, u) in h.acked ==> AckOK(h, peers, v, u);
    }
    assert HistoryFits(k, peers);
  }

  lemma AppendedLeadersKeep(h: History, i: nat, t: nat, log: Log, terms: seq<nat>)
    requires AcksOK(h, |terms|) && ReignsOK(h, |terms|) && VotesDated(h, terms) && LeadersKeep(h, terms)
    requires t in h.reigns && h.reigns[t].log <= log && i < |terms| && terms[i] == t
    requires Advances(h, Appended(h, i, t, log), i, terms, terms)
    ensures LeadersKeep(Appended(h, i, t, log), terms)
  {
    var k := Appended(h, i, t, log);
    forall u: nat, n: nat, t2: nat |
      OwnEntry(k, u, n) && u < t2 && t2 in k.reigns && Choosable(k, terms, u, n)
      ensures Has(k.reigns[t2].log, k.reigns[u].log, n)
    {
      if u == t && n > |h.reigns[t].log| {
        assert ReignOK(h, |terms|, t2);
        PassedBy(h, k, terms, t, n, t2, i);
      } else {
        assert k.reigns[u].log[..n] == h.reigns[u].log[..n];
        assert OwnEntry(h, u, n);
        SupportersShrink(h, k, i, terms, terms, u, n);
        HasPrefix(h.reigns[u].log, h.reigns[t2].log, k.reigns[t2].log, n);
      }
    }
  }

  lemma AppendedLogKeeps(h: History, i: nat, t: nat, log: Log, terms: seq<nat>)
    requires AcksOK(h, |terms|) && t in h.reigns && h.reigns[t].log <= log
    requires Advances(h, Appended(h, i, t, log), i, terms, terms) && LogKeeps(h, terms, i, h.reigns[t].log)
    ensures LogKeeps(Appended(h, i, t, log), terms, i, log)
  {
    var k := Appended(h, i, t, log);
    forall u: nat, n: nat | OwnEntry(k, u, n) && Acked(k, i, u) >= n && Choosable(k, terms, u, n)
      ensures Has(log, k.reigns[u].log, n)
    {
      if u != t {
        assert OwnEntry(h, u, n);
        SupportersShrink(h, k, i, terms, terms, u, n);
        assert log[..n] == h.reigns[t].log[..n];
      }
    }
  }

  lemma AppendedNode(h: History, i: nat, nd: Node, e: LogEntry, peers: nat)
    requires NodeOK(h, i, nd, peers) && nd.role == Leader && e.term == nd.term && e.index == |nd.log| + 1
    requires Extends(h, Appended(h, i, nd.term, nd.log + [e]))
    requires ReignOK(Appended(h, i, nd.term, nd.log + [e]), peers, nd.term)
    ensures NodeOK(Appended(h, i, nd.term, nd.log + [e]), i, nd.(log := nd.log + [e]), peers)
  {
    var nd2 := nd.(log := nd.log + [e]);
    var k := Appended(h, i, nd.term, nd2.log);
    CrownedLog(h, k, nd, nd2, peers);
    AppendedLeader(h, i, nd, nd2.log);
    assert NodeFits(k, i, nd2, peers);
  }

  lemma AppendedLeader(h: History, i: nat, nd: Node, log: Log)
    requires LeaderOK(h, i, nd) && nd.log <= log && Extends(h, Appended(h, i, nd.term, log))
    ensures LeaderOK(Appended(h, i, nd.term, log), i, nd.(log := log))
  {
    var k := Appended(h, i, nd.term, log);
    forall j: nat | j < |nd.matched| ensures nd.matched[j] <= Acked(k, j, nd.term) {
      assert nd.matched[j] <= Acked(h, j, nd.term);
    }
  }

  lemma AppendKeeps(s: System, h: History, i: nat, log: Log)
    requires HistoryOK(h, |s.nodes|) && NodesOK(h, s.nodes) && i < |s.nodes| && s.nodes[i].role == Leader
    requires LeadersKeep(h, Terms(s.nodes)) && LogsKeep(h, Terms(s.nodes), s.nodes)
    requires s.nodes[i].term in h.reigns && s.nodes[i].log <= log
    requires Advances(h, Appended(h, i, s.nodes[i].term, log), i, Terms(s.nodes), Terms(s.nodes))
    ensures LeadersKeep(Appended(h, i, s.nodes[i].term, log), Terms(s.nodes))
    ensures LogKeeps(Appended(h, i, s.nodes[i].term, log), Terms(s.nodes), i, log)
  {
    VotesAreDated(h, s.nodes);
    assert NodeOK(h, i, s.nodes[i], |s.nodes|) && LogKeeps(h, Terms(s.nodes), i, s.nodes[i].log);
    AppendedLeadersKeep(h, i, s.nodes[i].term, log, Terms(s.nodes));
    AppendedLogKeeps(h, i, s.nodes[i].term, log, Terms(s.nodes));
  }

  lemma AppendHistory(h: History, i: nat, nd: Node, e: LogEntry, peers: nat)
    requires HistoryOK(h, peers) && NodeOK(h, i, nd, peers) && i < peers && nd.role == Leader
    requires e.term == nd.term && e.index == |nd.log| + 1
    ensures nd.term in h.reigns
    ensures var k := Appended(h, i, nd.term, nd.log + [e]);
      Extends(h, k) && OnlyBy(h, k, i) && HistoryOK(k, peers) && ReignOK(k, peers, nd.term)
  {
    AppendedExtends(h, i, nd.term, nd.log + [e]);
    AppendedReign(h, i, nd.term, e, peers);
    AppendedHistory(h, i, nd.term, nd.log + [e], peers);
  }

  lemma LeaderAppend(s: System, h: History, i: nat, e: LogEntry, s2: System) returns (k: History)
    requires Inv(s, h) && i < |s.nodes| && s.nodes[i].role == Leader
    requires e.term == s.nodes[i].term && e.index == |s.nodes[i].log| + 1
    requires s2 == System(s.nodes[i := s.nodes[i].(log := s.nodes[i].log + [e])], s.net)
    ensures Inv(s2, k) && Extends(h, k)
  {
    var nd := s.nodes[i];
    assert NodeOK(h, i, nd, |s.nodes|);
    AppendHistory(h, i, nd, e, |s.nodes|);
    AppendedNode(h, i, nd, e, |s.nodes|);
    k := Appended(h, i, nd.term, nd.log + [e]);
    AppendAssembled(s, h, i, nd.(log := nd.log + [e]), s2, k);
  }

  lemma AppendAssembled(s: System, h: History, i: nat, nd2: Node, s2: System, k: History)
    requires Inv(s, h) && i < |s.nodes| && s.nodes[i].role == Leader && s.nodes[i].term in h.reigns
    requires k == Appended(h, i, s.nodes[i].term, nd2.log) && Extends(h, k)
    requires OnlyBy(h, k, i) && HistoryOK(k, |s.nodes|)
    requires NodeOK(k, i, nd2, |s.nodes|) && nd2.term == s.nodes[i].term && s.nodes[i].log <= nd2.log
    requires s2.nodes == s.nodes[i := nd2] && s2.net == s.net
    ensures Inv(s2, k)
  {
    AppendAdvances(s, h, i, nd2, s2, k);
    Assemble(s, h, i, nd2, s2, k);
  }

  lemma AppendAdvances(s: System, h: History, i: nat, nd2: Node, s2: System, k: History)
    requires HistoryOK(h, |s.nodes|) && NodesOK(h, s.nodes) && i < |s.nodes| && s.nodes[i].role == Leader
    requires LeadersKeep(h, Terms(s.nodes)) && LogsKeep(h, Terms(s.nodes), s.nodes)
    requires s.nodes[i].term in h.reigns && nd2.term == s.nodes[i].term && s.nodes[i].log <= nd2.log
    requires k == Appended(h, i, s.nodes[i].term, nd2.log) && Extends(h, k) && OnlyBy(h, k, i)
    requires s2.nodes == s.nodes[i := nd2]
    ensures Advances(h, k, i, Terms(s.nodes), Terms(s2.nodes))
    ensures LeadersKeep(k, Terms(s2.nodes)) && LogKeeps(k, Terms(s2.nodes), i, nd2.log)
  {
    SameTerms(s.nodes, i, nd2);
    SameTermAdvances(h, k, i, s.nodes[i].term, Terms(s.nodes));
    AppendKeeps(s, h, i, nd2.log);
  }

  // ------------------------------------------------- accepting a leader's log

  /** Where two logs grounded in the same history have the same term, they agree up to there. */
  ghost predicate AgreeByTerm(log: Log, own: Log) {
    forall j: nat :: j < |log| && j < |own| && log[j].term == own[j].term ==> Has(log, own, j + 1)
  }

  lemma GroundedAgree(h: History, log: Log, own: Log)
    requires Grounded(h, log) && Grounded(h, own)
    ensures AgreeByTerm(log, own)
  {
    forall j: nat | j < |log| && j < |own| && log[j].term == own[j].term ensures Has(log, own, j + 1) {
      assert FromLeader(h, log, j) && FromLeader(h, own, j);
    }
  }

  /**
   * The overwrite loop ends with the leader's entries in place; everything the log
   * already shared with the leader is still there, and nothing else was invented.
   */
  lemma {:induction false} MergeAccepts(log: Log, own: Log, prev: nat, count: nat)
    requires prev + count <= |own| && Has(log, own, prev) && AgreeByTerm(log, own)
    requires forall j :: 0 <= j < |own| ==> own[j].index == j + 1
    ensures var r := Merge(log, own[prev..prev + count]);
      Has(r, own, prev + count) && (r == log || r == own[..prev + count])
      && (forall n: nat :: Has(log, own, n) ==> Has(r, own, n))
    decreases count
  {
    var entries := own[prev..prev + count];
    if count > 0 {
      var e := entries[0];
      assert e == own[prev] && entries[1..] == own[prev + 1..prev + 1 + (count - 1)];
      if prev < |log| && log[prev].term == e.term {
        assert Has(log, own, prev + 1);
        MergeAccepts(log, own, prev + 1, count - 1);
      } else {
        var log1 := log[..prev] + [e];
        assert log1 == own[..prev + 1];
        assert log1 == if prev < |log| then log[..prev] + [e] else log + [e];
        PrefixAgreesAll(log1, own);
        MergeAccepts(log1, own, prev + 1, count - 1);
        forall n: nat | Has(log, own, n) ensures Has(log1, own, n) {
          DivergeBefore(log, own, n, prev);
          assert log1[..n] == own[..n];
        }
      }
    }
  }

  lemma PrefixAgreesAll(log: Log, own: Log)
    requires log <= own
    ensures AgreeByTerm(log, own)
  {
    forall j: nat | j < |log| && j < |own| && log[j].term == own[j].term ensures Has(log, own, j + 1) {
      assert log[..j + 1] == own[..j + 1];
    }
  }

  lemma DivergeBefore(log: Log, own: Log, n: nat, j: nat)
    requires Has(log, own, n) && j < |own|
    ensures j < n ==> j < |log| && log[j].term == own[j].term
  {
    assert j < n ==> log[..n][j] == own[..n][j];
  }

  /** A committed prefix is in the log of every leader of a later term. */
  lemma CommittedInLeader(h: History, terms: seq<nat>, tau: nat, t: nat)
    requires CommitsOK(h, |terms|) && LeadersKeep(h, terms)
    requires tau in h.committed && tau < t && t in h.reigns
    ensures OwnEntry(h, tau, h.committed[tau]) && Has(h.reigns[t].log, h.reigns[tau].log, h.committed[tau])
  {
    CommittedChoosable(h, terms, tau);
  }

  /** What was committed up to term t is in the log of every leader from t on. */
  lemma BackedInReign(k: History, terms: seq<nat>, log: Log, c: nat, t: nat, t2: nat)
    requires CommitsOK(k, |terms|) && LeadersKeep(k, terms)
    requires CommitBacked(k, log, c, t) && t <= t2 && t2 in k.reigns
    ensures Has(k.reigns[t2].log, log, c)
  {
    if c > 0 {
      var tau: nat :| BackedBy(k, log, c, t, tau);
      if tau < t2 {
        CommittedInLeader(k, terms, tau, t2);
        HasVia(log, k.reigns[t2].log, k.reigns[tau].log, c, k.committed[tau]);
      }
    }
  }

  /** What log2 keeps of the log of leader t covers every committed prefix log had. */
  ghost predicate KeepsShared(log: Log, log2: Log, own: Log) {
    forall n: nat :: Has(log, own, n) ==> Has(log2, own, n)
  }

  lemma BackingKept(h: History, terms: seq<nat>, log: Log, log2: Log, c: nat, t: nat)
    requires CommitsOK(h, |terms|) && LeadersKeep(h, terms) && t in h.reigns
    requires CommitBacked(h, log, c, t) && KeepsShared(log, log2, h.reigns[t].log)
    ensures CommitBacked(h, log2, c, t)
  {
    if c > 0 {
      var tau: nat :| BackedBy(h, log, c, t, tau);
      var own := h.reigns[t].log;
      if tau < t {
        CommittedInLeader(h, terms, tau, t);
        HasVia(log, own, h.reigns[tau].log, c, h.committed[tau]);
        assert Has(log2, own, c);
        assert BackedBy(h, log2, c, t, tau);
      } else {
        assert BackedBy(h, log2, c, t, tau);
      }
    }
  }

  /** The follower's new commit index is backed: the leader's was, and the log matches that far. */
  lemma BackingLearned(h: History, log: Log, t: nat, c: nat, m: nat)
    requires t in h.reigns && CommitBacked(h, h.reigns[t].log, c, t) && Has(log, h.reigns[t].log, m)
    ensures CommitBacked(h, log, Min(c, m), t)
  {
    if Min(c, m) > 0 {
      var own := h.reigns[t].log;
      var tau: nat :| BackedBy(h, own, c, t, tau);
      var n := Min(c, m);
      assert log[..n] == log[..m][..n] == own[..n] == own[..c][..n] == h.reigns[tau].log[..n];
      assert BackedBy(h, log, n, t, tau);
    }
  }

  ghost function Confirmed(h: History, i: nat, t: nat, m: nat): History {
    h.(acked := h.acked[(i, t) := Max(Acked(h, i, t), m)])
  }

  lemma ConfirmedHistory(h: History, i: nat, t: nat, m: nat, peers: nat)
    requires HistoryOK(h, peers) && i < peers && t in h.reigns && m <= |h.reigns[t].log|
    ensures Extends(h, Confirmed(h, i, t, m)) && OnlyBy(h, Confirmed(h, i, t, m), i)
    ensures HistoryOK(Confirmed(h, i, t, m), peers)
  {
    var k := Confirmed(h, i, t, m);
    ConfirmedExtends(h, i, t, m);
    ReignsGrow(h, k, peers);
    CandsGrow(h, k);
    CommitsGrow(h, k, peers);
    forall v, u | (v, u) in k.acked ensures AckOK(k, peers, v, u) {
      assert (v, u) in h.acked ==> AckOK(h, peers, v, u);
    }
    assert HistoryFits(k, peers);
  }

  lemma ConfirmedExtends(h: History, i: nat, t: nat, m: nat)
    ensures Extends(h, Confirmed(h, i, t, m)) && OnlyBy(h, Confirmed(h, i, t, m), i)
  {
    assert ExtendsOver(h, Confirmed(h, i, t, m), h.votes);
  }

  lemma ConfirmedLogKeeps(h: History, i: nat, t: nat, m: nat, log: Log, log2: Log, terms: seq<nat>)
    requires i < |terms| && terms[i] == t && t in h.reigns && LeadersKeep(h, terms) && LogKeeps(h, terms, i, log)
    requires TermsCover(h, i, t) && Advances(h, Confirmed(h, i, t, m), i, terms, terms)
    requires Has(log2, h.reigns[t].log, m) && KeepsShared(log, log2, h.reigns[t].log)
    ensures LogKeeps(Confirmed(h, i, t, m), terms, i, log2)
  {
    var k := Confirmed(h, i, t, m);
    var own := h.reigns[t].log;
    forall u: nat, n: nat | OwnEntry(k, u, n) && Acked(k, i, u) >= n && Choosable(k, terms, u, n)
      ensures Has(log2, k.reigns[u].log, n)
    {
      assert OwnEntry(h, u, n);
      SupportersShrink(h, k, i, terms, terms, u, n);
      if Acked(h, i, u) < n {
        assert u == t && n <= m;
        assert log2[..n] == log2[..m][..n] == own[..n];
      } else {
        assert (i, u) in h.acked;
        if u < t {
          HasVia(log, own, h.reigns[u].log, n, n);
          assert Has(log2, own, n);
        }
      }
    }
  }

  /**
   * nd2 is nd after accepting the first m entries of its leader's log: they are in place, what
   * the two logs shared is still there, and the commit index moved to lc at most.
   */
  ghost predicate Accepts(h: History, nd: Node, m: nat, lc: nat, nd2: Node) {
    exists t: nat :: AcceptsIn(h, t, nd, m, lc, nd2)
  }

  ghost predicate AcceptsIn(h: History, t: nat, nd: Node, m: nat, lc: nat, nd2: Node) {
    t == nd.term && t in h.reigns && m <= |h.reigns[t].log|
    && nd2 == nd.(log := nd2.log, commit := Max(nd.commit, Min(lc, m)))
    && Grounded(h, nd2.log) && TermsUpTo(nd2.log, t) && NumberedAndOrdered(nd2.log)
    && Has(nd2.log, h.reigns[t].log, m) && KeepsShared(nd.log, nd2.log, h.reigns[t].log)
    && (nd.log == h.reigns[t].log ==> nd2.log == nd.log)
  }

  /** The entries that lie in the compacted prefix are the ones it holds. */
  ghost predicate SkipsShared(log: Log, entries: Log, snap: nat)
    requires snap <= |log|
  {
    forall k :: 0 <= k < |entries| && 1 <= entries[k].index <= snap
      ==> entries[k].term == log[entries[k].index - 1].term
  }

  lemma {:induction false} SkippedAnyway(log: Log, entries: Log, snap: nat)
    requires snap <= |log| && SkipsShared(log, entries, snap)
    ensures Merge(log, Above(entries, snap)) == Merge(log, entries)
    decreases |entries|
  {
    if entries != [] {
      var e, rest := entries[0], entries[1..];
      assert forall k :: 0 <= k < |rest| ==> rest[k] == entries[k + 1];
      if e.index <= snap {
        SkippedAnyway(log, rest, snap);
      } else {
        var log1 := if e.index <= |log| then
                      if log[e.index - 1].term != e.term then log[..e.index - 1] + [e] else log
                    else log + [e];
        assert log1[..snap] == log[..snap];
        SkippedAnyway(log1, rest, snap);
        assert ([e] + Above(rest, snap))[1..] == Above(rest, snap);
      }
    }
  }

  lemma SliceSkips(log: Log, own: Log, snap: nat, prev: nat, entries: Log)
    requires Has(log, own, snap) && SliceOf(own, prev, entries)
    requires forall j :: 0 <= j < |own| ==> own[j].index == j + 1
    ensures SkipsShared(log, entries, snap)
  {
    assert forall j :: 0 <= j < snap ==> own[..snap][j] == own[j] && log[..snap][j] == log[j];
    assert forall k :: 0 <= k < |entries| ==> entries[k] == own[prev + k];
  }

  /** log2 is log with the first m entries of own in place, and everything the two shared. */
  ghost predicate MergedAs(log: Log, own: Log, m: nat, log2: Log) {
    m <= |own| && Has(log2, own, m) && KeepsShared(log, log2, own) && (log2 == log || log2 == own[..m])
  }

  lemma MergeIsAccepted(h: History, peers: nat, nd: Node, m: nat, lc: nat, nd2: Node)
    requires ReignsOK(h, peers) && NodeLog(h, nd) && nd.term in h.reigns
    requires MergedAs(nd.log, h.reigns[nd.term].log, m, nd2.log)
    requires nd2 == nd.(log := nd2.log, commit := Max(nd.commit, Min(lc, m)))
    ensures Accepts(h, nd, m, lc, nd2)
  {
    var own := h.reigns[nd.term].log;
    assert ReignOK(h, peers, nd.term);
    MergedEither(h, peers, nd.term, nd.log, nd2.log, m);
    if nd.log == own { NothingToMerge(own, nd2.log, m); }
    assert AcceptsIn(h, nd.term, nd, m, lc, nd2);
  }

  /** The follower's log after an accepted AppendEntries. */
  lemma AcceptedLog(h: History, terms: seq<nat>, nd: Node, m: nat, lc: nat, nd2: Node)
    requires CommitsOK(h, |terms|) && LeadersKeep(h, terms) && NodeLog(h, nd)
    requires Accepts(h, nd, m, lc, nd2) && nd.term in h.reigns && CommitBacked(h, h.reigns[nd.term].log, lc, nd.term)
    ensures NodeLog(h, nd2)
  {
    BackingKept(h, terms, nd.log, nd2.log, nd.commit, nd.term);
    BackingLearned(h, nd2.log, nd.term, lc, m);
    DeliveredKept(h, terms, nd, nd2.log);
  }

  lemma NothingToMerge(own: Log, log: Log, m: nat)
    requires m <= |own| && (log == own || log == own[..m]) && KeepsShared(own, log, own)
    ensures log == own
  {
    assert Has(own, own, |own|);
  }

  lemma MergedEither(h: History, peers: nat, t: nat, log: Log, log2: Log, m: nat)
    requires t in h.reigns && ReignOK(h, peers, t) && Grounded(h, log) && TermsUpTo(log, t) && NumberedAndOrdered(log)
    requires m <= |h.reigns[t].log| && (log2 == log || log2 == h.reigns[t].log[..m])
    ensures Grounded(h, log2) && TermsUpTo(log2, t) && NumberedAndOrdered(log2)
  {
    PrefixGrounded(h, h.reigns[t].log, m);
  }

  lemma MergeSlice(h: History, log: Log, own: Log, prev: nat, entries: Log, log2: Log)
    requires Grounded(h, log) && Grounded(h, own) && NumberedAndOrdered(own)
    requires Has(log, own, prev) && SliceOf(own, prev, entries) && log2 == Merge(log, entries)
    ensures MergedAs(log, own, prev + |entries|, log2)
  {
    GroundedAgree(h, log, own);
    MergeAccepts(log, own, prev, |entries|);
  }

  /**
   * Where the follower's entry has the term named for it, the logs agree up to there: that term
   * is the entry's own in the leader's log, or that of a later entry, and then the term's leader
   * had both.
   */
  lemma PrevAgrees(h: History, log: Log, own: Log, prev: nat, prevTerm: nat, entries: Log)
    requires Grounded(h, log) && Grounded(h, own) && NumberedAndOrdered(log)
    requires prev <= |log| && TermAt(log, prev) == prevTerm && PrevFits(own, prev, prevTerm, entries)
    ensures Has(log, own, prev)
  {
    if prev > 0 {
      var k: nat :| prev <= k <= |own| && prevTerm == TermAt(own, k) && (entries != [] ==> k == prev);
      assert FromLeader(h, log, prev - 1) && FromLeader(h, own, k - 1);
      var reign := h.reigns[prevTerm].log;
      assert own[..prev] == own[..k][..prev] == reign[..k][..prev] == reign[..prev];
    }
  }

  lemma PrefixGrounded(h: History, own: Log, n: nat)
    requires Grounded(h, own) && n <= |own|
    ensures Grounded(h, own[..n])
  {
    forall j: nat | j < n ensures FromLeader(h, own[..n], j) {
      assert FromLeader(h, own, j);
      assert own[..n][..j + 1] == own[..j + 1];
    }
  }

  /** A delivered entry is never overwritten. */
  lemma DeliveredKept(h: History, terms: seq<nat>, nd: Node, log2: Log)
    requires CommitsOK(h, |terms|) && LeadersKeep(h, terms) && NodeLog(h, nd) && nd.term in h.reigns
    requires KeepsShared(nd.log, log2, h.reigns[nd.term].log)
    ensures nd.applied <= |log2| && nd.delivered == log2[..nd.applied]
  {
    if nd.commit > 0 {
      var tau: nat :| BackedBy(h, nd.log, nd.commit, nd.term, tau);
      var own := h.reigns[nd.term].log;
      if tau < nd.term {
        CommittedInLeader(h, terms, tau, nd.term);
        HasVia(nd.log, own, h.reigns[tau].log, nd.commit, h.committed[tau]);
      }
      assert Has(nd.log, own, nd.commit) && Has(log2, own, nd.commit);
      assert log2[..nd.applied] == log2[..nd.commit][..nd.applied] == nd.log[..nd.commit][..nd.applied];
    }
  }

  /** What the follower had confirmed is still there, and what it confirms now is there too. */
  lemma AcceptedHolds(h: History, i: nat, log: Log, log2: Log, t: nat, m: nat)
    requires t in h.reigns && HoldsOf(h, log, t, Acked(h, i, t))
    requires Has(log2, h.reigns[t].log, m) && KeepsShared(log, log2, h.reigns[t].log)
    ensures HoldsOf(Confirmed(h, i, t, m), log2, t, Acked(Confirmed(h, i, t, m), i, t))
  {
    assert Has(log, h.reigns[t].log, Acked(h, i, t));
  }

  lemma AcceptedNode(h: History, k: History, i: nat, nd: Node, nd2: Node, peers: nat)
    requires NodeOK(h, i, nd, peers) && nd.role == Follower && NodeLog(h, nd2) && Extends(h, k)
    requires nd2 == nd.(log := nd2.log, commit := nd2.commit)
    requires k == h.(acked := k.acked) && (forall t :: (i, t) in k.acked ==> t <= nd.term) && NodeHolds(k, i, nd2)
    requires nd.term in h.reigns && h.reigns[nd.term].leader == i ==> nd2.log == nd.log
    ensures NodeOK(k, i, nd2, peers)
  {
    NodeLogGrows(h, k, nd2, nd2);
    assert NodeFits(k, i, nd2, peers);
  }

  lemma AcceptAdvances(h: History, i: nat, t: nat, m: nat, terms: seq<nat>)
    requires i < |terms| && terms[i] == t
    ensures Advances(h, Confirmed(h, i, t, m), i, terms, terms)
  {
    ConfirmedExtends(h, i, t, m);
    assert AdvancesBy(h, Confirmed(h, i, t, m), i, terms, terms);
  }

  /** Everything an acceptance keeps, before it is assembled. */
  lemma AcceptKeeps(h: History, terms: seq<nat>, i: nat, nd: Node, m: nat, lc: nat, nd2: Node)
    requires HistoryOK(h, |terms|) && LeadersKeep(h, terms) && i < |terms| && terms[i] == nd.term
    requires NodeOK(h, i, nd, |terms|) && LogKeeps(h, terms, i, nd.log) && nd.role == Follower
    requires Accepts(h, nd, m, lc, nd2) && nd.term in h.reigns && CommitBacked(h, h.reigns[nd.term].log, lc, nd.term)
    ensures NodeOK(Confirmed(h, i, nd.term, m), i, nd2, |terms|)
    ensures LogKeeps(Confirmed(h, i, nd.term, m), terms, i, nd2.log)
  {
    var k := Confirmed(h, i, nd.term, m);
    AcceptedLog(h, terms, nd, m, lc, nd2);
    ConfirmedExtends(h, i, nd.term, m);
    AcceptedHolds(h, i, nd.log, nd2.log, nd.term, m);
    AcceptedNode(h, k, i, nd, nd2, |terms|);
    AcceptAdvances(h, i, nd.term, m, terms);
    ConfirmedLogKeeps(h, i, nd.term, m, nd.log, nd2.log, terms);
  }

  lemma Accept(s: System, h: History, i: nat, t: nat, m: nat, lc: nat, nd2: Node, s2: System) returns (k: History)
    requires Inv(s, h) && i < |s.nodes| && s.nodes[i].role == Follower && t == s.nodes[i].term
    requires Accepts(h, s.nodes[i], m, lc, nd2) && t in h.reigns && CommitBacked(h, h.reigns[t].log, lc, t)
    requires s2 == System(s.nodes[i := nd2], s.net)
    ensures Inv(s2, k) && Extends(h, k) && Acked(k, i, t) >= m
  {
    assert NodeOK(h, i, s.nodes[i], |s.nodes|) && LogKeeps(h, Terms(s.nodes), i, s.nodes[i].log);
    AcceptKeeps(h, Terms(s.nodes), i, s.nodes[i], m, lc, nd2);
    k := AcceptAssembled(s, h, i, t, m, nd2, s2);
  }

  lemma AcceptAssembled(s: System, h: History, i: nat, t: nat, m: nat, nd2: Node, s2: System) returns (k: History)
    requires Inv(s, h) && i < |s.nodes| && t == s.nodes[i].term == nd2.term
    requires t in h.reigns && m <= |h.reigns[t].log|
    requires NodeOK(Confirmed(h, i, t, m), i, nd2, |s.nodes|)
    requires LogKeeps(Confirmed(h, i, t, m), Terms(s.nodes), i, nd2.log)
    requires s2 == System(s.nodes[i := nd2], s.net)
    ensures Inv(s2, k) && Extends(h, k) && Acked(k, i, t) >= m
  {
    k := Confirmed(h, i, t, m);
    ConfirmedHistory(h, i, t, m, |s.nodes|);
    AcceptAdvances(h, i, t, m, Terms(s.nodes));
    SameTerms(s.nodes, i, nd2);
    SameReignsKeep(h, k, i, Terms(s.nodes), Terms(s.nodes));
    Assemble(s, h, i, nd2, s2, k);
  }

  // -------------------------------------------------------------- committing

  ghost function Committed(h: History, t: nat, n: nat): History {
    h.(committed := h.committed[t := n])
  }

  /** The picked index is on a quorum of logs. */
  lemma PickIsBacked(h: History, i: nat, nd: Node, peers: nat)
    requires NodeShape(i, nd, peers) && LeaderOK(h, i, nd) && peers >= 1
    ensures var n := Sorted(MatchedValues(nd))[peers - Quorum(peers)]; |Backers(h, peers, nd.term, n)| >= Quorum(peers)
  {
    var values := MatchedValues(nd);
    var n := Sorted(values)[peers - Quorum(peers)];
    QuorumPick(values, Quorum(peers), n);
    CountIsCard(values, n);
    forall j | j in AtLeast(values, n) ensures j in Backers(h, peers, nd.term, n) {
      assert j == i || nd.matched[j] <= Acked(h, j, nd.term);
    }
    SubsetSize(AtLeast(values, n), Backers(h, peers, nd.term, n));
  }

  lemma CommittedHistory(h: History, i: nat, t: nat, n: nat, peers: nat)
    requires HistoryOK(h, peers) && OwnEntry(h, t, n) && Extends(h, Committed(h, t, n))
    requires |Backers(h, peers, t, n)| >= Quorum(peers)
    ensures HistoryOK(Committed(h, t, n), peers)
  {
    var k := Committed(h, t, n);
    ReignsGrow(h, k, peers);
    CandsGrow(h, k);
    CommittedOnce(h, t, n, peers);
    assert HistoryFits(k, peers);
  }

  lemma CommittedOnce(h: History, t: nat, n: nat, peers: nat)
    requires CommitsOK(h, peers) && OwnEntry(h, t, n) && |Backers(h, peers, t, n)| >= Quorum(peers)
    ensures CommitsOK(Committed(h, t, n), peers)
  {
    var k := Committed(h, t, n);
    forall u | u in k.committed ensures CommittedOK(k, peers, u) {
      assert Backers(k, peers, u, k.committed[u]) == Backers(h, peers, u, k.committed[u]);
      assert u != t ==> CommittedOK(h, peers, u);
    }
  }

  lemma CommittedExtends(h: History, i: nat, t: nat, n: nat)
    requires t in h.reigns && h.reigns[t].leader == i && (t in h.committed ==> h.committed[t] <= n)
    ensures Extends(h, Committed(h, t, n)) && OnlyBy(h, Committed(h, t, n), i)
  {
    assert ExtendsOver(h, Committed(h, t, n), h.votes);
  }

  lemma CommittedNode(h: History, i: nat, nd: Node, n: nat, peers: nat)
    requires NodeOK(h, i, nd, peers) && nd.role == Leader && nd.commit < n <= |nd.log|
    requires Extends(h, Committed(h, nd.term, n))
    ensures NodeOK(Committed(h, nd.term, n), i, nd.(commit := n), peers)
  {
    var k := Committed(h, nd.term, n);
    NodeLogGrows(h, k, nd, nd);
    assert BackedBy(k, nd.log, n, nd.term, nd.term);
    CommittedLeader(h, i, nd, n);
    assert NodeFits(k, i, nd.(commit := n), peers);
  }

  lemma CommittedLeader(h: History, i: nat, nd: Node, n: nat)
    requires LeaderOK(h, i, nd) && nd.commit < n <= |nd.log|
    ensures LeaderOK(Committed(h, nd.term, n), i, nd.(commit := n))
  {
    var k := Committed(h, nd.term, n);
    forall j: nat | j < |nd.matched| ensures nd.matched[j] <= Acked(k, j, nd.term) {
      assert nd.matched[j] <= Acked(h, j, nd.term);
    }
  }

  lemma LeaderCommit(s: System, h: History, i: nat, n: nat, s2: System) returns (k: History)
    requires Inv(s, h) && i < |s.nodes| && s.nodes[i].role == Leader && s.nodes[i].commit < n <= |s.nodes[i].log|
    requires TermAt(s.nodes[i].log, n) == s.nodes[i].term
    requires |Backers(h, |s.nodes|, s.nodes[i].term, n)| >= Quorum(|s.nodes|)
    requires s2 == System(s.nodes[i := s.nodes[i].(commit := n)], s.net)
    ensures Inv(s2, k) && Extends(h, k)
  {
    var nd := s.nodes[i];
    assert NodeOK(h, i, nd, |s.nodes|);
    k := Committed(h, nd.term, n);
    CommittedExtends(h, i, nd.term, n);
    CommittedHistory(h, i, nd.term, n, |s.nodes|);
    CommittedNode(h, i, nd, n, |s.nodes|);
    CommitAssembled(s, h, i, nd.(commit := n), s2, k);
  }

  lemma CommitAssembled(s: System, h: History, i: nat, nd2: Node, s2: System, k: History)
    requires Inv(s, h) && i < |s.nodes| && HistoryOK(k, |s.nodes|) && k == h.(committed := k.committed)
    requires Extends(h, k) && OnlyBy(h, k, i) && nd2.term == s.nodes[i].term && nd2.log == s.nodes[i].log
    requires NodeOK(k, i, nd2, |s.nodes|)
    requires s2 == System(s.nodes[i := nd2], s.net)
    ensures Inv(s2, k)
  {
    LogKept(h, k, i, s.nodes, nd2, s2.nodes);
    Assemble(s, h, i, nd2, s2, k);
  }

  lemma LogKept(h: History, k: History, i: nat, nodes: seq<Node>, nd2: Node, nodes2: seq<Node>)
    requires i < |nodes| && nodes2 == nodes[i := nd2] && nd2.term == nodes[i].term && nd2.log == nodes[i].log
    requires k == h.(committed := k.committed) && Extends(h, k) && OnlyBy(h, k, i)
    requires LeadersKeep(h, Terms(nodes)) && LogsKeep(h, Terms(nodes), nodes)
    ensures Advances(h, k, i, Terms(nodes), Terms(nodes2))
    ensures LeadersKeep(k, Terms(nodes2)) && LogKeeps(k, Terms(nodes2), i, nd2.log)
  {
    SameTerms(nodes, i, nd2);
    assert AdvancesBy(h, k, i, Terms(nodes), Terms(nodes));
    SameReignsKeep(h, k, i, Terms(nodes), Terms(nodes));
    LogStays(h, k, i, Terms(nodes), Terms(nodes), nd2.log);
  }

  lemma AdvanceFacts(h: History, i: nat, nd: Node, nd2: Node, peers: nat)
    requires NodeOK(h, i, nd, peers) && nd2 == AdvanceCommit(nd) && nd2 != nd
    ensures nd.role == Leader && nd.commit < nd2.commit <= |nd.log| && TermAt(nd.log, nd2.commit) == nd.term
    ensures |Backers(h, peers, nd.term, nd2.commit)| >= Quorum(peers) && nd2 == nd.(commit := nd2.commit)
  {
    PickIsBacked(h, i, nd, peers);
  }

  /** From s with node i changed to nd1, the leader moves its commit index if it can. */
  lemma Advance(s: System, nodes: seq<Node>, h: History, i: nat, nd1: Node, nd2: Node, s2: System) returns (k: History)
    requires Inv(s, h) && i < |nodes| && s.nodes == nodes[i := nd1] && |nd1.matched| == nd1.peers
    requires nd2 == AdvanceCommit(nd1) && s2 == System(nodes[i := nd2], s.net)
    ensures Inv(s2, k) && Extends(h, k)
  {
    PutTwice(nodes, i, nd1, nd2);
    assert s.nodes[i] == nd1;
    if nd2 == nd1 {
      ExtendsSelf(h);
      k := h;
    } else {
      AdvanceFacts(h, i, nd1, nd2, |nodes|);
      k := LeaderCommit(s, h, i, nd2.commit, s2);
    }
  }
}
