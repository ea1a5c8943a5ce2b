/** Winning a term and appending to its log: each keeps the invariant. */
module RaftLeaders {
  import opened OrderStatistics
  import opened RaftTypes
  import opened RaftRules
  import opened RaftSystem
  import opened RaftInvariant
  import opened RaftGrowth
  import opened RaftFrame
  import opened RaftElections

  ghost predicate Wins(nd: Node, i: nat, peers: nat) {
    i < peers && nd.role == Candidate && |nd.votes| >= Quorum(peers)
  }

  /**
   * A term that was won before is won again only with the vote of its leader. Two winners share
   * a voter; it voted once for somebody else, or one of the winners voted for the other, and the
   * later winner never did. And its leader gives that vote only if it wrote nothing.
   */
  lemma WonBefore(h: History, i: nat, nd: Node, peers: nat)
    requires ReignsOK(h, peers) && OneGrant(h) && NodeOK(h, i, nd, peers) && Wins(nd, i, peers)
    requires nd.term in h.reigns
    ensures var r := h.reigns[nd.term];
      r.leader != i && Vote(r.leader, nd.term, i) in h.votes && r.inherited == |r.log|
  {
    var r := h.reigns[nd.term];
    assert ReignOK(h, peers, nd.term);
    var v := MajoritiesMeet(peers, r.voters, nd.votes);
    assert Vote(v, nd.term, r.leader) in h.votes && Vote(v, nd.term, i) in h.votes;
    assert v != i;
    assert v == r.leader;
  }

  /** The term is free, or its leader wrote nothing and voted for a successor, who has its whole log. */
  ghost predicate TermOpen(h: History, nd: Node) {
    nd.term !in h.committed
    && (nd.term in h.reigns ==>
          h.reigns[nd.term].log <= nd.log && VotedAway(h, h.reigns[nd.term].leader, nd.term))
  }

  /** Once a quorum has moved past t without confirming entry n, no later quorum can. */
  lemma NotChoosable(h: History, terms: seq<nat>, t: nat, n: nat, later: set<nat>)
    requires forall v :: v in later ==> v < |terms| && terms[v] > t && Acked(h, v, t) < n
    requires |later| >= Quorum(|terms|)
    ensures !Choosable(h, terms, t, n)
  {
    if Choosable(h, terms, t, n) {
      var v := MajoritiesMeet(|terms|, later, Supporters(h, terms, t, n));
      assert false;
    }
  }

  ghost function Crowned(h: History, i: nat, nd: Node, log: Log): History {
    h.(reigns := h.reigns[nd.term := Reign(i, nd.votes, |nd.log|, log)],
       acked := h.acked[(i, nd.term) := |log|])
  }

  lemma CrownedExtends(h: History, i: nat, nd: Node, log: Log)
    requires TermOpen(h, nd) && nd.log <= log && (i, nd.term) !in h.acked
    ensures Extends(h, Crowned(h, i, nd, log)) && OnlyBy(h, Crowned(h, i, nd, log), i)
  {
    var k := Crowned(h, i, nd, log);
    forall t | t in h.reigns ensures ReignGrew(h, k, t) {
      if t == nd.term {
        var c: nat :| c != h.reigns[t].leader && Vote(h.reigns[t].leader, t, c) in h.votes;
        assert Vote(h.reigns[t].leader, t, c) in k.votes;
      }
    }
    assert ExtendsOver(h, k, h.votes);
  }

  /** log is nd's log, all of it committed, or with one entry of the new term appended. */
  ghost predicate WinnersLog(nd: Node, log: Log) {
    (log == nd.log && nd.commit == |nd.log|)
    || exists e: LogEntry :: log == nd.log + [e] && e.term == nd.term && e.index == |nd.log| + 1
  }

  /** One more entry of the leader's own leaves its log grounded. */
  lemma LastFromLeader(k: History, before: Log, log: Log, t: nat)
    requires Grounded(k, before) && before <= log && |log| <= |before| + 1
    requires t in k.reigns && k.reigns[t].log == log && (|log| > |before| ==> log[|before|].term == t)
    ensures Grounded(k, log)
  {
    forall j: nat | j < |log| ensures FromLeader(k, log, j) {
      if j < |before| {
        assert FromLeader(k, before, j);
        assert log[..j + 1] == before[..j + 1];
      }
    }
  }

  lemma CrownedReign(h: History, i: nat, nd: Node, log: Log, peers: nat)
    requires NodeOK(h, i, nd, peers) && i < peers && nd.role == Candidate && |nd.votes| >= Quorum(peers)
    requires CandsOK(h) && Extends(h, Crowned(h, i, nd, log)) && WinnersLog(nd, log)
    ensures ReignOK(Crowned(h, i, nd, log), peers, nd.term)
  {
    var k := Crowned(h, i, nd, log);
    assert CandOK(h, nd.term, i);
    GroundedGrows(h, k, nd.log);
    LastFromLeader(k, nd.log, log, nd.term);
    BackingGrows(h, k, nd.log, nd.log, nd.commit, nd.term);
  }

  lemma CrownedHistory(h: History, i: nat, nd: Node, log: Log, peers: nat)
    requires HistoryOK(h, peers) && i < peers && TermOpen(h, nd) && nd.log <= log
    requires Extends(h, Crowned(h, i, nd, log)) && ReignOK(Crowned(h, i, nd, log), peers, nd.term)
    ensures HistoryOK(Crowned(h, i, nd, log), peers)
  {
    var k := Crowned(h, i, nd, log);
    forall t | t in k.reigns ensures ReignOK(k, peers, t) {
      if t != nd.term {
        assert ReignOK(h, peers, t);
        ReignGrows(h, k, peers, t);
      }
    }
    CandsGrow(h, k);
    CommitsGrow(h, k, peers);
    forall v, u | (v, u) in k.acked ensures AckOK(k, peers, v, u) {
      assert (v, u) in h.acked ==> AckOK(h, peers, v, u);
    }
    assert HistoryFits(k, peers);
  }

  /** A new leader has everything that can still be chosen: a voter of its quorum confirmed it. */
  lemma WinnerHas(h: History, terms: seq<nat>, nd: Node, i: nat, t: nat, n: nat)
    requires VotesKeep(h, terms) && CandidateOK(h, i, nd) && nd.peers == |terms|
    requires |nd.votes| >= Quorum(|terms|)
    requires VotesDated(h, terms)
    requires t < nd.term && OwnEntry(h, t, n) && Choosable(h, terms, t, n)
    ensures Has(nd.log, h.reigns[t].log, n)
  {
    var v := MajoritiesMeet(|terms|, nd.votes, Supporters(h, terms, t, n));
    assert Vote(v, nd.term, i) in h.votes;
    assert Acked(h, v, t) >= n;
    assert VoteKeeps(h, terms, Vote(v, nd.term, i));
  }

  ghost predicate VotesDated(h: History, terms: seq<nat>) {
    forall v: nat, u: nat, c: nat :: v < |terms| && Vote(v, u, c) in h.votes ==> u <= terms[v]
  }

  lemma VotesAreDated(h: History, nodes: seq<Node>)
    requires NodesOK(h, nodes)
    ensures VotesDated(h, Terms(nodes))
  {
    forall v: nat, u: nat, c: nat | v < |nodes| && Vote(v, u, c) in h.votes ensures u <= Terms(nodes)[v] {
      assert NodeOK(h, v, nodes[v], |nodes|);
    }
  }

  lemma CrownedLeadersKeep(h: History, i: nat, nd: Node, log: Log, terms: seq<nat>)
    requires AcksOK(h, |terms|) && ReignsOK(h, |terms|) && i < |terms| && terms[i] == nd.term
    requires TermOpen(h, nd) && Advances(h, Crowned(h, i, nd, log), i, terms, terms)
    requires LeadersKeep(h, terms) && VotesKeep(h, terms) && CandidateOK(h, i, nd) && nd.peers == |terms|
    requires |nd.votes| >= Quorum(|terms|) && VotesDated(h, terms) && nd.log <= log && CandOK(h, nd.term, i)
    ensures LeadersKeep(Crowned(h, i, nd, log), terms)
  {
    var k := Crowned(h, i, nd, log);
    forall t: nat, n: nat, t2: nat |
      OwnEntry(k, t, n) && t < t2 && t2 in k.reigns && Choosable(k, terms, t, n)
      ensures Has(k.reigns[t2].log, k.reigns[t].log, n)
    {
      if t == nd.term {
        assert n > |nd.log|;
        assert ReignOK(h, |terms|, t2);
        PassedBy(h, k, terms, t, n, t2, i);
      } else {
        assert OwnEntry(h, t, n);
        SupportersShrink(h, k, i, terms, terms, t, n);
        if t2 == nd.term {
          WinnerHas(h, terms, nd, i, t, n);
          assert log[..n] == nd.log[..n];
        }
      }
    }
  }

  /** The voters of a later reign never confirmed an entry written after they left term t. */
  lemma PassedBy(h: History, k: History, terms: seq<nat>, t: nat, n: nat, t2: nat, i: nat)
    requires Extends(h, k) && OnlyBy(h, k, i) && AcksOK(h, |terms|) && VotesDated(h, terms)
    requires t2 in h.reigns && ReignOK(h, |terms|, t2) && t < t2 && i < |terms| && terms[i] == t
    requires t in h.reigns ==> n > |h.reigns[t].log|
    requires n >= 1
    ensures !Choosable(k, terms, t, n)
  {
    var later := h.reigns[t2].voters;
    forall v | v in later ensures v < |terms| && terms[v] > t && Acked(k, v, t) < n {
      assert Vote(v, t2, h.reigns[t2].leader) in h.votes;
      assert Acked(k, v, t) == Acked(h, v, t);
      if (v, t) in h.acked { assert AckOK(h, |terms|, v, t); }
    }
    NotChoosable(k, terms, t, n, later);
  }

  lemma CrownedLogKeeps(h: History, i: nat, nd: Node, log: Log, terms: seq<nat>)
    requires AcksOK(h, |terms|) && Advances(h, Crowned(h, i, nd, log), i, terms, terms)
    requires LogKeeps(h, terms, i, nd.log) && nd.log <= log
    ensures LogKeeps(Crowned(h, i, nd, log), terms, i, log)
  {
    var k := Crowned(h, i, nd, log);
    forall t: nat, n: nat | OwnEntry(k, t, n) && Acked(k, i, t) >= n && Choosable(k, terms, t, n)
      ensures Has(log, k.reigns[t].log, n)
    {
      if t != nd.term {
        assert OwnEntry(h, t, n);
        SupportersShrink(h, k, i, terms, terms, t, n);
        assert log[..n] == nd.log[..n];
      }
    }
  }

  lemma CrownedLeader(h: History, i: nat, nd: Node, peers: nat)
    requires nd.peers == peers && nd.role == Candidate && |nd.votes| >= Quorum(peers) && nd.commit <= |nd.log|
    requires nd.term !in h.committed && CandidateOK(h, i, nd)
    requires nd.round.Some? ==> nd.round.value.term < nd.term
    ensures LeaderOK(Crowned(h, i, nd, BecomeLeaderIfQuorum(nd).log), i, BecomeLeaderIfQuorum(nd))
  {
  }

  lemma CrownedLog(h: History, k: History, nd: Node, nd2: Node, peers: nat)
    requires NodeLog(h, nd) && Extends(h, k) && nd.term in k.reigns && ReignOK(k, peers, nd.term)
    requires nd.log <= nd2.log && k.reigns[nd.term].log == nd2.log
    requires nd2.term == nd.term && nd2.commit == nd.commit && nd2.snapshot == nd.snapshot
    requires nd2.applied == nd.applied && nd2.delivered == nd.delivered
    ensures NodeLog(k, nd2)
  {
    BackingGrows(h, k, nd.log, nd2.log, nd.commit, nd.term);
    assert nd2.log[..nd.applied] == nd.log[..nd.applied];
  }

  lemma CrownedNode(h: History, i: nat, nd: Node, log: Log, nd2: Node, peers: nat)
    requires NodeOK(h, i, nd, peers) && nd.role == Candidate && Extends(h, Crowned(h, i, nd, log))
    requires NodeShape(i, nd2, peers) && NodeLog(Crowned(h, i, nd, log), nd2)
    requires LeaderOK(Crowned(h, i, nd, log), i, nd2)
    requires nd2.role == Leader && nd2.term == nd.term && nd2.votedFor == nd.votedFor && nd2.round == nd.round
    ensures NodeOK(Crowned(h, i, nd, log), i, nd2, peers)
  {
    assert NodeFits(Crowned(h, i, nd, log), i, nd2, peers);
  }

  lemma ElectHistory(h: History, i: nat, nd: Node, log: Log, peers: nat)
    requires HistoryOK(h, peers) && NodeOK(h, i, nd, peers) && Wins(nd, i, peers) && WinnersLog(nd, log)
    requires TermOpen(h, nd)
    ensures var k := Crowned(h, i, nd, log);
      Extends(h, k) && OnlyBy(h, k, i) && HistoryOK(k, peers) && ReignOK(k, peers, nd.term)
  {
    CrownedExtends(h, i, nd, log);
    CrownedReign(h, i, nd, log, peers);
    CrownedHistory(h, i, nd, log, peers);
  }

  lemma ElectNode(h: History, i: nat, nd: Node, peers: nat)
    requires NodeOK(h, i, nd, peers) && Wins(nd, i, peers) && TermOpen(h, nd)
    requires var k := Crowned(h, i, nd, BecomeLeaderIfQuorum(nd).log);
      Extends(h, k) && ReignOK(k, peers, nd.term)
    ensures NodeOK(Crowned(h, i, nd, BecomeLeaderIfQuorum(nd).log), i, BecomeLeaderIfQuorum(nd), peers)
  {
    var nd2 := BecomeLeaderIfQuorum(nd);
    CrownedLeader(h, i, nd, peers);
    CrownedLog(h, Crowned(h, i, nd, nd2.log), nd, nd2, peers);
    CrownedNode(h, i, nd, nd2.log, nd2, peers);
  }

  lemma ElectKeeps(s: System, h: History, i: nat, log: Log)
    requires HistoryOK(h, |s.nodes|) && NodesOK(h, s.nodes) && i < |s.nodes| && Wins(s.nodes[i], i, |s.nodes|)
    requires LeadersKeep(h, Terms(s.nodes)) && VotesKeep(h, Terms(s.nodes)) && LogsKeep(h, Terms(s.nodes), s.nodes)
    requires TermOpen(h, s.nodes[i]) && s.nodes[i].log <= log
    requires Advances(h, Crowned(h, i, s.nodes[i], log), i, Terms(s.nodes), Terms(s.nodes))
    ensures LeadersKeep(Crowned(h, i, s.nodes[i], log), Terms(s.nodes))
    ensures LogKeeps(Crowned(h, i, s.nodes[i], log), Terms(s.nodes), i, log)
  {
    VotesAreDated(h, s.nodes);
    assert NodeOK(h, i, s.nodes[i], |s.nodes|) && LogKeeps(h, Terms(s.nodes), i, s.nodes[i].log);
    assert CandOK(h, s.nodes[i].term, i);
    CrownedLeadersKeep(h, i, s.nodes[i], log, Terms(s.nodes));
    CrownedLogKeeps(h, i, s.nodes[i], log, Terms(s.nodes));
  }

  lemma CrownedAdvances(h: History, i: nat, nd: Node, log: Log, terms: seq<nat>)
    requires i < |terms| && terms[i] == nd.term && Extends(h, Crowned(h, i, nd, log))
    requires OnlyBy(h, Crowned(h, i, nd, log), i)
    ensures Advances(h, Crowned(h, i, nd, log), i, terms, terms)
  {
    assert AdvancesBy(h, Crowned(h, i, nd, log), i, terms, terms);
  }

  lemma WinKeeps(s: System, h: History, i: nat, nd2: Node, s2: System, k: History)
    requires HistoryOK(h, |s.nodes|) && NodesOK(h, s.nodes) && i < |s.nodes| && Wins(s.nodes[i], i, |s.nodes|)
    requires LeadersKeep(h, Terms(s.nodes)) && VotesKeep(h, Terms(s.nodes)) && LogsKeep(h, Terms(s.nodes), s.nodes)
    requires TermOpen(h, s.nodes[i]) && nd2.term == s.nodes[i].term && s.nodes[i].log <= nd2.log
    requires k == Crowned(h, i, s.nodes[i], nd2.log) && Extends(h, k) && OnlyBy(h, k, i)
    requires s2.nodes == s.nodes[i := nd2]
    ensures Advances(h, k, i, Terms(s.nodes), Terms(s2.nodes))
    ensures LeadersKeep(k, Terms(s2.nodes)) && LogKeeps(k, Terms(s2.nodes), i, nd2.log)
  {
    SameTerms(s.nodes, i, nd2);
    CrownedAdvances(h, i, s.nodes[i], nd2.log, Terms(s.nodes));
    ElectKeeps(s, h, i, nd2.log);
  }

  /** The history of a win, assembled; nd2 is the new leader. */
  lemma Win(s: System, h: History, i: nat, nd2: Node, s2: System, k: History)
    requires Inv(s, h) && i < |s.nodes| && Wins(s.nodes[i], i, |s.nodes|) && TermOpen(h, s.nodes[i])
    requires k == Crowned(h, i, s.nodes[i], nd2.log) && Extends(h, k) && OnlyBy(h, k, i) && HistoryOK(k, |s.nodes|)
    requires NodeOK(k, i, nd2, |s.nodes|) && nd2.term == s.nodes[i].term && s.nodes[i].log <= nd2.log
    requires s2.nodes == s.nodes[i := nd2] && s2.net == s.net
    ensures Inv(s2, k)
  {
    WinKeeps(s, h, i, nd2, s2, k);
    Assemble(s, h, i, nd2, s2, k);
  }

  lemma CommittedChoosable(h: History, terms: seq<nat>, tau: nat)
    requires CommitsOK(h, |terms|) && tau in h.committed
    ensures OwnEntry(h, tau, h.committed[tau]) && Choosable(h, terms, tau, h.committed[tau])
  {
    assert CommittedOK(h, |terms|, tau);
    SubsetSize(Backers(h, |terms|, tau, h.committed[tau]), Supporters(h, terms, tau, h.committed[tau]));
  }

  /** Where a leader wrote nothing, nothing of its term is committed. */
  lemma NothingCommitted(h: History, terms: seq<nat>, t: nat)
    requires CommitsOK(h, |terms|)
    requires t in h.reigns ==> ReignOK(h, |terms|, t) && h.reigns[t].inherited == |h.reigns[t].log|
    ensures t !in h.committed
  {
    if t in h.committed { CommittedChoosable(h, terms, t); }
  }

  /** A leader that wrote nothing found its log committed, and every later winner has what is committed. */
  lemma SuccessorHas(h: History, terms: seq<nat>, nd: Node, i: nat, r: Reign)
    requires CommitsOK(h, |terms|) && VotesKeep(h, terms) && VotesDated(h, terms) && CandidateOK(h, i, nd)
    requires nd.peers == |terms| && |nd.votes| >= Quorum(|terms|) && nd.term !in h.committed
    requires CommitBacked(h, r.log, |r.log|, nd.term)
    ensures r.log <= nd.log
  {
    if r.log != [] {
      var tau: nat :| BackedBy(h, r.log, |r.log|, nd.term, tau);
      CommittedChoosable(h, terms, tau);
      WinnerHas(h, terms, nd, i, tau, h.committed[tau]);
      HasVia(r.log, nd.log, h.reigns[tau].log, |r.log|, h.committed[tau]);
      assert r.log[..|r.log|] == r.log;
    }
  }

  lemma WinnerOpens(h: History, terms: seq<nat>, i: nat, nd: Node)
    requires HistoryOK(h, |terms|) && VotesKeep(h, terms) && VotesDated(h, terms)
    requires NodeOK(h, i, nd, |terms|) && Wins(nd, i, |terms|)
    ensures TermOpen(h, nd)
  {
    if nd.term in h.reigns {
      WonBefore(h, i, nd, |terms|);
      assert ReignOK(h, |terms|, nd.term);
      NothingCommitted(h, terms, nd.term);
      SuccessorHas(h, terms, nd, i, h.reigns[nd.term]);
    } else {
      NothingCommitted(h, terms, nd.term);
    }
  }

  lemma Elect(s: System, h: History, i: nat) returns (k: History)
    requires Inv(s, h) && i < |s.nodes|
    ensures Inv(System(s.nodes[i := BecomeLeaderIfQuorum(s.nodes[i])], s.net), k) && Extends(h, k)
  {
    var nd, peers := s.nodes[i], |s.nodes|;
    var nd2 := BecomeLeaderIfQuorum(nd);
    assert NodeOK(h, i, nd, peers);
    if Wins(nd, i, peers) {
      VotesAreDated(h, s.nodes);
      WinnerOpens(h, Terms(s.nodes), i, nd);
      ElectHistory(h, i, nd, nd2.log, peers);
      ElectNode(h, i, nd, peers);
      k := Crowned(h, i, nd, nd2.log);
      Win(s, h, i, nd2, System(s.nodes[i := nd2], s.net), k);
    } else {
      assert s.nodes[i := nd2] == s.nodes;
      ExtendsSelf(h);
      k := h;
    }
  }
}
