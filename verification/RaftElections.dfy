/** Stepping down, standing, voting, winning: each keeps the invariant. */
module RaftElections {
  import opened Wrappers
  import opened OrderStatistics
  import opened RaftTypes
  import opened RaftRules
  import opened RaftSystem
  import opened RaftInvariant
  import opened RaftGrowth
  import opened RaftFrame

  /** A candidate or a leader may withdraw inside its term; anyone may move to a higher term. */
  lemma ConvertOK(h: History, i: nat, nd: Node, peers: nat, t: nat)
    requires NodeOK(h, i, nd, peers)
    requires t > nd.term || (t == nd.term && nd.role != Follower)
    ensures NodeOK(h, i, ConvertToFollower(nd, t), peers)
  {
    ExtendsSelf(h);
    NodeLogGrows(h, h, nd, ConvertToFollower(nd, t));
    assert NodeFits(h, i, ConvertToFollower(nd, t), peers);
  }

  lemma ConvertKeeps(s: System, h: History, i: nat, t: nat)
    requires Inv(s, h) && i < |s.nodes|
    requires t > s.nodes[i].term || (t == s.nodes[i].term && s.nodes[i].role != Follower)
    ensures Inv(System(s.nodes[i := ConvertToFollower(s.nodes[i], t)], s.net), h)
  {
    ConvertOK(h, i, s.nodes[i], |s.nodes|, t);
    Quiet(s, h, i, ConvertToFollower(s.nodes[i], t), System(s.nodes[i := ConvertToFollower(s.nodes[i], t)], s.net));
  }

  // -------------------------------------------------------- growing history

  lemma ReignGrows(h: History, k: History, peers: nat, t: nat)
    requires Extends(h, k) && t in h.reigns && ReignOK(h, peers, t) && t in k.reigns && k.reigns[t] == h.reigns[t]
    requires h.reigns[t].inherited < |h.reigns[t].log|
      ==> forall c: nat :: Vote(h.reigns[t].leader, t, c) in k.votes ==> c == h.reigns[t].leader
    ensures ReignOK(k, peers, t)
  {
    var log := h.reigns[t].log;
    GroundedGrows(h, k, log);
    if h.reigns[t].inherited == |log| { BackingGrows(h, k, log, log, |log|, t); }
  }

  /** New votes cast by nodes that lead no term, or wrote nothing in it, are no trouble to its leader. */
  lemma ReignsGrow(h: History, k: History, peers: nat)
    requires Extends(h, k) && k.reigns == h.reigns && ReignsOK(h, peers)
    requires forall v ::
      v in k.votes && v !in h.votes && v.term in h.reigns && h.reigns[v.term].leader == v.voter
      ==> v.cand == v.voter || h.reigns[v.term].inherited == |h.reigns[v.term].log|
    ensures ReignsOK(k, peers)
  {
    forall t | t in k.reigns ensures ReignOK(k, peers, t) {
      assert ReignOK(h, peers, t);
      var r := h.reigns[t];
      forall c: nat | r.inherited < |r.log| && Vote(r.leader, t, c) in k.votes ensures c == r.leader {
        var v := Vote(r.leader, t, c);
        assert v in h.votes || v.cand == v.voter;
      }
      ReignGrows(h, k, peers, t);
    }
  }

  lemma CandsGrow(h: History, k: History)
    requires Extends(h, k) && CandsOK(h) && k.candLogs == h.candLogs
    ensures CandsOK(k)
  {
    forall t, c | (t, c) in k.candLogs ensures CandOK(k, t, c) {
      assert CandOK(h, t, c);
      GroundedGrows(h, k, h.candLogs[(t, c)]);
    }
  }

  lemma CommitsGrow(h: History, k: History, peers: nat)
    requires Extends(h, k) && CommitsOK(h, peers) && k.committed == h.committed
    ensures CommitsOK(k, peers)
  {
    forall t | t in k.committed ensures CommittedOK(k, peers, t) {
      assert CommittedOK(h, peers, t);
      BackersGrow(h, k, peers, t, h.committed[t]);
    }
  }

  lemma BackersGrow(h: History, k: History, peers: nat, t: nat, n: nat)
    requires Extends(h, k)
    ensures |Backers(h, peers, t, n)| <= |Backers(k, peers, t, n)|
  {
    var a, b := Backers(h, peers, t, n), Backers(k, peers, t, n);
    forall v | v in a ensures v in b {
      assert Acked(h, v, t) <= Acked(k, v, t);
    }
    SubsetSize(a, b);
  }

  // --------------------------------------------------------------- standing

  ghost function Stood(h: History, i: nat, nd: Node): History {
    h.(candLogs := h.candLogs[(nd.term + 1, i) := nd.log], votes := h.votes + {Vote(i, nd.term + 1, i)})
  }

  lemma StoodExtends(h: History, i: nat, nd: Node)
    requires (nd.term + 1, i) !in h.candLogs
    ensures Extends(h, Stood(h, i, nd)) && OnlyBy(h, Stood(h, i, nd), i)
  {
    assert ExtendsOver(h, Stood(h, i, nd), h.votes);
  }

  lemma StoodCands(h: History, i: nat, nd: Node)
    requires Extends(h, Stood(h, i, nd)) && CandsOK(h) && Grounded(h, nd.log) && TermsUpTo(nd.log, nd.term)
    ensures CandsOK(Stood(h, i, nd))
  {
    var k := Stood(h, i, nd);
    forall t, c | (t, c) in k.candLogs ensures CandOK(k, t, c) {
      assert (t, c) in h.candLogs ==> CandOK(h, t, c);
      GroundedGrows(h, k, k.candLogs[(t, c)]);
    }
  }

  lemma StoodHistory(h: History, i: nat, nd: Node, peers: nat)
    requires HistoryOK(h, peers) && i < peers && Grounded(h, nd.log) && TermsUpTo(nd.log, nd.term)
    requires Extends(h, Stood(h, i, nd))
    ensures HistoryOK(Stood(h, i, nd), peers)
  {
    var k := Stood(h, i, nd);
    ReignsGrow(h, k, peers);
    StoodCands(h, i, nd);
    CommitsGrow(h, k, peers);
    assert HistoryFits(k, peers);
  }

  lemma StoodNode(h: History, i: nat, nd: Node, peers: nat)
    requires NodeOK(h, i, nd, peers) && i < peers && Extends(h, Stood(h, i, nd))
    ensures NodeOK(Stood(h, i, nd), i, Candidacy(nd), peers)
  {
    NodeLogGrows(h, Stood(h, i, nd), nd, Candidacy(nd));
    StoodVote(h, i, nd);
    assert NodeFits(Stood(h, i, nd), i, Candidacy(nd), peers);
  }

  lemma StoodVote(h: History, i: nat, nd: Node)
    requires NodeVote(h, i, nd) && Extends(h, Stood(h, i, nd))
    ensures NodeVote(Stood(h, i, nd), i, Candidacy(nd))
  {
  }

  lemma SelfVoteKeeps(h: History, k: History, i: nat, nd: Node, terms: seq<nat>, terms2: seq<nat>)
    requires k == Stood(h, i, nd) && Advances(h, k, i, terms, terms2) && LogKeeps(h, terms, i, nd.log)
    ensures NewVotesKeep(h, k, terms2)
  {
    forall t: nat, n: nat | OwnEntry(k, t, n) && Acked(k, i, t) >= n && Choosable(k, terms2, t, n)
      ensures Has(nd.log, k.reigns[t].log, n)
    {
      assert OwnEntry(h, t, n);
      SupportersShrink(h, k, i, terms, terms2, t, n);
    }
  }

  lemma StoodAdvances(h: History, k: History, i: nat, terms: seq<nat>, terms2: seq<nat>)
    requires Extends(h, k) && OnlyBy(h, k, i) && k.acked == h.acked
    requires i < |terms| == |terms2| && terms[i] <= terms2[i]
    requires forall v :: 0 <= v < |terms| && v != i ==> terms[v] == terms2[v]
    ensures Advances(h, k, i, terms, terms2)
  {
    assert AdvancesBy(h, k, i, terms, terms2);
  }

  lemma Stand(s: System, h: History, i: nat) returns (k: History)
    requires Inv(s, h) && i < |s.nodes|
    ensures Inv(System(s.nodes[i := Candidacy(s.nodes[i])], s.net), k) && Extends(h, k)
  {
    var nd := s.nodes[i];
    k := Stood(h, i, nd);
    var s2 := System(s.nodes[i := Candidacy(nd)], s.net);
    var terms, terms2 := Terms(s.nodes), Terms(s2.nodes);
    StoodExtends(h, i, nd);
    StoodHistory(h, i, nd, |s.nodes|);
    StoodNode(h, i, nd, |s.nodes|);
    StoodAdvances(h, k, i, terms, terms2);
    SelfVoteKeeps(h, k, i, nd, terms, terms2);
    SameReignsKeep(h, k, i, terms, terms2);
    LogStays(h, k, i, terms, terms2, nd.log);
    Assemble(s, h, i, Candidacy(nd), s2, k);
  }

  // ----------------------------------------------------------------- voting

  /** The up-to-date check: a log that passes it has whatever can still be chosen of the voter's. */
  lemma UpToDateHas(h: History, terms: seq<nat>, mine: Log, cand: Log, t: nat, n: nat, peers: nat)
    requires ReignsOK(h, peers) && LeadersKeep(h, terms)
    requires Grounded(h, mine) && NumberedAndOrdered(mine) && Grounded(h, cand)
    requires OwnEntry(h, t, n) && Choosable(h, terms, t, n) && Has(mine, h.reigns[t].log, n)
    requires UpToDate(mine, |cand|, LastTerm(cand))
    ensures Has(cand, h.reigns[t].log, n)
  {
    assert ReignOK(h, peers, t);
    assert mine[n - 1].term == t by { assert mine[..n][n - 1] == h.reigns[t].log[..n][n - 1]; }
    assert FromLeader(h, mine, |mine| - 1);
    assert |cand| > 0;
    var tau := LastTerm(cand);
    assert FromLeader(h, cand, |cand| - 1);
    var own := h.reigns[tau].log;
    assert cand == own[..|cand|];
    if tau == t {
      assert mine == own[..|mine|];
      assert cand[..n] == own[..n];
    } else {
      assert Has(own, h.reigns[t].log, n);
      assert ReignOK(h, peers, tau);
      assert own[n - 1].term == t by { assert own[..n][n - 1] == h.reigns[t].log[..n][n - 1]; }
      assert own[|cand| - 1] == cand[|cand| - 1];
      assert n <= |cand|;
      assert cand[..n] == own[..n];
    }
  }

  ghost function Granted(h: History, i: nat, t: nat, c: nat): History {
    h.(votes := h.votes + {Vote(i, t, c)})
  }

  lemma GrantedExtends(h: History, i: nat, t: nat, c: nat)
    ensures Extends(h, Granted(h, i, t, c)) && OnlyBy(h, Granted(h, i, t, c), i)
  {
    assert ExtendsOver(h, Granted(h, i, t, c), h.votes);
  }

  /** Node i may vote for c in term t: it wrote nothing as leader of t, and voted for nobody else but itself. */
  ghost predicate MayVote(h: History, i: nat, t: nat, c: nat) {
    c != i && (t, c) in h.candLogs
    && (t in h.reigns && h.reigns[t].leader == i ==> h.reigns[t].inherited == |h.reigns[t].log|)
    && (forall a :: a in h.votes && a.voter == i && a.term == t && a.cand != i ==> a.cand == c)
  }

  lemma GrantedHistory(h: History, i: nat, t: nat, c: nat, peers: nat)
    requires HistoryOK(h, peers) && i < peers && MayVote(h, i, t, c)
    ensures HistoryOK(Granted(h, i, t, c), peers)
  {
    var k := Granted(h, i, t, c);
    GrantedExtends(h, i, t, c);
    ReignsGrow(h, k, peers);
    CandsGrow(h, k);
    CommitsGrow(h, k, peers);
    assert HistoryFits(k, peers);
  }

  /** A leader that wrote something in its term finds no later candidate of that term up to date. */
  lemma WritersRefuse(h: History, nd: Node, c: nat, peers: nat)
    requires ReignsOK(h, peers) && CandsOK(h) && (nd.term, c) in h.candLogs && nd.term in h.reigns
    requires nd.log == h.reigns[nd.term].log
    requires UpToDate(nd.log, |h.candLogs[(nd.term, c)]|, LastTerm(h.candLogs[(nd.term, c)]))
    ensures h.reigns[nd.term].inherited == |nd.log|
  {
    var cand := h.candLogs[(nd.term, c)];
    assert ReignOK(h, peers, nd.term) && CandOK(h, nd.term, c);
    assert LastTerm(cand) <= nd.term - 1;
  }

  lemma NodeMayVote(h: History, i: nat, nd: Node, c: nat, peers: nat)
    requires NodeOK(h, i, nd, peers) && (nd.term, c) in h.candLogs && ReignsOK(h, peers) && CandsOK(h)
    requires c != i && (nd.votedFor == None || nd.votedFor == Some(c))
    requires UpToDate(nd.log, |h.candLogs[(nd.term, c)]|, LastTerm(h.candLogs[(nd.term, c)]))
    ensures MayVote(h, i, nd.term, c)
  {
    forall a | a in h.votes && a.voter == i && a.term == nd.term && a.cand != i ensures a.cand == c {
      assert a == Vote(i, nd.term, a.cand);
    }
    if nd.term in h.reigns && h.reigns[nd.term].leader == i { WritersRefuse(h, nd, c, peers); }
  }

  lemma GrantedNode(h: History, i: nat, nd: Node, c: nat, peers: nat)
    requires NodeOK(h, i, nd, peers) && i < peers && Extends(h, Granted(h, i, nd.term, c))
    requires c != i && (nd.votedFor == None || nd.votedFor == Some(c))
    ensures NodeOK(Granted(h, i, nd.term, c), i, nd.(votedFor := Some(c)), peers)
  {
    NodeLogGrows(h, Granted(h, i, nd.term, c), nd, nd.(votedFor := Some(c)));
    assert NodeFits(Granted(h, i, nd.term, c), i, nd.(votedFor := Some(c)), peers);
  }

  lemma GrantKeeps(h: History, k: History, i: nat, nd: Node, c: nat, terms: seq<nat>, peers: nat)
    requires k == Granted(h, i, nd.term, c) && Advances(h, k, i, terms, terms) && |terms| == peers
    requires HistoryOK(h, peers) && LeadersKeep(h, terms) && LogKeeps(h, terms, i, nd.log)
    requires NodeOK(h, i, nd, peers) && (nd.term, c) in h.candLogs
    requires UpToDate(nd.log, |h.candLogs[(nd.term, c)]|, LastTerm(h.candLogs[(nd.term, c)]))
    ensures NewVotesKeep(h, k, terms)
  {
    var cand := h.candLogs[(nd.term, c)];
    assert CandOK(h, nd.term, c);
    forall t: nat, n: nat | OwnEntry(k, t, n) && Acked(k, i, t) >= n && Choosable(k, terms, t, n)
      ensures Has(cand, k.reigns[t].log, n)
    {
      assert OwnEntry(h, t, n);
      SupportersShrink(h, k, i, terms, terms, t, n);
      UpToDateHas(h, terms, nd.log, cand, t, n, peers);
    }
  }

  lemma Grant(s: System, h: History, i: nat, c: nat) returns (k: History)
    requires Inv(s, h) && i < |s.nodes| && c != i
    requires s.nodes[i].votedFor == None || s.nodes[i].votedFor == Some(c)
    requires (s.nodes[i].term, c) in h.candLogs
    requires var cand := h.candLogs[(s.nodes[i].term, c)]; UpToDate(s.nodes[i].log, |cand|, LastTerm(cand))
    ensures Inv(System(s.nodes[i := s.nodes[i].(votedFor := Some(c))], s.net), k) && Extends(h, k)
    ensures Vote(i, s.nodes[i].term, c) in k.votes
  {
    var nd := s.nodes[i];
    k := Granted(h, i, nd.term, c);
    var s2 := System(s.nodes[i := nd.(votedFor := Some(c))], s.net);
    var terms := Terms(s.nodes);
    SameTerms(s.nodes, i, nd.(votedFor := Some(c)));
    GrantedExtends(h, i, nd.term, c);
    NodeMayVote(h, i, nd, c, |s.nodes|);
    GrantedHistory(h, i, nd.term, c, |s.nodes|);
    GrantedNode(h, i, nd, c, |s.nodes|);
    SameTermAdvances(h, k, i, nd.term, terms);
    GrantKeeps(h, k, i, nd, c, terms, |s.nodes|);
    SameReignsKeep(h, k, i, terms, terms);
    LogStays(h, k, i, terms, terms, nd.log);
    Assemble(s, h, i, nd.(votedFor := Some(c)), s2, k);
  }
}
