/** What a step of one node leaves true of everybody else. */
module RaftFrame {
  import opened OrderStatistics
  import opened RaftTypes
  import opened RaftSystem
  import opened RaftInvariant
  import opened RaftGrowth

  /** Node i moved from terms[i] to terms2[i] and confirmed entries only in its new term. */
  ghost predicate Advances(h: History, k: History, i: nat, terms: seq<nat>, terms2: seq<nat>) {
    exists n: nat :: n == i && AdvancesBy(h, k, n, terms, terms2)
  }

  ghost predicate AdvancesBy(h: History, k: History, i: nat, terms: seq<nat>, terms2: seq<nat>) {
    Extends(h, k) && OnlyBy(h, k, i)
    && i < |terms| && |terms| == |terms2| && terms[i] <= terms2[i] && terms2 == terms[i := terms2[i]]
    && (forall t :: t != terms2[i] ==> Acked(k, i, t) == Acked(h, i, t))
  }

  lemma SupportersShrink(h: History, k: History, i: nat, terms: seq<nat>, terms2: seq<nat>, t: nat, n: nat)
    requires Advances(h, k, i, terms, terms2)
    ensures Choosable(k, terms2, t, n) ==> Choosable(h, terms, t, n)
  {
    var a, b := Supporters(k, terms2, t, n), Supporters(h, terms, t, n);
    forall v | v in a ensures v in b {
      if v == i {
        assert terms[v] <= t || Acked(k, v, t) == Acked(h, v, t);
      } else {
        assert terms2[v] == terms[v] && Acked(k, v, t) == Acked(h, v, t);
      }
    }
    SubsetSize(a, b);
  }

  /** A confirmed entry was already there when it was confirmed. */
  lemma AckedIsOld(h: History, k: History, peers: nat, v: nat, t: nat, n: nat)
    requires Extends(h, k) && AcksOK(h, peers)
    requires OwnEntry(k, t, n) && Acked(h, v, t) >= n
    ensures OwnEntry(h, t, n) && Has(k.reigns[t].log, h.reigns[t].log, n)
  {
    assert AckOK(h, peers, v, t);
  }

  lemma OthersKeep(h: History, k: History, i: nat, terms: seq<nat>, terms2: seq<nat>, j: nat, log: Log)
    requires Advances(h, k, i, terms, terms2) && AcksOK(h, |terms|)
    requires j != i && LogKeeps(h, terms, j, log)
    ensures LogKeeps(k, terms2, j, log)
  {
    forall t: nat, n: nat | OwnEntry(k, t, n) && Acked(k, j, t) >= n && Choosable(k, terms2, t, n)
      ensures Has(log, k.reigns[t].log, n)
    {
      AckedIsOld(h, k, |terms|, j, t, n);
      SupportersShrink(h, k, i, terms, terms2, t, n);
      assert Has(log, h.reigns[t].log, n);
    }
  }

  lemma OldVoteKeeps(h: History, k: History, i: nat, terms: seq<nat>, terms2: seq<nat>, v: Vote)
    requires Advances(h, k, i, terms, terms2) && AcksOK(h, |terms|)
    requires v in h.votes && VoteKeeps(h, terms, v) && (v.voter == i ==> v.term <= terms2[i])
    ensures VoteKeeps(k, terms2, v)
  {
    forall t: nat, n: nat |
      OwnEntry(k, t, n) && t < v.term && Acked(k, v.voter, t) >= n && Choosable(k, terms2, t, n)
      ensures Has(k.candLogs[(v.term, v.cand)], k.reigns[t].log, n)
    {
      AckedIsOld(h, k, |terms|, v.voter, t, n);
      SupportersShrink(h, k, i, terms, terms2, t, n);
      assert Has(h.candLogs[(v.term, v.cand)], h.reigns[t].log, n);
    }
  }

  lemma OpeningStays(h: History, k: History, terms: seq<nat>, terms2: seq<nat>, id: RoundId)
    requires Extends(h, k) && |terms| == |terms2| && forall v :: 0 <= v < |terms| ==> terms[v] <= terms2[v]
    requires id in h.openings && OpeningOK(h, terms, id)
    ensures OpeningOK(k, terms2, id)
  {
    forall tau | tau in h.openings[id].committed ensures tau in h.reigns && ReignGrew(h, k, tau) {}
  }

  /** Leaders keep what they had, when no leader log changed. */
  lemma SameReignsKeep(h: History, k: History, i: nat, terms: seq<nat>, terms2: seq<nat>)
    requires Advances(h, k, i, terms, terms2) && LeadersKeep(h, terms) && k.reigns == h.reigns
    ensures LeadersKeep(k, terms2)
  {
    forall t: nat, n: nat, t2: nat |
      OwnEntry(k, t, n) && t < t2 && t2 in k.reigns && Choosable(k, terms2, t, n)
      ensures Has(k.reigns[t2].log, k.reigns[t].log, n)
    {
      SupportersShrink(h, k, i, terms, terms2, t, n);
      assert OwnEntry(h, t, n);
    }
  }

  lemma NodesStay(h: History, k: History, i: nat, nodes: seq<Node>, nd: Node)
    requires Extends(h, k) && OnlyBy(h, k, i) && NodesOK(h, nodes) && i < |nodes| && NodeOK(k, i, nd, |nodes|)
    ensures NodesOK(k, nodes[i := nd])
  {
    var nodes2 := nodes[i := nd];
    forall j: nat | j < |nodes2| ensures NodeOK(k, j, nodes2[j], |nodes2|) {
      if j != i { NodeGrows(h, k, i, j, nodes[j], |nodes|); }
    }
  }

  lemma LogsStay(h: History, k: History, i: nat, terms: seq<nat>, terms2: seq<nat>, nodes: seq<Node>, nd: Node)
    requires Advances(h, k, i, terms, terms2) && AcksOK(h, |terms|) && LogsKeep(h, terms, nodes) && i < |nodes|
    requires LogKeeps(k, terms2, i, nd.log)
    ensures LogsKeep(k, terms2, nodes[i := nd])
  {
    var nodes2 := nodes[i := nd];
    forall j: nat | j < |nodes2| ensures LogKeeps(k, terms2, j, nodes2[j].log) {
      if j != i { OthersKeep(h, k, i, terms, terms2, j, nodes[j].log); }
    }
  }

  lemma NetStays(h: History, k: History, net: set<Msg>, sent: set<Msg>, peers: nat)
    requires Extends(h, k) && NetOK(h, net, peers) && NetOK(k, sent, peers)
    ensures NetOK(k, net + sent, peers)
  {
    forall m | m in net ensures MsgOK(k, m, peers) { MsgGrows(h, k, m, peers); }
  }

  ghost predicate NewVotesKeep(h: History, k: History, terms2: seq<nat>) {
    forall v :: v in k.votes && v !in h.votes ==> VoteKeeps(k, terms2, v)
  }

  lemma VotesStay(h: History, k: History, i: nat, terms: seq<nat>, terms2: seq<nat>)
    requires Advances(h, k, i, terms, terms2) && AcksOK(h, |terms|) && VotesKeep(h, terms)
    requires TermsCover(h, i, terms[i]) && NewVotesKeep(h, k, terms2)
    ensures VotesKeep(k, terms2)
  {
    forall v | v in k.votes ensures VoteKeeps(k, terms2, v) {
      if v in h.votes {
        assert v == Vote(v.voter, v.term, v.cand);
        OldVoteKeeps(h, k, i, terms, terms2, v);
      }
    }
  }

  ghost predicate NewOpeningsOK(h: History, k: History, terms2: seq<nat>) {
    forall id :: id in k.openings && id !in h.openings ==>
      id.ctx >= 1 && id.term in k.reigns && OpeningOK(k, terms2, id)
  }

  lemma OpeningsStay(h: History, k: History, terms: seq<nat>, terms2: seq<nat>)
    requires Extends(h, k) && |terms| == |terms2| && forall v :: 0 <= v < |terms| ==> terms[v] <= terms2[v]
    requires OpeningsOK(h, terms) && NewOpeningsOK(h, k, terms2)
    ensures OpeningsOK(k, terms2)
  {
    forall id | id in k.openings && id in h.openings
      ensures id.ctx >= 1 && id.term in k.reigns && OpeningOK(k, terms2, id)
    {
      assert ReignGrew(h, k, id.term);
      OpeningStays(h, k, terms, terms2, id);
    }
  }

  ghost predicate NodeSide(s: System, h: History) {
    NodesOK(h, s.nodes) && LogsKeep(h, Terms(s.nodes), s.nodes)
  }

  ghost predicate OtherSide(s: System, h: History) {
    NetOK(h, s.net, |s.nodes|) && VotesKeep(h, Terms(s.nodes)) && OpeningsOK(h, Terms(s.nodes))
  }

  lemma AssembleNodes(s: System, h: History, i: nat, nd: Node, s2: System, k: History)
    requires NodeSide(s, h) && AcksOK(h, |s.nodes|) && i < |s.nodes| && s2.nodes == s.nodes[i := nd]
    requires Advances(h, k, i, Terms(s.nodes), Terms(s2.nodes))
    requires NodeOK(k, i, nd, |s.nodes|) && LogKeeps(k, Terms(s2.nodes), i, nd.log)
    ensures NodeSide(s2, k)
  {
    NodesStay(h, k, i, s.nodes, nd);
    LogsStay(h, k, i, Terms(s.nodes), Terms(s2.nodes), s.nodes, nd);
  }

  lemma AssembleOthers(s: System, h: History, i: nat, s2: System, k: History)
    requires OtherSide(s, h) && AcksOK(h, |s.nodes|) && i < |s.nodes| == |s2.nodes| && s.net <= s2.net
    requires TermsCover(h, i, s.nodes[i].term)
    requires Advances(h, k, i, Terms(s.nodes), Terms(s2.nodes))
    requires NetOK(k, s2.net - s.net, |s.nodes|)
    requires NewVotesKeep(h, k, Terms(s2.nodes)) && NewOpeningsOK(h, k, Terms(s2.nodes))
    ensures OtherSide(s2, k)
  {
    NetStays(h, k, s.net, s2.net - s.net, |s.nodes|);
    assert s2.net == s.net + (s2.net - s.net);
    VotesStay(h, k, i, Terms(s.nodes), Terms(s2.nodes));
    OpeningsStay(h, k, Terms(s.nodes), Terms(s2.nodes));
  }

  lemma SameTermAdvances(h: History, k: History, i: nat, t: nat, terms: seq<nat>)
    requires i < |terms| && terms[i] == t && Extends(h, k) && OnlyBy(h, k, i)
    requires forall u :: u != t ==> Acked(k, i, u) == Acked(h, i, u)
    ensures Advances(h, k, i, terms, terms)
  {
    assert AdvancesBy(h, k, i, terms, terms);
  }

  lemma PutTwice(nodes: seq<Node>, i: nat, a: Node, b: Node)
    requires i < |nodes|
    ensures nodes[i := a][i := b] == nodes[i := b]
  {
  }

  lemma PutBack(nodes: seq<Node>, i: nat)
    requires i < |nodes|
    ensures nodes[i := nodes[i]] == nodes
  {
  }

  /** A node that stays in its term leaves the terms as they are. */
  lemma SameTerms(nodes: seq<Node>, i: nat, nd: Node)
    requires i < |nodes| && nd.term == nodes[i].term
    ensures Terms(nodes[i := nd]) == Terms(nodes)
  {
  }

  lemma InvIs(s: System, h: History)
    requires HistoryOK(h, |s.nodes|) && NodeSide(s, h) && LeadersKeep(h, Terms(s.nodes)) && OtherSide(s, h)
    ensures Inv(s, h)
  {
    assert InvAt(s, h, Terms(s.nodes));
  }

  /** Putting a step together: only what the acting node did remains to be shown. */
  lemma Assemble(s: System, h: History, i: nat, nd: Node, s2: System, k: History)
    requires Inv(s, h) && i < |s.nodes| && s2.nodes == s.nodes[i := nd] && s.net <= s2.net
    requires Advances(h, k, i, Terms(s.nodes), Terms(s2.nodes))
    requires HistoryOK(k, |s.nodes|) && NodeOK(k, i, nd, |s.nodes|) && NetOK(k, s2.net - s.net, |s.nodes|)
    requires LeadersKeep(k, Terms(s2.nodes)) && NewVotesKeep(h, k, Terms(s2.nodes))
    requires LogKeeps(k, Terms(s2.nodes), i, nd.log)
    requires NewOpeningsOK(h, k, Terms(s2.nodes))
    ensures Inv(s2, k)
  {
    AssembleNodes(s, h, i, nd, s2, k);
    AssembleOthers(s, h, i, s2, k);
    InvIs(s2, k);
  }

  /** A step that records nothing: neither log nor history changes. */
  lemma Quiet(s: System, h: History, i: nat, nd: Node, s2: System)
    requires Inv(s, h) && i < |s.nodes| && s2.nodes == s.nodes[i := nd] && s.net <= s2.net
    requires s.nodes[i].term <= nd.term && nd.log == s.nodes[i].log && NodeOK(h, i, nd, |s.nodes|)
    requires NetOK(h, s2.net - s.net, |s.nodes|)
    ensures Inv(s2, h)
  {
    var terms, terms2 := Terms(s.nodes), Terms(s2.nodes);
    QuietAdvance(h, i, terms, terms2);
    SameReignsKeep(h, h, i, terms, terms2);
    LogStays(h, h, i, terms, terms2, nd.log);
    Assemble(s, h, i, nd, s2, h);
  }

  lemma QuietAdvance(h: History, i: nat, terms: seq<nat>, terms2: seq<nat>)
    requires i < |terms| && |terms| == |terms2| && terms[i] <= terms2[i]
    requires forall v :: 0 <= v < |terms| && v != i ==> terms[v] == terms2[v]
    ensures Advances(h, h, i, terms, terms2)
  {
    ExtendsSelf(h);
    assert AdvancesBy(h, h, i, terms, terms2);
  }

  lemma LogStays(h: History, k: History, i: nat, terms: seq<nat>, terms2: seq<nat>, log: Log)
    requires Advances(h, k, i, terms, terms2) && k.reigns == h.reigns && k.acked == h.acked
    requires LogKeeps(h, terms, i, log)
    ensures LogKeeps(k, terms2, i, log)
  {
    forall t: nat, n: nat | OwnEntry(k, t, n) && Acked(k, i, t) >= n && Choosable(k, terms2, t, n)
      ensures Has(log, k.reigns[t].log, n)
    {
      SupportersShrink(h, k, i, terms, terms2, t, n);
      assert OwnEntry(h, t, n);
    }
  }
}
