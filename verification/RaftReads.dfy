/** Opening and confirming a read round keeps the invariant. */
module RaftReads {
  import opened RaftTypes
  import opened RaftRules
  import opened RaftSystem
  import opened RaftInvariant
  import opened RaftGrowth
  import opened RaftFrame
  import opened RaftElections
  import opened RaftLeaders
  import opened RaftReplication

  ghost function Opened(h: History, i: nat, nd: Node, terms: seq<nat>): History {
    h.(openings := h.openings[RoundId(i, nd.term, nd.nextCtx) := Opening(terms, h.committed, nd.commit)])
  }

  /** A leader whose commit index passed the safe point has every commit of its past. */
  lemma CommitCovers(h: History, terms: seq<nat>, i: nat, nd: Node, tau: nat)
    requires ReignsOK(h, |terms|) && CommitsOK(h, |terms|) && LeadersKeep(h, terms) && LeaderOK(h, i, nd)
    requires nd.commit >= nd.readSafe && tau in h.committed && tau <= nd.term
    ensures h.committed[tau] <= nd.commit
  {
    if tau < nd.term {
      CommittedInLeader(h, terms, tau, nd.term);
      var n, own := h.committed[tau], h.reigns[nd.term].log;
      assert ReignOK(h, |terms|, nd.term);
      assert own[n - 1].term == tau by { assert own[..n][n - 1] == h.reigns[tau].log[..n][n - 1]; }
    }
  }

  lemma OpenedOpening(h: History, terms: seq<nat>, i: nat, nd: Node)
    requires ReignsOK(h, |terms|) && CommitsOK(h, |terms|) && LeadersKeep(h, terms) && VotesDated(h, terms)
    requires LeaderOK(h, i, nd) && nd.commit >= nd.readSafe
    ensures OpeningOK(Opened(h, i, nd, terms), terms, RoundId(i, nd.term, nd.nextCtx))
  {
    var k := Opened(h, i, nd, terms);
    forall tau | tau in h.committed ensures tau in h.reigns && (tau <= nd.term ==> h.committed[tau] <= nd.commit) {
      assert CommittedOK(h, |terms|, tau);
      if tau <= nd.term { CommitCovers(h, terms, i, nd, tau); }
    }
    forall tau, v | tau in h.committed && v in h.reigns[tau].voters ensures v < |terms| && terms[v] >= tau {
      assert CommittedOK(h, |terms|, tau) && ReignOK(h, |terms|, tau);
      assert Vote(v, tau, h.reigns[tau].leader) in h.votes;
    }
  }

  lemma OpenedExtends(h: History, i: nat, nd: Node, terms: seq<nat>)
    requires nd.term in h.reigns && h.reigns[nd.term].leader == i && RoundId(i, nd.term, nd.nextCtx) !in h.openings
    ensures Extends(h, Opened(h, i, nd, terms)) && OnlyBy(h, Opened(h, i, nd, terms), i)
  {
    assert ExtendsOver(h, Opened(h, i, nd, terms), h.votes);
  }

  lemma OpenedHistory(h: History, i: nat, nd: Node, terms: seq<nat>, peers: nat)
    requires HistoryOK(h, peers) && Extends(h, Opened(h, i, nd, terms))
    ensures HistoryOK(Opened(h, i, nd, terms), peers)
  {
    var k := Opened(h, i, nd, terms);
    ReignsGrow(h, k, peers);
    CandsGrow(h, k);
    CommitsGrow(h, k, peers);
    assert HistoryFits(k, peers);
  }

  lemma OpenedNode(h: History, i: nat, nd: Node, terms: seq<nat>)
    requires NodeOK(h, i, nd, |terms|) && i < |terms| && terms[i] == nd.term && MayOpenRead(nd)
    requires Extends(h, Opened(h, i, nd, terms))
    ensures NodeOK(Opened(h, i, nd, terms), i, OpenRead(nd), |terms|)
  {
    NodeLogGrows(h, Opened(h, i, nd, terms), nd, OpenRead(nd));
    OpenedLeader(h, i, nd, terms);
    assert NodeFits(Opened(h, i, nd, terms), i, OpenRead(nd), |terms|);
  }

  lemma OpenedLeader(h: History, i: nat, nd: Node, terms: seq<nat>)
    requires LeaderOK(h, i, nd) && nd.me == i < |terms| && terms[i] == nd.term && nd.peers == |terms| && MayOpenRead(nd)
    ensures LeaderOK(Opened(h, i, nd, terms), i, OpenRead(nd))
  {
    forall j: nat | j < |nd.matched| ensures nd.matched[j] <= Acked(Opened(h, i, nd, terms), j, nd.term) {
      assert nd.matched[j] <= Acked(h, j, nd.term);
    }
  }

  lemma OpenHistory(h: History, nodes: seq<Node>, i: nat, k: History)
    requires i < |nodes| && MayOpenRead(nodes[i]) && k == Opened(h, i, nodes[i], Terms(nodes))
    requires HistoryOK(h, |nodes|) && NodesOK(h, nodes) && LeadersKeep(h, Terms(nodes))
    ensures Extends(h, k) && OnlyBy(h, k, i) && HistoryOK(k, |nodes|)
    ensures NodeOK(k, i, OpenRead(nodes[i]), |nodes|) && NewOpeningsOK(h, k, Terms(nodes))
  {
    var nd := nodes[i];
    assert NodeOK(h, i, nd, |nodes|);
    OpenedExtends(h, i, nd, Terms(nodes));
    OpenedHistory(h, i, nd, Terms(nodes), |nodes|);
    OpenedNode(h, i, nd, Terms(nodes));
    VotesAreDated(h, nodes);
    OpenedOpening(h, Terms(nodes), i, nd);
  }

  lemma OpenKept(h: History, k: History, i: nat, nodes: seq<Node>, nd2: Node, nodes2: seq<Node>)
    requires i < |nodes| && nodes2 == nodes[i := nd2] && nd2.term == nodes[i].term && nd2.log == nodes[i].log
    requires k == h.(openings := k.openings) && Extends(h, k) && OnlyBy(h, k, i)
    requires LeadersKeep(h, Terms(nodes)) && LogsKeep(h, Terms(nodes), nodes) && NewOpeningsOK(h, k, Terms(nodes))
    ensures Advances(h, k, i, Terms(nodes), Terms(nodes2)) && NewOpeningsOK(h, k, Terms(nodes2))
    ensures LeadersKeep(k, Terms(nodes2)) && LogKeeps(k, Terms(nodes2), i, nd2.log)
  {
    SameTerms(nodes, i, nd2);
    assert AdvancesBy(h, k, i, Terms(nodes), Terms(nodes));
    SameReignsKeep(h, k, i, Terms(nodes), Terms(nodes));
    LogStays(h, k, i, Terms(nodes), Terms(nodes), nd2.log);
  }

  lemma ReadOpenKeeps(s: System, h: History, i: nat) returns (k: History)
    requires Inv(s, h) && i < |s.nodes| && MayOpenRead(s.nodes[i])
    ensures Inv(System(s.nodes[i := OpenRead(s.nodes[i])], s.net), k) && Extends(h, k)
    ensures k == Opened(h, i, s.nodes[i], Terms(s.nodes))
  {
    k := Opened(h, i, s.nodes[i], Terms(s.nodes));
    OpenHistory(h, s.nodes, i, k);
    OpenAssembled(s, h, i, OpenRead(s.nodes[i]), System(s.nodes[i := OpenRead(s.nodes[i])], s.net), k);
  }

  lemma OpenAssembled(s: System, h: History, i: nat, nd2: Node, s2: System, k: History)
    requires Inv(s, h) && i < |s.nodes| && HistoryOK(k, |s.nodes|) && k == h.(openings := k.openings)
    requires Extends(h, k) && OnlyBy(h, k, i) && nd2.term == s.nodes[i].term && nd2.log == s.nodes[i].log
    requires NodeOK(k, i, nd2, |s.nodes|) && NewOpeningsOK(h, k, Terms(s.nodes))
    requires s2 == System(s.nodes[i := nd2], s.net)
    ensures Inv(s2, k)
  {
    OpenKept(h, k, i, s.nodes, nd2, s2.nodes);
    Assemble(s, h, i, nd2, s2, k);
  }

  /** An echo of the round's context: its sender was in no later term when the round opened. */
  lemma AckNode(h: History, i: nat, nd: Node, peers: nat, ctx: nat, from: nat)
    requires NodeOK(h, i, nd, peers) && nd.role == Leader && from < peers
    requires ctx != 0 ==>
      RoundId(i, nd.term, ctx) in h.openings && from < |h.openings[RoundId(i, nd.term, ctx)].terms|
      && h.openings[RoundId(i, nd.term, ctx)].terms[from] <= nd.term
    ensures NodeOK(h, i, RecordReadAck(nd, ctx, from), peers)
  {
    assert NodeFits(h, i, RecordReadAck(nd, ctx, from), peers);
  }
}
