/** Every event of every run keeps the invariant. */
module RaftSteps {
  import opened Wrappers
  import opened RaftTypes
  import opened RaftRules
  import opened RaftSystem
  import opened RaftInvariant
  import opened RaftGrowth
  import opened RaftFrame
  import opened RaftElections
  import opened RaftLeaders
  import opened RaftReplication
  import opened RaftReads

  lemma Send(s: System, h: History, sent: set<Msg>)
    requires Inv(s, h) && NetOK(h, sent, |s.nodes|)
    ensures Inv(System(s.nodes, s.net + sent), h)
  {
    assert InvAt(System(s.nodes, s.net + sent), h, Terms(s.nodes));
  }

  /** A change of fields the invariant says little about. */
  lemma Soft(s: System, h: History, i: nat, nd: Node)
    requires Inv(s, h) && i < |s.nodes| && s.nodes[i].term == nd.term && nd.log == s.nodes[i].log
    requires NodeOK(h, i, nd, |s.nodes|)
    ensures Inv(System(s.nodes[i := nd], s.net), h)
  {
    Quiet(s, h, i, nd, System(s.nodes[i := nd], s.net));
  }

  // ----------------------------------------------------------- local events

  lemma TimeoutNode(h: History, i: nat, nd: Node, peers: nat)
    requires NodeOK(h, i, nd, peers)
    ensures NodeOK(h, i, StartElection(nd), peers)
  {
    if nd.role == Candidate { ConvertOK(h, i, nd, peers, nd.term); }
    assert NodeFits(h, i, StartElection(nd), peers);
  }

  lemma TimeoutKeeps(s: System, h: History, i: nat)
    requires Inv(s, h) && i < |s.nodes|
    ensures Inv(System(s.nodes[i := StartElection(s.nodes[i])], s.net), h)
  {
    var nd, nd2 := s.nodes[i], StartElection(s.nodes[i]);
    assert NodeOK(h, i, nd, |s.nodes|);
    TimeoutNode(h, i, nd, |s.nodes|);
    Soft(s, h, i, nd2);
  }

  lemma RealElectionKeeps(s: System, h: History, i: nat) returns (k: History)
    requires Inv(s, h) && i < |s.nodes|
    ensures var nd := s.nodes[i];
      Inv(System(s.nodes[i := if nd.mayRun then StartRealElection(nd) else nd], s.net), k) && Extends(h, k)
  {
    var nd := s.nodes[i];
    if nd.mayRun && nd.role == Follower {
      k := StandAndWin(s, h, i);
    } else {
      PutBack(s.nodes, i);
      ExtendsSelf(h);
      k := h;
    }
  }

  lemma ReadKeeps(s: System, h: History, i: nat) returns (k: History)
    requires Inv(s, h) && i < |s.nodes|
    ensures Inv(System(s.nodes[i := OpenRead(s.nodes[i])], s.net), k) && Extends(h, k)
  {
    if MayOpenRead(s.nodes[i]) {
      k := ReadOpenKeeps(s, h, i);
    } else {
      PutBack(s.nodes, i);
      ExtendsSelf(h);
      k := h;
    }
  }

  lemma StandAndWin(s: System, h: History, i: nat) returns (k: History)
    requires Inv(s, h) && i < |s.nodes| && s.nodes[i].role == Follower
    ensures Inv(System(s.nodes[i := StartRealElection(s.nodes[i])], s.net), k) && Extends(h, k)
  {
    var k1 := Stand(s, h, i);
    var s1 := System(s.nodes[i := Candidacy(s.nodes[i])], s.net);
    k := Elect(s1, k1, i);
    PutTwice(s.nodes, i, Candidacy(s.nodes[i]), BecomeLeaderIfQuorum(Candidacy(s.nodes[i])));
    ExtendsTrans(h, k1, k);
  }

  lemma ProposalKeeps(s: System, h: History, i: nat, command: bytes) returns (k: History)
    requires Inv(s, h) && i < |s.nodes| && |s.nodes[i].matched| == s.nodes[i].peers
    ensures Inv(System(s.nodes[i := Propose(s.nodes[i], command)], s.net), k) && Extends(h, k)
  {
    var nd, nd2 := s.nodes[i], Propose(s.nodes[i], command);
    if nd.role == Leader {
      var e := NormalEntry(nd.term, |nd.log| + 1, command);
      var nd1 := nd.(log := nd.log + [e]);
      k := AppendAndAdvance(s, h, i, e, nd1, nd2);
    } else {
      PutBack(s.nodes, i);
      ExtendsSelf(h);
      k := h;
    }
  }

  lemma AppendAndAdvance(s: System, h: History, i: nat, e: LogEntry, nd1: Node, nd2: Node) returns (k: History)
    requires Inv(s, h) && i < |s.nodes| && s.nodes[i].role == Leader && |nd1.matched| == nd1.peers
    requires e.term == s.nodes[i].term && e.index == |s.nodes[i].log| + 1
    requires nd1 == s.nodes[i].(log := s.nodes[i].log + [e]) && nd2 == AdvanceCommit(nd1)
    ensures Inv(System(s.nodes[i := nd2], s.net), k) && Extends(h, k)
  {
    var s1 := System(s.nodes[i := nd1], s.net);
    var k1 := LeaderAppend(s, h, i, e, s1);
    k := Advance(s1, s.nodes, k1, i, nd1, nd2, System(s.nodes[i := nd2], s.net));
    ExtendsTrans(h, k1, k);
  }

  lemma ApplyNode(h: History, i: nat, nd: Node, peers: nat)
    requires NodeOK(h, i, nd, peers)
    ensures NodeOK(h, i, ApplyBatch(nd), peers)
  {
    var nd2 := ApplyBatch(nd);
    if nd2 != nd {
      assert nd2.delivered == nd.log[..nd2.applied];
    }
    assert NodeFits(h, i, nd2, peers);
  }

  lemma BackingLess(h: History, log: Log, c: nat, d: nat, t: nat)
    requires CommitBacked(h, log, c, t) && d <= c
    ensures CommitBacked(h, log, d, t)
  {
    if d > 0 {
      var tau: nat :| BackedBy(h, log, c, t, tau);
      assert log[..d] == log[..c][..d] == h.reigns[tau].log[..c][..d] == h.reigns[tau].log[..d];
      assert BackedBy(h, log, d, t, tau);
    }
  }

  lemma RestartNode(h: History, i: nat, nd: Node, peers: nat)
    requires NodeOK(h, i, nd, peers) && nd.snapshot <= |nd.log|
    ensures NodeOK(h, i, Restart(nd), peers)
  {
    BackingLess(h, nd.log, nd.commit, nd.snapshot, nd.term);
    assert NodeFits(h, i, Restart(nd), peers);
  }

  // --------------------------------------------------------------- messages

  /** m carries a stretch of the leader's log, and names the entry before, or without entries its snapshot. */
  ghost predicate Carries(nd: Node, m: Msg) {
    m.AppendReq? && m.src == nd.me && m.term == nd.term && m.leaderCommit == nd.commit && m.ctx == LiveCtx(nd)
    && SliceOf(nd.log, m.prevIndex, m.entries) && PrevFits(nd.log, m.prevIndex, m.prevTerm, m.entries)
  }

  lemma AppendReqOK(h: History, i: nat, nd: Node, peers: nat, m: Msg)
    requires NodeOK(h, i, nd, peers) && nd.role == Leader && Carries(nd, m)
    ensures MsgOK(h, m, peers)
  {
  }

  lemma SentIs(nd: Node, d: nat, retry: bool, withLog: bool, count: nat, m: Msg)
    requires Shaped(nd) && m in SendAppendStep(nd, d, retry, withLog, count).1
    ensures nd.role == Leader && Carries(nd, m)
  {
    var from := Max(1, if retry then nd.matched[d] + 1 else nd.next[d]);
    var k := Max(from - 1, nd.snapshot);
    assert m.prevIndex <= k <= |nd.log| && m.prevTerm == TermAt(nd.log, k) && (m.entries != [] ==> k == m.prevIndex);
    assert m.entries == nd.log[m.prevIndex..m.prevIndex + |m.entries|];
  }

  lemma SendAppendKeeps(s: System, h: History, i: nat, d: nat, retry: bool, withLog: bool, count: nat)
    requires Inv(s, h) && i < |s.nodes| && Shaped(s.nodes[i])
    ensures var (nd, sent) := SendAppendStep(s.nodes[i], d, retry, withLog, count);
      Inv(System(s.nodes[i := nd], s.net + sent), h)
  {
    var nd := s.nodes[i];
    var (nd2, sent) := SendAppendStep(nd, d, retry, withLog, count);
    assert NodeOK(h, i, nd, |s.nodes|);
    SendAppendNode(h, i, nd, |s.nodes|, d, retry, withLog, count);
    Soft(s, h, i, nd2);
    SendAppendSent(h, i, nd, |s.nodes|, d, retry, withLog, count);
    Send(System(s.nodes[i := nd2], s.net), h, sent);
  }

  lemma NextNode(h: History, i: nat, nd: Node, peers: nat, from: nat, n: nat)
    requires NodeOK(h, i, nd, peers) && nd.role == Leader && from < peers && 1 <= n <= |nd.log| + 1
    ensures NodeOK(h, i, nd.(next := nd.next[from := n]), peers)
  {
    assert NodeFits(h, i, nd.(next := nd.next[from := n]), peers);
  }

  /** Sending moves next[d] at most, and only within the log. */
  lemma SendAppendMoves(nd: Node, d: nat, retry: bool, withLog: bool, count: nat) returns (n: nat)
    requires Shaped(nd)
    ensures var nd2 := SendAppendStep(nd, d, retry, withLog, count).0;
      nd2 == nd || (nd.role == Leader && d < nd.peers && 1 <= n <= |nd.log| + 1 && nd2 == nd.(next := nd.next[d := n]))
  {
    var from := if d < nd.peers then Max(1, if retry then nd.matched[d] + 1 else nd.next[d]) else 1;
    n := if from - 1 <= |nd.log| && withLog then from + |nd.log[from - 1..Min(|nd.log|, from - 1 + count)]| else 1;
  }

  lemma SendAppendNode(h: History, i: nat, nd: Node, peers: nat, d: nat, retry: bool, withLog: bool, count: nat)
    requires NodeOK(h, i, nd, peers) && Shaped(nd)
    ensures var nd2 := SendAppendStep(nd, d, retry, withLog, count).0;
      NodeOK(h, i, nd2, peers) && nd2.term == nd.term && nd2.log == nd.log
  {
    var n := SendAppendMoves(nd, d, retry, withLog, count);
    if SendAppendStep(nd, d, retry, withLog, count).0 != nd { NextNode(h, i, nd, peers, d, n); }
  }

  lemma SendAppendSent(h: History, i: nat, nd: Node, peers: nat, d: nat, retry: bool, withLog: bool, count: nat)
    requires NodeOK(h, i, nd, peers) && Shaped(nd)
    ensures NetOK(h, SendAppendStep(nd, d, retry, withLog, count).1, peers)
  {
    forall m | m in SendAppendStep(nd, d, retry, withLog, count).1 ensures MsgOK(h, m, peers) {
      SentIs(nd, d, retry, withLog, count, m);
      AppendReqOK(h, i, nd, peers, m);
    }
  }

  lemma ReadHeartbeatSent(h: History, i: nat, nd: Node, peers: nat)
    requires NodeOK(h, i, nd, peers) && Shaped(nd) && i < peers
    ensures NetOK(h, NodeStep(nd, ReadHeartbeat(i)).1, peers)
  {
    forall m | m in NodeStep(nd, ReadHeartbeat(i)).1 ensures MsgOK(h, m, peers) {
      assert nd.log[|nd.log|..|nd.log| + 0] == [];
      assert m.prevIndex <= |nd.log| && m.prevTerm == TermAt(nd.log, |nd.log|);
      AppendReqOK(h, i, nd, peers, m);
    }
  }

  // -------------------------------------------------------------- deliveries

  lemma PreVoteNode(h: History, i: nat, nd: Node, peers: nat, m: Msg)
    requires NodeOK(h, i, nd, peers) && m.PreVoteResp? && m.term <= nd.term
    ensures NodeOK(h, i, OnPreVoteReply(nd, m.src, m.reqTerm, m.term, m.granted), peers)
  {
    assert NodeFits(h, i, OnPreVoteReply(nd, m.src, m.reqTerm, m.term, m.granted), peers);
  }

  lemma PreVoteReplyKeeps(s: System, h: History, i: nat, m: Msg)
    requires Inv(s, h) && i < |s.nodes| && m.PreVoteResp?
    ensures Inv(System(s.nodes[i := OnPreVoteReply(s.nodes[i], m.src, m.reqTerm, m.term, m.granted)], s.net), h)
  {
    var nd := s.nodes[i];
    assert NodeOK(h, i, nd, |s.nodes|);
    if m.term > nd.term {
      ConvertKeeps(s, h, i, m.term);
    } else {
      PreVoteNode(h, i, nd, |s.nodes|, m);
      Soft(s, h, i, OnPreVoteReply(nd, m.src, m.reqTerm, m.term, m.granted));
    }
  }

  lemma VoteReqKeeps(s: System, h: History, i: nat, m: Msg) returns (k: History)
    requires Inv(s, h) && i < |s.nodes| && m.VoteReq? && m.dst == i && MsgOK(h, m, |s.nodes|)
    ensures var (nd, granted) := HandleVote(s.nodes[i], m.src, m.term, m.lastIndex, m.lastTerm);
      Inv(System(s.nodes[i := nd], s.net), k) && Extends(h, k) && (granted ==> Vote(i, m.term, m.src) in k.votes)
  {
    var nd := s.nodes[i];
    var (nd2, granted) := HandleVote(nd, m.src, m.term, m.lastIndex, m.lastTerm);
    ExtendsSelf(h);
    k := h;
    var s1 := s;
    if m.term > nd.term {
      ConvertKeeps(s, h, i, m.term);
      s1 := System(s.nodes[i := ConvertToFollower(nd, m.term)], s.net);
    }
    if granted {
      k := Grant(s1, h, i, m.src);
      PutTwice(s.nodes, i, s1.nodes[i], nd2);
      PutBack(s.nodes, i);
    } else {
      assert s1.nodes == s.nodes[i := nd2];
    }
  }

  lemma CountedNode(h: History, i: nat, nd: Node, peers: nat, from: nat)
    requires NodeOK(h, i, nd, peers) && nd.role == Candidate && from < peers && Vote(from, nd.term, i) in h.votes
    ensures NodeOK(h, i, nd.(votes := nd.votes + {from}), peers)
  {
    assert NodeFits(h, i, nd.(votes := nd.votes + {from}), peers);
  }

  lemma VoteReplyKeeps(s: System, h: History, i: nat, m: Msg) returns (k: History)
    requires Inv(s, h) && i < |s.nodes| && m.VoteResp? && m.dst == i && MsgOK(h, m, |s.nodes|)
    ensures var nd := OnVoteReply(s.nodes[i], m.src, m.reqTerm, m.term, m.granted);
      Inv(System(s.nodes[i := nd], s.net), k) && Extends(h, k)
  {
    var nd := s.nodes[i];
    ExtendsSelf(h);
    k := h;
    assert NodeOK(h, i, nd, |s.nodes|);
    if m.term > nd.term {
      ConvertKeeps(s, h, i, m.term);
    } else if nd.role == Candidate && m.reqTerm == nd.term && m.granted {
      var nd1 := nd.(votes := nd.votes + {m.src});
      CountedNode(h, i, nd, |s.nodes|, m.src);
      Soft(s, h, i, nd1);
      var s1 := System(s.nodes[i := nd1], s.net);
      k := Elect(s1, h, i);
      PutTwice(s.nodes, i, nd1, BecomeLeaderIfQuorum(nd1));
    } else {
      PutBack(s.nodes, i);
    }
  }

  lemma LowerKeeps(s: System, h: History, i: nat, m: Msg)
    requires Inv(s, h) && i < |s.nodes| && m.AppendReq? && m.dst == i && MsgOK(h, m, |s.nodes|)
    requires m.term >= s.nodes[i].term
    ensures Inv(System(s.nodes[i := Lowered(s.nodes[i], m.term)], s.net), h)
  {
    var nd := s.nodes[i];
    assert NodeOK(h, i, nd, |s.nodes|);
    if m.term > nd.term || nd.role != Follower {
      ConvertKeeps(s, h, i, m.term);
    } else {
      PutBack(s.nodes, i);
    }
  }

  /** The handler's three ways out. */
  ghost predicate AppendOutcome(nd: Node, m: Msg, nd2: Node, success: bool)
    requires m.AppendReq?
  {
    var nd1 := Lowered(nd, m.term);
    if m.term < nd.term then nd2 == nd && !success
    else if !success then nd2 == nd1
    else
      m.prevIndex <= |nd1.log| && (m.prevIndex >= nd1.snapshot ==> TermAt(nd1.log, m.prevIndex) == m.prevTerm)
      && nd2.log == Merge(nd1.log, Above(m.entries, nd1.snapshot))
      && nd2 == nd1.(log := nd2.log, commit := Max(nd1.commit, Min(m.leaderCommit, m.prevIndex + |m.entries|)))
  }

  lemma HandlerOutcome(nd: Node, m: Msg)
    requires m.AppendReq?
    ensures var r := HandleAppend(nd, m.term, m.prevIndex, m.prevTerm, m.entries, m.leaderCommit, m.ctx);
      AppendOutcome(nd, m, r.0, r.1.success)
  {
  }

  /** What the handler does, as history sees it. */
  ghost predicate AppendEffect(h: History, nd: Node, m: Msg, nd2: Node, success: bool)
    requires m.AppendReq?
  {
    if m.term < nd.term then nd2 == nd && !success
    else if !success then nd2 == Lowered(nd, m.term)
    else Accepts(h, Lowered(nd, m.term), m.prevIndex + |m.entries|, m.leaderCommit, nd2)
  }

  /** The same with the log merged in place. */
  ghost predicate AppendMerged(h: History, nd: Node, m: Msg, nd2: Node, success: bool)
    requires m.AppendReq?
  {
    var nd1, n := Lowered(nd, m.term), m.prevIndex + |m.entries|;
    if m.term < nd.term then nd2 == nd && !success
    else if !success then nd2 == nd1
    else
      m.term in h.reigns && MergedAs(nd1.log, h.reigns[m.term].log, n, nd2.log)
      && nd2 == nd1.(log := nd2.log, commit := Max(nd1.commit, Min(m.leaderCommit, n)))
  }

  lemma OutcomeMerged(h: History, terms: seq<nat>, nd: Node, m: Msg, nd2: Node, success: bool)
    requires ReignsOK(h, |terms|) && CommitsOK(h, |terms|) && LeadersKeep(h, terms)
    requires NodeLog(h, nd) && m.AppendReq? && MsgOK(h, m, |terms|) && AppendOutcome(nd, m, nd2, success)
    ensures AppendMerged(h, nd, m, nd2, success)
  {
    if success {
      LoweredIs(nd, m.term);
      LoweredLog(h, nd, m.term);
      MergedInPlace(h, terms, Lowered(nd, m.term), m, nd2.log);
    }
  }

  lemma LoweredLog(h: History, nd: Node, term: nat)
    requires NodeLog(h, nd) && term >= nd.term
    ensures NodeLog(h, Lowered(nd, term))
  {
    ExtendsSelf(h);
    NodeLogGrows(h, h, nd, Lowered(nd, term));
  }

  lemma MergedTakesEffect(h: History, peers: nat, nd: Node, m: Msg, nd2: Node, success: bool)
    requires ReignsOK(h, peers) && NodeLog(h, nd) && m.AppendReq? && AppendMerged(h, nd, m, nd2, success)
    ensures AppendEffect(h, nd, m, nd2, success)
  {
    if success {
      LoweredIs(nd, m.term);
      LoweredLog(h, nd, m.term);
      MergeIsAccepted(h, peers, Lowered(nd, m.term), m.prevIndex + |m.entries|, m.leaderCommit, nd2);
    }
  }

  lemma MergedInPlace(h: History, terms: seq<nat>, nd: Node, m: Msg, log2: Log)
    requires ReignsOK(h, |terms|) && CommitsOK(h, |terms|) && LeadersKeep(h, terms)
    requires NodeLog(h, nd) && m.AppendReq? && nd.term == m.term && MsgOK(h, m, |terms|)
    requires m.prevIndex <= |nd.log| && (m.prevIndex >= nd.snapshot ==> TermAt(nd.log, m.prevIndex) == m.prevTerm)
    requires log2 == Merge(nd.log, Above(m.entries, nd.snapshot))
    ensures nd.term in h.reigns && MergedAs(nd.log, h.reigns[nd.term].log, m.prevIndex + |m.entries|, log2)
  {
    SliceIs(h, m, |terms|);
    SnapshotShared(h, terms, nd, m.term);
    AcceptsSlice(h, |terms|, nd, m, log2);
  }

  /** What a node compacted is in the log of every leader from its term on. */
  lemma SnapshotShared(h: History, terms: seq<nat>, nd: Node, t: nat)
    requires CommitsOK(h, |terms|) && LeadersKeep(h, terms) && NodeLog(h, nd) && nd.term <= t && t in h.reigns
    ensures Has(nd.log, h.reigns[t].log, nd.snapshot)
  {
    BackedInReign(h, terms, nd.log, nd.commit, nd.term, t);
    var own := h.reigns[t].log;
    assert nd.log[..nd.snapshot] == nd.log[..nd.commit][..nd.snapshot];
    assert own[..nd.snapshot] == own[..nd.commit][..nd.snapshot];
  }

  lemma AcceptsSlice(h: History, peers: nat, nd: Node, m: Msg, log2: Log)
    requires ReignsOK(h, peers) && nd.term in h.reigns && NodeLog(h, nd) && m.AppendReq?
    requires SliceOf(h.reigns[nd.term].log, m.prevIndex, m.entries)
    requires PrevFits(h.reigns[nd.term].log, m.prevIndex, m.prevTerm, m.entries)
    requires Has(nd.log, h.reigns[nd.term].log, nd.snapshot)
    requires m.prevIndex <= |nd.log| && (m.prevIndex >= nd.snapshot ==> TermAt(nd.log, m.prevIndex) == m.prevTerm)
    requires log2 == Merge(nd.log, Above(m.entries, nd.snapshot))
    ensures MergedAs(nd.log, h.reigns[nd.term].log, m.prevIndex + |m.entries|, log2)
  {
    OwnNumbered(h, peers, nd.term);
    SliceTaken(h, nd.log, h.reigns[nd.term].log, nd.snapshot, m.prevIndex, m.prevTerm, m.entries, log2);
  }

  lemma OwnNumbered(h: History, peers: nat, t: nat)
    requires ReignsOK(h, peers) && t in h.reigns
    ensures Grounded(h, h.reigns[t].log) && NumberedAndOrdered(h.reigns[t].log)
  {
    assert ReignOK(h, peers, t);
  }

  lemma SliceTaken(h: History, log: Log, own: Log, snap: nat, prev: nat, prevTerm: nat, entries: Log, log2: Log)
    requires Grounded(h, log) && Grounded(h, own) && NumberedAndOrdered(log) && NumberedAndOrdered(own)
    requires SliceOf(own, prev, entries) && PrevFits(own, prev, prevTerm, entries) && Has(log, own, snap)
    requires prev <= |log| && (prev >= snap ==> TermAt(log, prev) == prevTerm)
    requires log2 == Merge(log, Above(entries, snap))
    ensures MergedAs(log, own, prev + |entries|, log2)
  {
    PrevHeld(h, log, own, snap, prev, prevTerm, entries);
    SliceMerges(log, own, snap, prev, entries, log2);
    MergeSlice(h, log, own, prev, entries, log2);
  }

  lemma SliceMerges(log: Log, own: Log, snap: nat, prev: nat, entries: Log, log2: Log)
    requires Has(log, own, snap) && SliceOf(own, prev, entries) && NumberedAndOrdered(own)
    requires log2 == Merge(log, Above(entries, snap))
    ensures log2 == Merge(log, entries)
  {
    SliceSkips(log, own, snap, prev, entries);
    SkippedAnyway(log, entries, snap);
  }

  lemma PrevHeld(h: History, log: Log, own: Log, snap: nat, prev: nat, prevTerm: nat, entries: Log)
    requires Grounded(h, log) && Grounded(h, own) && NumberedAndOrdered(log) && PrevFits(own, prev, prevTerm, entries)
    requires Has(log, own, snap) && prev <= |log| && (prev >= snap ==> TermAt(log, prev) == prevTerm)
    ensures Has(log, own, prev)
  {
    if prev >= snap {
      PrevAgrees(h, log, own, prev, prevTerm, entries);
    } else {
      assert log[..prev] == log[..snap][..prev] == own[..snap][..prev] == own[..prev];
    }
  }

  lemma AppendReqKeeps(s: System, h: History, i: nat, m: Msg, nd2: Node, success: bool) returns (k: History)
    requires Inv(s, h) && i < |s.nodes| && m.AppendReq? && m.dst == i && MsgOK(h, m, |s.nodes|)
    requires AppendEffect(h, s.nodes[i], m, nd2, success)
    ensures Inv(System(s.nodes[i := nd2], s.net), k) && Extends(h, k)
    ensures success ==> Acked(k, i, m.term) >= m.prevIndex + |m.entries|
  {
    ExtendsSelf(h);
    k := h;
    if m.term < s.nodes[i].term {
      PutBack(s.nodes, i);
    } else {
      LowerKeeps(s, h, i, m);
      if success {
        var nd1, n, lc := Lowered(s.nodes[i], m.term), m.prevIndex + |m.entries|, m.leaderCommit;
        EffectIs(h, s.nodes[i], m, nd1, n, lc, nd2);
        SliceIs(h, m, |s.nodes|);
        k := AcceptInPlace(s, h, i, m.term, n, lc, nd1, nd2);
      }
    }
  }

  lemma EffectIs(h: History, nd: Node, m: Msg, nd1: Node, n: nat, lc: nat, nd2: Node)
    requires m.AppendReq? && AppendEffect(h, nd, m, nd2, true)
    requires nd1 == Lowered(nd, m.term) && n == m.prevIndex + |m.entries| && lc == m.leaderCommit
    ensures Accepts(h, nd1, n, lc, nd2) && nd1.role == Follower && nd1.term == m.term
  {
  }

  lemma LoweredIs(nd: Node, term: nat)
    requires term >= nd.term
    ensures Lowered(nd, term).role == Follower && Lowered(nd, term).term == term
  {
  }

  /** Node i, lowered to nd1, accepts. */
  lemma AcceptInPlace(s: System, h: History, i: nat, t: nat, m: nat, lc: nat, nd1: Node, nd2: Node) returns (k: History)
    requires i < |s.nodes| && Inv(System(s.nodes[i := nd1], s.net), h) && nd1.role == Follower && nd1.term == t
    requires Accepts(h, nd1, m, lc, nd2) && t in h.reigns && CommitBacked(h, h.reigns[t].log, lc, t)
    ensures Inv(System(s.nodes[i := nd2], s.net), k) && Extends(h, k) && Acked(k, i, t) >= m
  {
    PutTwice(s.nodes, i, nd1, nd2);
    k := Accept(System(s.nodes[i := nd1], s.net), h, i, t, m, lc, nd2, System(s.nodes[i := nd2], s.net));
  }

  /** The entries of a request are a stretch of its leader's log. */
  lemma SliceIs(h: History, m: Msg, peers: nat)
    requires m.AppendReq? && MsgOK(h, m, peers)
    ensures m.term in h.reigns && SliceOf(h.reigns[m.term].log, m.prevIndex, m.entries)
    ensures PrevFits(h.reigns[m.term].log, m.prevIndex, m.prevTerm, m.entries)
    ensures CommitBacked(h, h.reigns[m.term].log, m.leaderCommit, m.term)
  {
  }

  lemma AppendReplyOK(k: History, i: nat, nd: Node, m: Msg, peers: nat)
    requires m.AppendReq? && MsgOK(k, m, peers)
    requires m.ctx != 0 ==>
      i < |k.openings[RoundId(m.src, m.term, m.ctx)].terms|
      && k.openings[RoundId(m.src, m.term, m.ctx)].terms[i] <= nd.term
    requires var reply := HandleAppend(nd, m.term, m.prevIndex, m.prevTerm, m.entries, m.leaderCommit, m.ctx).1;
      reply.success ==> Acked(k, i, m.term) >= m.prevIndex + |m.entries|
    ensures var reply := HandleAppend(nd, m.term, m.prevIndex, m.prevTerm, m.entries, m.leaderCommit, m.ctx).1;
      MsgOK(k, AppendResp(i, m.src, m.term, m.prevIndex, |m.entries|, reply.term, reply.success, reply.nextIndex,
                          reply.ctx), peers)
  {
  }

  lemma MatchNode(h: History, i: nat, nd: Node, peers: nat, from: nat, n: nat)
    requires NodeOK(h, i, nd, peers) && nd.role == Leader && from < peers && n <= Acked(h, from, nd.term)
    ensures NodeOK(h, i, nd.(matched := nd.matched[from := Max(nd.matched[from], n)]), peers)
  {
    assert NodeFits(h, i, nd.(matched := nd.matched[from := Max(nd.matched[from], n)]), peers);
  }

  /** matched never runs past the leader's log. */
  lemma MatchedInLog(h: History, i: nat, nd: Node, peers: nat, from: nat)
    requires NodeOK(h, i, nd, peers) && nd.role == Leader && from < peers && AcksOK(h, peers)
    ensures nd.matched[from] <= |nd.log|
  {
    assert (from, nd.term) in h.acked ==> AckOK(h, peers, from, nd.term);
  }

  /** The leader after recording a successful reply, before its commit index moves. */
  function Noted(nd: Node, m: Msg): Node
    requires m.AppendResp? && m.src < |nd.matched|
  {
    var n1 := RecordReadAck(nd, m.ctx, m.src);
    n1.(matched := n1.matched[m.src := Max(n1.matched[m.src], m.prevIndex + m.count)])
  }

  /** A success the leader takes into account, before its commit index moves. */
  lemma SuccessNode(h: History, i: nat, nd: Node, peers: nat, m: Msg)
    requires NodeOK(h, i, nd, peers) && nd.role == Leader
    requires m.AppendResp? && m.dst == i && MsgOK(h, m, peers) && m.src < |nd.matched| == peers
    requires m.success && m.reqTerm == nd.term && m.term <= nd.term
    ensures NodeOK(h, i, Noted(nd, m), peers)
  {
    AckNode(h, i, nd, peers, m.ctx, m.src);
    MatchNode(h, i, RecordReadAck(nd, m.ctx, m.src), peers, m.src, m.prevIndex + m.count);
  }

  lemma SuccessOutcome(nd: Node, m: Msg)
    requires m.AppendResp? && |nd.matched| == |nd.next| == nd.peers
    requires m.term <= nd.term && m.reqTerm == nd.term && nd.role == Leader && m.src < nd.peers && m.success
    ensures OnAppendReply(nd, m.src, m.reqTerm, m.prevIndex, m.count, m.term, m.success, m.nextIndex, m.ctx)
      == AdvanceCommit(Noted(nd, m))
  {
  }

  /** Where the leader goes back to after a rejection. */
  function BackTo(n1: Node, m: Msg): nat
    requires m.AppendResp? && m.src < |n1.matched| && m.src < |n1.next|
  {
    if m.nextIndex > 0 then Max(m.nextIndex, n1.matched[m.src] + 1)
    else if n1.next[m.src] > 1 then n1.next[m.src] - 1 else 1
  }

  lemma FailureNode(h: History, i: nat, nd: Node, peers: nat, m: Msg, n1: Node)
    requires NodeOK(h, i, n1, peers) && n1.role == Leader && n1.term == nd.term && AcksOK(h, peers)
    requires m.AppendResp? && MsgOK(h, m, peers) && m.src < peers
    requires !m.success && m.reqTerm == nd.term && m.term <= nd.term
    ensures m.src < |n1.matched| && m.src < |n1.next|
    ensures NodeOK(h, i, n1.(next := n1.next[m.src := BackTo(n1, m)]), peers)
  {
    MatchedInLog(h, i, n1, peers, m.src);
    NextNode(h, i, n1, peers, m.src, BackTo(n1, m));
  }

  /** What the leader makes of a reply. */
  ghost predicate ReplyOutcome(h: History, i: nat, nd: Node, peers: nat, m: Msg, nd2: Node)
    requires m.AppendResp? && |nd.matched| == nd.peers
  {
    if m.term > nd.term then nd2 == ConvertToFollower(nd, m.term)
    else if m.reqTerm == nd.term && nd.role == Leader && m.src < nd.peers && m.success then
      NodeOK(h, i, Noted(nd, m), peers) && nd2 == AdvanceCommit(Noted(nd, m))
    else
      nd2.term == nd.term && nd2.log == nd.log && NodeOK(h, i, nd2, peers)
  }

  lemma FailureOutcome(nd: Node, m: Msg)
    requires m.AppendResp? && |nd.matched| == |nd.next| == nd.peers
    requires m.term <= nd.term && m.reqTerm == nd.term && nd.role == Leader && m.src < nd.peers && !m.success
    ensures var n1 := RecordReadAck(nd, m.ctx, m.src);
      OnAppendReply(nd, m.src, m.reqTerm, m.prevIndex, m.count, m.term, m.success, m.nextIndex, m.ctx)
      == n1.(next := n1.next[m.src := BackTo(n1, m)])
  {
  }

  lemma HeededSuccess(h: History, i: nat, nd: Node, peers: nat, m: Msg)
    requires NodeOK(h, i, nd, peers) && AcksOK(h, peers) && nd.peers == peers
    requires m.AppendResp? && m.dst == i && MsgOK(h, m, peers) && |nd.matched| == |nd.next| == nd.peers
    requires m.term <= nd.term && m.reqTerm == nd.term && nd.role == Leader && m.src < peers && m.success
    ensures ReplyOutcome(h, i, nd, peers, m,
              OnAppendReply(nd, m.src, m.reqTerm, m.prevIndex, m.count, m.term, m.success, m.nextIndex, m.ctx))
  {
    SuccessNode(h, i, nd, peers, m);
    SuccessOutcome(nd, m);
  }

  lemma HeededFailure(h: History, i: nat, nd: Node, peers: nat, m: Msg)
    requires NodeOK(h, i, nd, peers) && AcksOK(h, peers) && nd.peers == peers
    requires m.AppendResp? && m.dst == i && MsgOK(h, m, peers) && |nd.matched| == |nd.next| == nd.peers
    requires m.term <= nd.term && m.reqTerm == nd.term && nd.role == Leader && m.src < peers && !m.success
    ensures ReplyOutcome(h, i, nd, peers, m,
              OnAppendReply(nd, m.src, m.reqTerm, m.prevIndex, m.count, m.term, m.success, m.nextIndex, m.ctx))
  {
    var n1 := RecordReadAck(nd, m.ctx, m.src);
    AckNode(h, i, nd, peers, m.ctx, m.src);
    FailureNode(h, i, nd, peers, m, n1);
    FailureOutcome(nd, m);
  }

  lemma LeaderOutcome(h: History, i: nat, nd: Node, peers: nat, m: Msg)
    requires NodeOK(h, i, nd, peers) && AcksOK(h, peers)
    requires m.AppendResp? && m.dst == i && MsgOK(h, m, peers) && |nd.matched| == |nd.next| == nd.peers
    ensures ReplyOutcome(h, i, nd, peers, m,
              OnAppendReply(nd, m.src, m.reqTerm, m.prevIndex, m.count, m.term, m.success, m.nextIndex, m.ctx))
  {
    if m.term <= nd.term && m.reqTerm == nd.term && nd.role == Leader && m.src < nd.peers {
      if m.success { HeededSuccess(h, i, nd, peers, m); } else { HeededFailure(h, i, nd, peers, m); }
    }
  }

  lemma AppendReplyKeeps(s: System, h: History, i: nat, m: Msg, nd2: Node) returns (k: History)
    requires Inv(s, h) && i < |s.nodes| && m.AppendResp? && |s.nodes[i].matched| == s.nodes[i].peers
    requires ReplyOutcome(h, i, s.nodes[i], |s.nodes|, m, nd2)
    ensures Inv(System(s.nodes[i := nd2], s.net), k) && Extends(h, k)
  {
    var nd := s.nodes[i];
    ExtendsSelf(h);
    k := h;
    if m.term > nd.term {
      ConvertKeeps(s, h, i, m.term);
    } else if m.reqTerm == nd.term && nd.role == Leader && m.src < nd.peers && m.success {
      k := MatchKeeps(s, h, i, Noted(nd, m), nd2);
    } else {
      Soft(s, h, i, nd2);
    }
  }

  lemma MatchKeeps(s: System, h: History, i: nat, n2: Node, nd: Node) returns (k: History)
    requires Inv(s, h) && i < |s.nodes| && NodeOK(h, i, n2, |s.nodes|)
    requires n2.term == s.nodes[i].term && n2.log == s.nodes[i].log && |n2.matched| == n2.peers
    requires nd == AdvanceCommit(n2)
    ensures Inv(System(s.nodes[i := nd], s.net), k) && Extends(h, k)
  {
    Soft(s, h, i, n2);
    k := Advance(System(s.nodes[i := n2], s.net), s.nodes, h, i, n2, nd, System(s.nodes[i := nd], s.net));
  }

  // -------------------------------------------------------------- every event

  predicate Succeeds(nd: Node, m: Msg)
    requires m.AppendReq?
  {
    HandleAppend(nd, m.term, m.prevIndex, m.prevTerm, m.entries, m.leaderCommit, m.ctx).1.success
  }

  lemma AnswerOK(h: History, k: History, i: nat, nd: Node, m: Msg, terms: seq<nat>, sent: set<Msg>)
    requires Shaped(nd) && nd.me == i < |terms| && terms[i] == nd.term && m.AppendReq? && sent == Receive(nd, m).1
    requires Extends(h, k) && MsgOK(h, m, |terms|) && OpeningsOK(h, terms)
    requires Succeeds(nd, m) ==> Acked(k, i, m.term) >= m.prevIndex + |m.entries|
    ensures NetOK(k, sent, |terms|)
  {
    MsgGrows(h, k, m, |terms|);
    assert m.ctx != 0 ==> OpeningOK(h, terms, RoundId(m.src, m.term, m.ctx));
    AppendReplyOK(k, i, nd, m, |terms|);
  }

  lemma AppendReqReceived(s: System, h: History, i: nat, m: Msg, nd2: Node, success: bool, sent: set<Msg>)
    returns (k: History)
    requires Inv(s, h) && i < |s.nodes| && Shaped(s.nodes[i]) && MsgOK(h, m, |s.nodes|) && m.AppendReq? && m.dst == i
    requires AppendEffect(h, s.nodes[i], m, nd2, success) && s.nodes[i].me == i
    requires sent == Receive(s.nodes[i], m).1 && success == Succeeds(s.nodes[i], m)
    ensures Inv(System(s.nodes[i := nd2], s.net), k) && Extends(h, k) && NetOK(k, sent, |s.nodes|)
  {
    k := AppendReqKeeps(s, h, i, m, nd2, success);
    AnswerOK(h, k, i, s.nodes[i], m, Terms(s.nodes), sent);
  }

  lemma VoteReqReceived(s: System, h: History, i: nat, m: Msg, nd2: Node, sent: set<Msg>) returns (k: History)
    requires Inv(s, h) && i < |s.nodes| && Shaped(s.nodes[i]) && m in s.net && m.dst == i && m.VoteReq?
    requires (nd2, sent) == Receive(s.nodes[i], m) && s.nodes[i].me == i
    ensures Inv(System(s.nodes[i := nd2], s.net), k) && Extends(h, k) && NetOK(k, sent, |s.nodes|)
  {
    assert MsgOK(h, m, |s.nodes|);
    k := VoteReqKeeps(s, h, i, m);
  }

  lemma ReplyReceived(s: System, h: History, i: nat, m: Msg, nd2: Node) returns (k: History)
    requires Inv(s, h) && i < |s.nodes| && Shaped(s.nodes[i]) && m in s.net && m.dst == i
    requires m.PreVoteResp? || m.VoteResp? || m.AppendResp?
    requires nd2 == Receive(s.nodes[i], m).0
    ensures Inv(System(s.nodes[i := nd2], s.net), k) && Extends(h, k)
  {
    assert NodeOK(h, i, s.nodes[i], |s.nodes|) && MsgOK(h, m, |s.nodes|);
    ExtendsSelf(h);
    k := h;
    if m.PreVoteResp? {
      PreVoteReplyKeeps(s, h, i, m);
    } else if m.VoteResp? {
      k := VoteReplyKeeps(s, h, i, m);
    } else {
      LeaderOutcome(h, i, s.nodes[i], |s.nodes|, m);
      k := AppendReplyKeeps(s, h, i, m, nd2);
    }
  }

  lemma ReceiveKeeps(s: System, h: History, i: nat, m: Msg, nd2: Node, sent: set<Msg>) returns (k: History)
    requires Inv(s, h) && i < |s.nodes| && Shaped(s.nodes[i]) && m in s.net && m.dst == i && s.nodes[i].me == i
    requires (nd2, sent) == Receive(s.nodes[i], m)
    ensures Inv(System(s.nodes[i := nd2], s.net), k) && Extends(h, k) && NetOK(k, sent, |s.nodes|)
  {
    if m.PreVoteReq? {
      PutBack(s.nodes, i);
      ExtendsSelf(h);
      k := h;
    } else if m.VoteReq? {
      k := VoteReqReceived(s, h, i, m, nd2, sent);
    } else if m.AppendReq? {
      var nd := s.nodes[i];
      assert MsgOK(h, m, |s.nodes|);
      HandlerOutcome(nd, m);
      assert NodeOK(h, i, nd, |s.nodes|);
      OutcomeMerged(h, Terms(s.nodes), nd, m, nd2, Succeeds(nd, m));
      MergedTakesEffect(h, |s.nodes|, nd, m, nd2, Succeeds(nd, m));
      k := AppendReqReceived(s, h, i, m, nd2, Succeeds(nd, m), sent);
    } else {
      k := ReplyReceived(s, h, i, m, nd2);
    }
  }

  /** Events that record nothing. */
  lemma ApplyKeeps(s: System, h: History, i: nat)
    requires Inv(s, h) && i < |s.nodes| && Shaped(s.nodes[i])
    ensures Inv(System(s.nodes[i := ApplyBatch(s.nodes[i])], s.net), h)
  {
    assert NodeOK(h, i, s.nodes[i], |s.nodes|);
    ApplyNode(h, i, s.nodes[i], |s.nodes|);
    Soft(s, h, i, ApplyBatch(s.nodes[i]));
  }

  lemma RestartKeeps(s: System, h: History, i: nat)
    requires Inv(s, h) && i < |s.nodes| && Shaped(s.nodes[i])
    ensures Inv(System(s.nodes[i := Restart(s.nodes[i])], s.net), h)
  {
    assert NodeOK(h, i, s.nodes[i], |s.nodes|);
    RestartNode(h, i, s.nodes[i], |s.nodes|);
    Soft(s, h, i, Restart(s.nodes[i]));
  }

  lemma CloseNode(h: History, i: nat, nd: Node, peers: nat)
    requires NodeOK(h, i, nd, peers)
    ensures NodeOK(h, i, CloseRead(nd), peers)
  {
    assert NodeFits(h, i, CloseRead(nd), peers);
  }

  lemma CloseKeeps(s: System, h: History, i: nat)
    requires Inv(s, h) && i < |s.nodes| && Shaped(s.nodes[i])
    ensures Inv(System(s.nodes[i := CloseRead(s.nodes[i])], s.net), h)
  {
    assert NodeOK(h, i, s.nodes[i], |s.nodes|);
    CloseNode(h, i, s.nodes[i], |s.nodes|);
    Soft(s, h, i, CloseRead(s.nodes[i]));
  }

  lemma CompactNode(h: History, i: nat, nd: Node, peers: nat, index: nat)
    requires NodeOK(h, i, nd, peers) && index <= nd.applied
    ensures NodeOK(h, i, TakeSnapshot(nd, index), peers)
  {
    assert NodeFits(h, i, TakeSnapshot(nd, index), peers);
  }

  lemma CompactKeeps(s: System, h: History, i: nat, index: nat)
    requires Inv(s, h) && i < |s.nodes| && index <= s.nodes[i].applied
    ensures Inv(System(s.nodes[i := TakeSnapshot(s.nodes[i], index)], s.net), h)
  {
    assert NodeOK(h, i, s.nodes[i], |s.nodes|);
    CompactNode(h, i, s.nodes[i], |s.nodes|, index);
    Soft(s, h, i, TakeSnapshot(s.nodes[i], index));
  }

  lemma GiveUpKeeps(s: System, h: History, i: nat)
    requires Inv(s, h) && i < |s.nodes|
    ensures Inv(System(s.nodes[i := GiveUp(s.nodes[i])], s.net), h)
  {
    if s.nodes[i].role == Leader {
      ConvertKeeps(s, h, i, s.nodes[i].term);
    } else {
      PutBack(s.nodes, i);
    }
  }

  lemma QuietKeeps(s: System, h: History, e: Event)
    requires Inv(s, h) && e.n < |s.nodes| && Shaped(s.nodes[e.n])
    requires e.Apply? || e.Compact? || e.CrashRestart? || e.ReadClose? || e.StepDown?
    ensures Inv(System(s.nodes[e.n := NodeStep(s.nodes[e.n], e).0], s.net), h)
  {
    if e.Apply? {
      ApplyKeeps(s, h, e.n);
    } else if e.Compact? {
      if e.index <= s.nodes[e.n].applied { CompactKeeps(s, h, e.n, e.index); } else { PutBack(s.nodes, e.n); }
    } else if e.CrashRestart? {
      RestartKeeps(s, h, e.n);
    } else if e.StepDown? {
      GiveUpKeeps(s, h, e.n);
    } else {
      CloseKeeps(s, h, e.n);
    }
  }

  lemma BroadcastKeeps(s: System, h: History, e: Event)
    requires Inv(s, h) && e.n < |s.nodes| && Shaped(s.nodes[e.n])
    requires e.SendVotes? || e.ReadHeartbeat?
    ensures Inv(System(s.nodes[e.n := NodeStep(s.nodes[e.n], e).0], s.net), h)
    ensures NetOK(h, NodeStep(s.nodes[e.n], e).1, |s.nodes|)
  {
    assert NodeOK(h, e.n, s.nodes[e.n], |s.nodes|);
    assert s.nodes[e.n := s.nodes[e.n]] == s.nodes;
    if e.ReadHeartbeat? { ReadHeartbeatSent(h, e.n, s.nodes[e.n], |s.nodes|); }
  }

  lemma LocalKeeps(s: System, h: History, e: Event) returns (k: History)
    requires Inv(s, h) && e.n < |s.nodes| && Shaped(s.nodes[e.n])
    requires !e.Deliver? && !e.SendAppend?
    ensures Inv(System(s.nodes[e.n := NodeStep(s.nodes[e.n], e).0], s.net), k)
    ensures Extends(h, k) && NetOK(k, NodeStep(s.nodes[e.n], e).1, |s.nodes|)
  {
    ExtendsSelf(h);
    k := h;
    if e.ElectionTimeout? {
      TimeoutKeeps(s, h, e.n);
    } else if e.RealElection? {
      k := RealElectionKeeps(s, h, e.n);
    } else if e.ClientProposal? {
      k := ProposalKeeps(s, h, e.n, e.command);
    } else if e.ReadOpen? {
      k := ReadKeeps(s, h, e.n);
    } else if e.SendVotes? || e.ReadHeartbeat? {
      BroadcastKeeps(s, h, e);
    } else {
      QuietKeeps(s, h, e);
    }
  }

  lemma StepKeeps(s: System, h: History, e: Event) returns (k: History)
    requires Inv(s, h)
    ensures Inv(Step(s, e), k) && Extends(h, k) && |Step(s, e).nodes| == |s.nodes|
  {
    ExtendsSelf(h);
    k := h;
    if Enabled(s, e) {
      var i := e.n;
      assert NodeOK(h, i, s.nodes[i], |s.nodes|);
      var (nd, sent) := NodeStep(s.nodes[i], e);
      if e.SendAppend? {
        SendAppendKeeps(s, h, i, e.d, e.retry, e.withLog, e.count);
      } else {
        if e.Deliver? {
          if e.m.dst == i {
            k := ReceiveKeeps(s, h, i, e.m, nd, sent);
          } else {
            PutBack(s.nodes, i);
          }
        } else {
          k := LocalKeeps(s, h, e);
        }
        Send(System(s.nodes[i := nd], s.net), k, sent);
      }
    }
  }
}
