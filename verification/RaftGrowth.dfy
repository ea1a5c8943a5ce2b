/** Facts about nodes and messages survive when history grows. */
module RaftGrowth {
  import opened RaftTypes
  import opened RaftInvariant

  lemma HasPrefix(log: Log, a: Log, b: Log, n: nat)
    requires Has(log, a, n) && a <= b
    ensures Has(log, b, n)
  {
    assert b[..n] == a[..n];
  }

  lemma HasVia(a: Log, b: Log, c: Log, n: nat, m: nat)
    requires Has(a, c, n) && Has(b, c, m) && n <= m
    ensures Has(a, b, n)
  {
    assert b[..n] == b[..m][..n] == c[..m][..n] == c[..n];
  }

  lemma GroundedGrows(h: History, k: History, log: Log)
    requires Extends(h, k) && Grounded(h, log)
    ensures Grounded(k, log)
  {
    forall i: nat | i < |log| ensures FromLeader(k, log, i) {
      assert FromLeader(h, log, i);
      HasPrefix(log, h.reigns[log[i].term].log, k.reigns[log[i].term].log, i + 1);
    }
  }

  lemma BackingGrows(h: History, k: History, log: Log, log2: Log, c: nat, t: nat)
    requires Extends(h, k) && CommitBacked(h, log, c, t) && log <= log2
    ensures CommitBacked(k, log2, c, t)
  {
    if c > 0 {
      var tau: nat :| BackedBy(h, log, c, t, tau);
      assert log2[..c] == log[..c];
      HasPrefix(log2, h.reigns[tau].log, k.reigns[tau].log, c);
      assert BackedBy(k, log2, c, t, tau);
    }
  }

  lemma MsgGrows(h: History, k: History, m: Msg, peers: nat)
    requires Extends(h, k) && MsgOK(h, m, peers)
    ensures MsgOK(k, m, peers)
  {
    if m.AppendReq? {
      var a, b := h.reigns[m.term].log, k.reigns[m.term].log;
      BackingGrows(h, k, a, b, m.leaderCommit, m.term);
      var n: nat :| m.prevIndex <= n <= |a| && m.prevTerm == TermAt(a, n) && (m.entries != [] ==> n == m.prevIndex);
      assert TermAt(a, n) == TermAt(b, n);
      assert a[m.prevIndex..m.prevIndex + |m.entries|] == b[m.prevIndex..m.prevIndex + |m.entries|];
    }
  }

  lemma CoverGrows(h: History, k: History, i: nat, j: nat, term: nat)
    requires Extends(h, k) && OnlyBy(h, k, i) && i != j && TermsCover(h, j, term)
    ensures TermsCover(k, j, term)
  {
    forall t | t in k.reigns && k.reigns[t].leader == j ensures t <= term {
      assert t in h.reigns;
    }
  }

  lemma LeaderGrows(h: History, k: History, i: nat, j: nat, nd: Node)
    requires Extends(h, k) && OnlyBy(h, k, i) && i != j && LeaderOK(h, j, nd) && NodeVote(h, j, nd)
    ensures LeaderOK(k, j, nd)
  {
    assert nd.term in h.reigns && ReignGrew(h, k, nd.term);
    assert forall c: nat :: Vote(j, nd.term, c) in k.votes ==> Vote(j, nd.term, c) in h.votes;
    forall x: nat | x < |nd.matched| ensures nd.matched[x] <= Acked(k, x, nd.term) {
      assert nd.matched[x] <= Acked(h, x, nd.term);
    }
  }

  /** A log stays backed by history as its node moves to later terms. */
  lemma NodeLogGrows(h: History, k: History, nd: Node, nd2: Node)
    requires Extends(h, k) && NodeLog(h, nd) && nd.term <= nd2.term
    requires nd2.log == nd.log && nd2.commit == nd.commit && nd2.snapshot == nd.snapshot
    requires nd2.applied == nd.applied && nd2.delivered == nd.delivered
    ensures NodeLog(k, nd2)
  {
    GroundedGrows(h, k, nd.log);
    BackingGrows(h, k, nd.log, nd.log, nd.commit, nd.term);
    BackingLater(k, nd.log, nd.commit, nd.term, nd2.term);
  }

  lemma BackingLater(h: History, log: Log, c: nat, t: nat, t2: nat)
    requires CommitBacked(h, log, c, t) && t <= t2
    ensures CommitBacked(h, log, c, t2)
  {
    if c > 0 {
      var tau: nat :| BackedBy(h, log, c, t, tau);
      assert BackedBy(h, log, c, t2, tau);
    }
  }

  /** A node that did not act is still fine. */
  lemma NodeGrows(h: History, k: History, i: nat, j: nat, nd: Node, peers: nat)
    requires Extends(h, k) && OnlyBy(h, k, i) && i != j && NodeOK(h, j, nd, peers)
    ensures NodeOK(k, j, nd, peers)
  {
    NodeLogGrows(h, k, nd, nd);
    NodeVoteGrows(h, k, i, j, nd);
    if nd.role == Leader {
      LeaderGrows(h, k, i, j, nd);
    }
    assert NodeFits(k, j, nd, peers);
  }

  lemma NodeVoteGrows(h: History, k: History, i: nat, j: nat, nd: Node)
    requires Extends(h, k) && OnlyBy(h, k, i) && i != j && NodeVote(h, j, nd)
    ensures NodeVote(k, j, nd)
  {
    CoverGrows(h, k, i, j, nd.term);
  }

  lemma ExtendsSelf(h: History)
    ensures Extends(h, h)
  {
    assert ExtendsOver(h, h, h.votes);
  }

  lemma ExtendsTrans(h: History, k: History, l: History)
    requires Extends(h, k) && Extends(k, l)
    ensures Extends(h, l)
  {
    forall t | t in h.reigns ensures ReignGrew(h, l, t) {
      assert ReignGrew(h, k, t) && ReignGrew(k, l, t);
    }
    assert ExtendsOver(h, l, h.votes);
  }
}
