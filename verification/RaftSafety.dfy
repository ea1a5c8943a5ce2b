/**
 * The protocol's promises about logs, over every run of any number of voters, whether nodes
 * crash, compact their logs or step down inside a term: log matching, leader completeness,
 * state machine safety, and fresh reads. A run is any sequence of events; a state of it is
 * named by the events before it.
 */
module RaftSafety {
  import opened OrderStatistics
  import opened RaftTypes
  import opened RaftRules
  import opened RaftSystem
  import opened RaftInvariant
  import opened RaftGrowth
  import opened RaftReplication
  import opened RaftReads
  import opened RaftSteps

  lemma InitialInv(peers: nat)
    ensures Inv(Initial(peers), NOTHING)
  {
    forall i: nat | i < peers ensures NodeOK(NOTHING, i, Fresh(i, peers), peers) {
      assert NodeFits(NOTHING, i, Fresh(i, peers), peers);
    }
    assert HistoryFits(NOTHING, peers);
    assert InvAt(Initial(peers), NOTHING, Terms(Initial(peers).nodes));
  }

  /** Every run has a history its last state satisfies the invariant with. */
  lemma {:induction false} RunInv(peers: nat, events: seq<Event>) returns (h: History)
    ensures Inv(Run(peers, events), h) && |Run(peers, events).nodes| == peers
  {
    if events == [] {
      InitialInv(peers);
      h := NOTHING;
    } else {
      var k := RunInv(peers, events[..|events| - 1]);
      h := StepKeeps(Run(peers, events[..|events| - 1]), k, events[|events| - 1]);
    }
  }

  /** From a state with a given history, the rest of the run extends that history. */
  lemma {:induction false} RunOn(peers: nat, events: seq<Event>, i: nat, h: History) returns (k: History)
    requires i <= |events| && Inv(Run(peers, events[..i]), h)
    ensures Inv(Run(peers, events), k) && Extends(h, k)
    ensures |Run(peers, events).nodes| == |Run(peers, events[..i]).nodes|
  {
    if i == |events| {
      assert events[..i] == events;
      ExtendsSelf(h);
      k := h;
    } else {
      var init := events[..|events| - 1];
      assert init[..i] == events[..i];
      var k1 := RunOn(peers, init, i, h);
      k := StepKeeps(Run(peers, init), k1, events[|events| - 1]);
      ExtendsTrans(h, k1, k);
    }
  }

  /** Two states of one run, with histories that extend one another. */
  lemma TwoStates(peers: nat, events: seq<Event>, i: nat, j: nat) returns (h: History, k: History)
    requires i <= j <= |events|
    ensures Inv(Run(peers, events[..i]), h) && Inv(Run(peers, events[..j]), k) && Extends(h, k)
    ensures |Run(peers, events[..i]).nodes| == |Run(peers, events[..j]).nodes| == peers
  {
    h := RunInv(peers, events[..i]);
    PrefixOfPrefix(events, i, j);
    k := RunOn(peers, events[..j], i, h);
  }

  ghost function NodeAt(peers: nat, events: seq<Event>, i: nat, a: nat): Node
    requires i <= |events| && a < |Run(peers, events[..i]).nodes|
  {
    Run(peers, events[..i]).nodes[a]
  }

  lemma SliceFollows(s: System, h: History, m: Msg)
    requires Inv(s, h) && m in s.net && m.AppendReq?
    ensures forall k :: 0 <= k < |m.entries| ==> m.entries[k].index == m.prevIndex + 1 + k
  {
    assert MsgOK(h, m, |s.nodes|);
    SliceIs(h, m, |s.nodes|);
    assert ReignOK(h, |s.nodes|, m.term);
  }

  /**
   * The entries of every request ever sent follow its previous index one by one, so that none
   * leaves a gap: a follower's append loop is only ever called on what it can take.
   */
  lemma EntriesFollow(peers: nat, events: seq<Event>, m: Msg)
    requires m in Run(peers, events).net && m.AppendReq?
    ensures forall k :: 0 <= k < |m.entries| ==> m.entries[k].index == m.prevIndex + 1 + k
    ensures Gapless(m.prevIndex, m.entries)
  {
    var h := RunInv(peers, events);
    SliceFollows(Run(peers, events), h, m);
  }

  // ------------------------------------------------------------ log matching

  /**
   * If two logs of the run hold an entry with the same index and term, they are the
   * same up to and including it; the two logs need not be of the same moment.
   */
  lemma LogMatching(peers: nat, events: seq<Event>, i: nat, j: nat, a: nat, b: nat, n: nat)
    requires i <= j <= |events|
    requires a < |Run(peers, events[..i]).nodes| && b < |Run(peers, events[..j]).nodes|
    requires n < |NodeAt(peers, events, i, a).log| && n < |NodeAt(peers, events, j, b).log|
    requires NodeAt(peers, events, i, a).log[n].term == NodeAt(peers, events, j, b).log[n].term
    ensures NodeAt(peers, events, i, a).log[..n + 1] == NodeAt(peers, events, j, b).log[..n + 1]
  {
    var h, k := TwoStates(peers, events, i, j);
    var la, lb := NodeAt(peers, events, i, a).log, NodeAt(peers, events, j, b).log;
    assert NodeOK(h, a, NodeAt(peers, events, i, a), peers);
    assert NodeOK(k, b, NodeAt(peers, events, j, b), peers);
    GroundedGrows(h, k, la);
    GroundedAgree(k, la, lb);
    assert Has(la, lb, n + 1);
  }

  // ----------------------------------------------------- leader completeness

  /** What a node knew committed in term t is in the log of every later leader of a term from t on. */
  lemma LeaderCompleteness(peers: nat, events: seq<Event>, i: nat, j: nat, a: nat, b: nat)
    requires i <= j <= |events|
    requires a < |Run(peers, events[..i]).nodes| && b < |Run(peers, events[..j]).nodes|
    requires NodeAt(peers, events, j, b).role == Leader
    requires NodeAt(peers, events, i, a).term <= NodeAt(peers, events, j, b).term
    ensures var c := NodeAt(peers, events, i, a).commit;
      c <= |NodeAt(peers, events, i, a).log| && c <= |NodeAt(peers, events, j, b).log|
      && NodeAt(peers, events, i, a).log[..c] == NodeAt(peers, events, j, b).log[..c]
  {
    var h, k := TwoStates(peers, events, i, j);
    var na, nb := NodeAt(peers, events, i, a), NodeAt(peers, events, j, b);
    assert NodeOK(h, a, na, peers) && NodeOK(k, b, nb, peers);
    BackingGrows(h, k, na.log, na.log, na.commit, na.term);
    BackedInReign(k, Terms(Run(peers, events[..j]).nodes), na.log, na.commit, na.term, nb.term);
  }

  // ---------------------------------------------------- state machine safety

  lemma BackedAgree(k: History, terms: seq<nat>, la: Log, ca: nat, ta: nat, lb: Log, cb: nat, tb: nat, n: nat)
    requires CommitsOK(k, |terms|) && LeadersKeep(k, terms)
    requires CommitBacked(k, la, ca, ta) && CommitBacked(k, lb, cb, tb) && n < ca && n < cb
    ensures la[n] == lb[n]
  {
    var tau: nat :| BackedBy(k, la, ca, ta, tau);
    var sigma: nat :| BackedBy(k, lb, cb, tb, sigma);
    var u := if tau <= sigma then sigma else tau;
    assert BackedBy(k, la, ca, tau, tau) && BackedBy(k, lb, cb, sigma, sigma);
    BackedInReign(k, terms, la, ca, tau, u);
    BackedInReign(k, terms, lb, cb, sigma, u);
    assert la[n] == la[..ca][n] == k.reigns[u].log[n] == lb[..cb][n];
  }

  /** What a node delivered is a committed part of its log. */
  lemma DeliveredFacts(s: System, h: History, a: nat, n: nat)
    requires Inv(s, h) && a < |s.nodes| && n < |s.nodes[a].delivered|
    ensures var nd := s.nodes[a];
      n < nd.commit <= |nd.log| && nd.delivered[n] == nd.log[n] && nd.log[n].index == n + 1
      && CommitBacked(h, nd.log, nd.commit, nd.term)
  {
    assert NodeOK(h, a, s.nodes[a], |s.nodes|);
  }

  lemma DeliveredAgree(s: System, h: History, t: System, k: History, a: nat, b: nat, n: nat)
    requires Inv(s, h) && Inv(t, k) && Extends(h, k) && |s.nodes| == |t.nodes| && a < |s.nodes| && b < |t.nodes|
    requires n < |s.nodes[a].delivered| && n < |t.nodes[b].delivered|
    ensures s.nodes[a].delivered[n] == t.nodes[b].delivered[n] && s.nodes[a].delivered[n].index == n + 1
  {
    var na, nb := s.nodes[a], t.nodes[b];
    DeliveredFacts(s, h, a, n);
    DeliveredFacts(t, k, b, n);
    BackingGrows(h, k, na.log, na.log, na.commit, na.term);
    BackedAgree(k, Terms(t.nodes), na.log, na.commit, na.term, nb.log, nb.commit, nb.term, n);
  }

  /**
   * State machine safety: whatever two nodes ever deliver at the same index, in whatever
   * incarnation and at whatever two points of the run, is the same entry.
   */
  lemma StateMachineSafety(peers: nat, events: seq<Event>, i: nat, j: nat, a: nat, b: nat, n: nat)
    requires i <= j <= |events|
    requires a < |Run(peers, events[..i]).nodes| && b < |Run(peers, events[..j]).nodes|
    requires n < |NodeAt(peers, events, i, a).delivered| && n < |NodeAt(peers, events, j, b).delivered|
    ensures NodeAt(peers, events, i, a).delivered[n] == NodeAt(peers, events, j, b).delivered[n]
    ensures NodeAt(peers, events, i, a).delivered[n].index == n + 1
  {
    var h, k := TwoStates(peers, events, i, j);
    DeliveredAgree(Run(peers, events[..i]), h, Run(peers, events[..j]), k, a, b, n);
  }

  // ------------------------------------------------------------- fresh reads

  /** A round confirmed by a majority covers everything committed when it opened. */
  lemma ConfirmedRoundCovers(k: History, terms: seq<nat>, n: nat, nd: Node, tau: nat)
    requires OpeningsOK(k, terms) && ReignsOK(k, |terms|) && nd.round.Some? && nd.peers == |terms|
    requires RoundOK(k, n, nd, nd.round.value) && nd.round.value.done
    requires tau in k.openings[RoundId(n, nd.term, nd.round.value.ctx)].committed
    ensures k.openings[RoundId(n, nd.term, nd.round.value.ctx)].committed[tau] <= nd.round.value.readIndex
  {
    var o := k.openings[RoundId(n, nd.term, nd.round.value.ctx)];
    assert OpeningOK(k, terms, RoundId(n, nd.term, nd.round.value.ctx));
    if tau > nd.term {
      assert ReignOK(k, |terms|, tau);
      var v := MajoritiesMeet(|terms|, nd.round.value.acked, k.reigns[tau].voters);
      assert false;
    }
  }

  /** The commit index of any node at any point up to i is one of the commits on record at i. */
  lemma CommitOnRecord(peers: nat, events: seq<Event>, p: nat, i: nat, b: nat) returns (h: History, tau: nat)
    requires p <= i <= |events| && b < |Run(peers, events[..p]).nodes|
    ensures Inv(Run(peers, events[..i]), h) && |Run(peers, events[..i]).nodes| == peers
    ensures NodeAt(peers, events, p, b).commit > 0 ==>
      tau in h.committed && NodeAt(peers, events, p, b).commit <= h.committed[tau]
  {
    var h0;
    h0, h := TwoStates(peers, events, p, i);
    var nb := NodeAt(peers, events, p, b);
    assert NodeOK(h0, b, nb, peers);
    tau := 0;
    if nb.commit > 0 {
      BackingGrows(h0, h, nb.log, nb.log, nb.commit, nb.term);
      tau :| BackedBy(h, nb.log, nb.commit, nb.term, tau);
    }
  }

  lemma PrefixOfPrefix(events: seq<Event>, i: nat, j: nat)
    requires i <= j <= |events|
    ensures events[..j][..i] == events[..i]
  {
  }

  /** The opening of the round at step i is on record for the rest of the run. */
  lemma OpeningRecorded(peers: nat, events: seq<Event>, i: nat, j: nat, n: nat, h: History) returns (k: History)
    requires i < j <= |events| && events[i] == ReadOpen(n) && Inv(Run(peers, events[..i]), h)
    requires n < |Run(peers, events[..i]).nodes| && MayOpenRead(NodeAt(peers, events, i, n))
    ensures Inv(Run(peers, events[..j]), k) && |Run(peers, events[..j]).nodes| == |Run(peers, events[..i]).nodes|
    ensures var nd := NodeAt(peers, events, i, n);
      var id := RoundId(n, nd.term, nd.nextCtx);
      id in k.openings && k.openings[id].committed == h.committed && k.openings[id].readIndex == nd.commit
  {
    var k0 := OpeningNext(peers, events, i, n, h);
    PrefixOfPrefix(events, i + 1, j);
    k := RunOn(peers, events[..j], i + 1, k0);
  }

  lemma OpeningNext(peers: nat, events: seq<Event>, i: nat, n: nat, h: History) returns (k: History)
    requires i < |events| && events[i] == ReadOpen(n) && Inv(Run(peers, events[..i]), h)
    requires n < |Run(peers, events[..i]).nodes| && MayOpenRead(NodeAt(peers, events, i, n))
    ensures Inv(Run(peers, events[..i + 1]), k)
    ensures |Run(peers, events[..i + 1]).nodes| == |Run(peers, events[..i]).nodes|
    ensures var nd := NodeAt(peers, events, i, n);
      var id := RoundId(n, nd.term, nd.nextCtx);
      id in k.openings && k.openings[id].committed == h.committed && k.openings[id].readIndex == nd.commit
  {
    PrefixOfPrefix(events, i, i + 1);
    k := OpenStep(Run(peers, events[..i]), h, n);
  }

  lemma OpenStepIs(s: System, n: nat)
    requires n < |s.nodes| && Shaped(s.nodes[n])
    ensures Step(s, ReadOpen(n)) == System(s.nodes[n := OpenRead(s.nodes[n])], s.net)
  {
    assert s.net + {} == s.net;
  }

  lemma OpenStep(s: System, h: History, n: nat) returns (k: History)
    requires Inv(s, h) && n < |s.nodes| && MayOpenRead(s.nodes[n])
    ensures Inv(Step(s, ReadOpen(n)), k) && |Step(s, ReadOpen(n)).nodes| == |s.nodes|
    ensures RoundId(n, s.nodes[n].term, s.nodes[n].nextCtx) in k.openings
    ensures k.openings[RoundId(n, s.nodes[n].term, s.nodes[n].nextCtx)].committed == h.committed
    ensures k.openings[RoundId(n, s.nodes[n].term, s.nodes[n].nextCtx)].readIndex == s.nodes[n].commit
  {
    assert NodeOK(h, n, s.nodes[n], |s.nodes|);
    OpenStepIs(s, n);
    k := ReadOpenKeeps(s, h, n);
  }

  /** The round that node n opened at step i, confirmed at step j while n still leads the term. */
  ghost predicate ConfirmedRound(before: Node, after: Node) {
    MayOpenRead(before) && after.role == Leader && after.term == before.term
    && after.round.Some? && after.round.value.term == after.term
    && after.round.value.ctx == before.nextCtx && after.round.value.done
  }

  /**
   * ReadIndex, for the caller that opens the round at step i: the index it gets is at
   * least every commit index any node had at any time up to the call.
   */
  lemma ReadIsFresh(peers: nat, events: seq<Event>, i: nat, j: nat, n: nat, p: nat, b: nat)
    requires p <= i < j <= |events| && events[i] == ReadOpen(n)
    requires n < |Run(peers, events[..i]).nodes| && n < |Run(peers, events[..j]).nodes|
    requires b < |Run(peers, events[..p]).nodes|
    requires ConfirmedRound(NodeAt(peers, events, i, n), NodeAt(peers, events, j, n))
    ensures NodeAt(peers, events, j, n).round.value.readIndex >= NodeAt(peers, events, p, b).commit
  {
    var h, tau := CommitOnRecord(peers, events, p, i, b);
    var k := OpeningRecorded(peers, events, i, j, n, h);
    if NodeAt(peers, events, p, b).commit > 0 {
      RoundCovers(peers, events, j, n, k, tau);
    }
  }

  /** And that index is no later than need be: it is what the opener had committed. */
  lemma ReadIndexIsOpeners(peers: nat, events: seq<Event>, i: nat, j: nat, n: nat)
    requires i < j <= |events| && events[i] == ReadOpen(n)
    requires n < |Run(peers, events[..i]).nodes| && n < |Run(peers, events[..j]).nodes|
    requires ConfirmedRound(NodeAt(peers, events, i, n), NodeAt(peers, events, j, n))
    ensures NodeAt(peers, events, j, n).round.value.readIndex == NodeAt(peers, events, i, n).commit
  {
    var h := RunInv(peers, events[..i]);
    var k := OpeningRecorded(peers, events, i, j, n, h);
    RoundRecorded(k, n, Run(peers, events[..j]));
  }

  lemma RoundRecorded(k: History, n: nat, s: System)
    requires Inv(s, k) && n < |s.nodes| && s.nodes[n].role == Leader && s.nodes[n].round.Some?
    requires s.nodes[n].round.value.term == s.nodes[n].term
    ensures RoundOK(k, n, s.nodes[n], s.nodes[n].round.value)
  {
    assert NodeOK(k, n, s.nodes[n], |s.nodes|);
  }

  lemma RoundCovers(peers: nat, events: seq<Event>, j: nat, n: nat, k: History, tau: nat)
    requires j <= |events| && Inv(Run(peers, events[..j]), k) && n < |Run(peers, events[..j]).nodes|
    requires var nd := NodeAt(peers, events, j, n);
      nd.role == Leader && nd.round.Some? && nd.round.value.term == nd.term && nd.round.value.done
      && RoundId(n, nd.term, nd.round.value.ctx) in k.openings
      && tau in k.openings[RoundId(n, nd.term, nd.round.value.ctx)].committed
    ensures var nd := NodeAt(peers, events, j, n);
      k.openings[RoundId(n, nd.term, nd.round.value.ctx)].committed[tau] <= nd.round.value.readIndex
  {
    var s := Run(peers, events[..j]);
    assert NodeOK(k, n, s.nodes[n], |s.nodes|);
    ConfirmedRoundCovers(k, Terms(s.nodes), n, s.nodes[n], tau);
  }

  // ----------------------------------------------------- the withdrawn self-vote

  /** Within a term nobody turns from follower into candidate or leader: standing raises the term. */
  lemma FollowersStayInTerm(nd: Node, e: Event)
    requires Shaped(nd) && nd.role == Follower
    ensures var nd2 := NodeStep(nd, e).0; nd2.term >= nd.term && (nd2.term == nd.term ==> nd2.role == Follower)
  {
  }

  /**
   * A candidate that withdrew, in the same term, on its timeout or on a leader's message
   * never leads that term, whoever it then votes for.
   */
  lemma {:induction false} WithdrawnNeverLeads(peers: nat, events: seq<Event>, i: nat, j: nat, a: nat)
    requires i <= j <= |events|
    requires a < |Run(peers, events[..i]).nodes| && a < |Run(peers, events[..j]).nodes|
    requires NodeAt(peers, events, i, a).role == Follower
    ensures StillFollows(NodeAt(peers, events, i, a), NodeAt(peers, events, j, a))
    decreases j - i
  {
    if i < j {
      assert events[..j][..j - 1] == events[..j - 1];
      NodeCountFixed(peers, events[..j - 1]);
      NodeCountFixed(peers, events[..i]);
      WithdrawnNeverLeads(peers, events, i, j - 1, a);
      StepFollows(Run(peers, events[..j - 1]), events[j - 1], a, NodeAt(peers, events, i, a));
    }
  }

  ghost predicate StillFollows(before: Node, after: Node) {
    after.term >= before.term && (after.term == before.term ==> after.role == Follower)
  }

  lemma StepFollows(s: System, e: Event, a: nat, before: Node)
    requires a < |s.nodes| && StillFollows(before, s.nodes[a])
    ensures a < |Step(s, e).nodes| && StillFollows(before, Step(s, e).nodes[a])
  {
    if Enabled(s, e) && e.n == a {
      StepUpwards(s.nodes[a], e);
      if s.nodes[a].role == Follower { FollowersStayInTerm(s.nodes[a], e); }
    }
  }

  lemma {:induction false} NodeCountFixed(peers: nat, events: seq<Event>)
    ensures |Run(peers, events).nodes| == peers
  {
    if events != [] { NodeCountFixed(peers, events[..|events| - 1]); }
  }

  lemma ReceiveUpwards(nd: Node, m: Msg)
    requires Shaped(nd)
    ensures Receive(nd, m).0.term >= nd.term
  {
  }

  /** Terms never go down. */
  lemma StepUpwards(nd: Node, e: Event)
    requires Shaped(nd)
    ensures NodeStep(nd, e).0.term >= nd.term
  {
    if e.Deliver? { ReceiveUpwards(nd, e.m); }
  }
}
