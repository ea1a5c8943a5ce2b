/**
 * What becomes of a confirmed entry: a leader commits it as soon as a quorum is known to hold it,
 * and the apply loop hands it over in so many rounds.
 */
module RaftAdvance {
  import opened OrderStatistics
  import opened RaftTypes
  import opened RaftRules
  import opened RaftSystem
  import opened RaftInvariant
  import opened RaftSafety
  import opened FastBackup
  import opened RaftPlay

  // --------------------------------------------------------------- the apply loop

  /** What a round may deliver: what is committed and present. */
  function Deliverable(nd: Node): nat {
    Min(nd.commit, |nd.log|)
  }

  /**
   * A round of the apply loop changes nothing exactly when nothing committed and present is left,
   * and otherwise goes on by a full batch or to the end.
   */
  lemma ApplyMakesProgress(nd: Node)
    ensures ApplyBatch(nd) == nd <==> Deliverable(nd) <= nd.applied
    ensures Deliverable(nd) > nd.applied ==>
      ApplyBatch(nd).applied == Min(Deliverable(nd), nd.applied + 128) > nd.applied
  {
  }

  /** The rounds that are still to come: 128 entries each. */
  function RoundsLeft(nd: Node): nat {
    if nd.commit <= nd.applied then 0 else (nd.commit - nd.applied + 127) / 128
  }

  /** Everything committed is delivered. */
  function Drained(nd: Node): Node
    requires nd.commit <= |nd.log|
  {
    nd.(applied := nd.commit, delivered := nd.log[..nd.commit])
  }

  lemma OneRound(peers: nat, i: nat, nd: Node)
    requires FormedAt(peers, i, nd) && nd.applied < nd.commit
    ensures var n1 := ApplyBatch(nd);
      FormedAt(peers, i, n1) && RoundsLeft(n1) == RoundsLeft(nd) - 1 && Drained(n1) == Drained(nd)
  {
    var n1 := ApplyBatch(nd);
    assert n1.delivered == nd.log[..n1.applied];
  }

  lemma NoRoundLeft(peers: nat, i: nat, nd: Node)
    requires FormedAt(peers, i, nd) && RoundsLeft(nd) == 0
    ensures Drained(nd) == nd
  {
  }

  /** n rounds of node v. */
  function Rounds(v: nat, n: nat): seq<Event> {
    seq(n, _ => Apply(v))
  }

  /** As many rounds as are left deliver everything that is committed, and change nothing else. */
  lemma {:induction false} RoundsDrain(peers: nat, s: System, v: nat)
    requires Reachable(peers, s) && v < peers
    ensures FormedAt(peers, v, s.nodes[v])
    ensures var nd := s.nodes[v];
      Play(s, Rounds(v, RoundsLeft(nd))) == System(s.nodes[v := Drained(nd)], s.net)
    decreases RoundsLeft(s.nodes[v])
  {
    NodeIs(peers, s, v);
    var nd := s.nodes[v];
    if RoundsLeft(nd) == 0 {
      NoRoundLeft(peers, v, nd);
      assert s.nodes[v := nd] == s.nodes;
    } else {
      OneRound(peers, v, nd);
      var s1 := Act(peers, s, {v}, Apply(v));
      assert s.net + {} == s.net;
      RoundsDrain(peers, s1, v);
      var k := RoundsLeft(nd);
      assert Rounds(v, k) == [Apply(v)] + Rounds(v, k - 1);
      PlayMore(s, [Apply(v)], Rounds(v, k - 1));
      assert [Apply(v)][..0] == [];
      assert s1 == Step(s, Apply(v)) == Play(s, [Apply(v)]);
      assert s1.nodes[v := Drained(nd)] == s.nodes[v := Drained(nd)];
    }
  }

  /**
   * In every run: ceil((commit - applied) / 128) rounds of a node hand everything that is
   * committed to its state machine.
   */
  lemma EverythingIsDelivered(peers: nat, events: seq<Event>, v: nat)
    requires v < |Run(peers, events).nodes|
    ensures var nd := Run(peers, events).nodes[v];
      var s2 := Run(peers, events + Rounds(v, RoundsLeft(nd)));
      |s2.nodes| == |Run(peers, events).nodes| && nd.commit <= |nd.log|
      && s2.nodes[v].delivered == nd.log[..nd.commit] && s2.nodes[v].applied == nd.commit
  {
    NodeCountFixed(peers, events);
    var s := Run(peers, events);
    assert Reachable(peers, s);
    RoundsDrain(peers, s, v);
    RunPlays(peers, events, Rounds(v, RoundsLeft(s.nodes[v])));
  }

  // ---------------------------------------------------------- committing by majority

  /** The commit index is where the match indexes put it. */
  ghost predicate Settled(nd: Node) {
    |nd.matched| == nd.peers && AdvanceCommit(nd) == nd
  }

  lemma AdvanceSettles(nd: Node)
    requires |nd.matched| == nd.peers
    ensures Settled(AdvanceCommit(nd))
  {
    assert MatchedValues(AdvanceCommit(nd)) == MatchedValues(nd);
  }

  /** Those whose log is known to reach n. */
  ghost function Confirmers(nd: Node, n: nat): set<nat>
    requires |nd.matched| == nd.peers
  {
    set v: nat | v < nd.peers && (if v == nd.me then |nd.log| else nd.matched[v]) >= n
  }

  lemma {:induction false} SortedHolds(s: seq<nat>, k: nat)
    requires k < |s|
    ensures Sorted(s)[k] in s
  {
    SortedIsSort(s);
    assert Sorted(s)[k] in multiset(Sorted(s));
  }

  /** The node of a leader in a run: its log is in order, and nobody is noted beyond it. */
  ghost predicate LeaderFormed(nd: Node) {
    nd.me < nd.peers && |nd.matched| == nd.peers && nd.commit <= |nd.log| && nd.readSafe <= |nd.log|
    && (forall i :: 0 <= i < |nd.log| ==> nd.log[i].term <= nd.term)
    && (forall i, j :: 0 <= i <= j < |nd.log| ==> nd.log[i].term <= nd.log[j].term)
    && forall v :: 0 <= v < nd.peers ==> nd.matched[v] <= |nd.log|
  }

  /** Once a quorum is known to hold an entry of the leader's own term, its commit index is there. */
  lemma QuorumCommits(nd: Node, n: nat)
    requires Settled(nd) && nd.role == Leader && LeaderFormed(nd) && n <= |nd.log|
    requires |Confirmers(nd, n)| >= Quorum(nd.peers) && TermAt(nd.log, n) == nd.term
    ensures nd.commit >= n
  {
    var vs, q := MatchedValues(nd), Quorum(nd.peers);
    assert Confirmers(nd, n) == AtLeast(vs, n);
    CountIsCard(vs, n);
    QuorumPick(vs, q, n);
    var k := Sorted(vs)[nd.peers - q];
    SortedHolds(vs, nd.peers - q);
    assert k <= |nd.log|;
    if n > 0 { assert nd.log[n - 1].term <= nd.log[k - 1].term <= nd.term; }
  }

  // ------------------------------------------------------- what a leader of a run has

  predicate SafePointInside(nd: Node) {
    nd.role == Leader ==> nd.readSafe <= |nd.log|
  }

  lemma SafePointReceived(nd: Node, m: Msg)
    requires Shaped(nd) && SafePointInside(nd) && nd.commit <= |nd.log|
    ensures SafePointInside(Receive(nd, m).0)
  {
  }

  lemma SafePointKept(nd: Node, e: Event)
    requires Shaped(nd) && SafePointInside(nd) && nd.commit <= |nd.log|
    ensures SafePointInside(NodeStep(nd, e).0)
  {
    if e.Deliver? { SafePointReceived(nd, e.m); }
  }

  lemma {:induction false} SafePointInRun(peers: nat, events: seq<Event>, i: nat)
    requires i < |Run(peers, events).nodes|
    ensures SafePointInside(Run(peers, events).nodes[i])
  {
    if events != [] {
      var init := events[..|events| - 1];
      NodeCountFixed(peers, init);
      NodeCountFixed(peers, events);
      SafePointInRun(peers, init, i);
      NodeIs(peers, Run(peers, init), i);
      var e := events[|events| - 1];
      if Enabled(Run(peers, init), e) && e.n == i { SafePointKept(Run(peers, init).nodes[i], e); }
    }
  }

  lemma NotedInLog(h: History, peers: nat, i: nat, nd: Node, v: nat)
    requires NodeOK(h, i, nd, peers) && HistoryOK(h, peers) && nd.role == Leader && v < |nd.matched|
    ensures nd.matched[v] <= |nd.log|
  {
    if (v, nd.term) in h.acked { assert AckOK(h, peers, v, nd.term); }
  }

  lemma LeaderIs(peers: nat, s: System, i: nat)
    requires Reachable(peers, s) && i < peers && s.nodes[i].role == Leader
    ensures LeaderFormed(s.nodes[i]) && FormedAt(peers, i, s.nodes[i])
  {
    NodeIs(peers, s, i);
    var events :| Run(peers, events) == s;
    SafePointInRun(peers, events, i);
    var h := RunInv(peers, events);
    var nd := s.nodes[i];
    assert NodeOK(h, i, nd, peers);
    forall v | 0 <= v < peers ensures nd.matched[v] <= |nd.log| { NotedInLog(h, peers, i, nd, v); }
  }

  lemma SuccessTaken(nd: Node, from: nat, prev: nat, count: nat, term: nat, hint: nat, ctx: nat)
    requires nd.role == Leader && |nd.matched| == |nd.next| == nd.peers && from < nd.peers && term <= nd.term
    ensures var n1 := OnAppendReply(nd, from, nd.term, prev, count, term, true, hint, ctx);
      n1.role == Leader && n1.peers == nd.peers == |n1.matched| && Settled(n1) && n1.term == nd.term && n1.log == nd.log
      && n1.matched == nd.matched[from := Max(nd.matched[from], prev + count)]
  {
    var n0 := RecordReadAck(nd, ctx, from);
    AdvanceSettles(n0.(matched := n0.matched[from := Max(n0.matched[from], prev + count)]));
  }

  /** A reply of success is noted in full, and what a quorum then holds of the leader's term is committed. */
  lemma ReplyIsNoted(peers: nat, s: System, m: Msg, n: nat) returns (nd: Node)
    requires Reachable(peers, s) && m in s.net && m.AppendResp? && m.success && m.dst < peers && m.src < peers
    requires s.nodes[m.dst].role == Leader && m.reqTerm == s.nodes[m.dst].term >= m.term
    ensures |Step(s, Deliver(m.dst, m)).nodes| == peers && nd == Step(s, Deliver(m.dst, m)).nodes[m.dst]
    ensures nd.role == Leader && nd.peers == peers == |nd.matched| == |s.nodes[m.dst].matched|
    ensures nd.matched[m.src] == Max(s.nodes[m.dst].matched[m.src], m.prevIndex + m.count)
    ensures n <= |nd.log| && TermAt(nd.log, n) == nd.term && |Confirmers(nd, n)| >= Quorum(peers) ==> nd.commit >= n
  {
    NodeIs(peers, s, m.dst);
    var s2 := Act(peers, s, {m.dst}, Deliver(m.dst, m));
    nd := s2.nodes[m.dst];
    SuccessTaken(s.nodes[m.dst], m.src, m.prevIndex, m.count, m.term, m.nextIndex, m.ctx);
    LeaderIs(peers, s2, m.dst);
    if n <= |nd.log| && TermAt(nd.log, n) == nd.term && |Confirmers(nd, n)| >= Quorum(peers) { QuorumCommits(nd, n); }
  }

  lemma AlignedAt(peers: nat, s: System, a: nat, v: nat)
    requires Reachable(peers, s) && a < peers && v < peers && s.nodes[a].role == Leader
    requires s.nodes[v].term <= s.nodes[a].term
    ensures |s.nodes[a].matched| == peers
    ensures Aligned(s.nodes[v].log, s.nodes[a].log, s.nodes[v].snapshot, s.nodes[a].matched[v])
  {
    NodeIs(peers, s, a);
    var events :| Run(peers, events) == s;
    AlignedInRun(peers, events, a, v);
  }

  /** A follower that confirmed the whole log, whose last entry is of the leader's term, has just that log. */
  lemma WholeLogHeld(peers: nat, s: System, a: nat, v: nat, m: Msg)
    requires Reachable(peers, s) && a < peers && v < peers && s.nodes[a].role == Leader
    requires s.nodes[v].term == s.nodes[a].term && LastTerm(s.nodes[a].log) == s.nodes[a].term && s.nodes[a].log != []
    requires m in s.net && m.AppendResp? && m.src == v && m.success && m.reqTerm == s.nodes[a].term
    requires m.prevIndex + m.count == |s.nodes[a].log|
    ensures s.nodes[v].log == s.nodes[a].log
  {
    var events :| Run(peers, events) == s;
    var h := RunInv(peers, events);
    assert NodeOK(h, a, s.nodes[a], peers) && NodeOK(h, v, s.nodes[v], peers) && MsgOK(h, m, peers);
    WholeLogIs(h, a, v, s.nodes[a], s.nodes[v], peers);
  }

  lemma TermOfNext(log: Log, n: nat, t: nat)
    requires 0 < n < |log| && log[n - 1].term == t && NumberedAndOrdered(log) && TermsUpTo(log, t)
    ensures log[n].term == t
  {
  }

  lemma OwnedUpTo(h: History, own: Log, log: Log, t: nat, i: nat)
    requires i < |log| && Grounded(h, log) && log[i].term == t && t in h.reigns && own == h.reigns[t].log
    ensures i < |own|
  {
    assert FromLeader(h, log, i);
  }

  lemma WholeLogIs(h: History, a: nat, v: nat, na: Node, nv: Node, peers: nat)
    requires NodeOK(h, a, na, peers) && NodeOK(h, v, nv, peers) && na.role == Leader && nv.term == na.term
    requires Acked(h, v, na.term) >= |na.log| > 0 && LastTerm(na.log) == na.term
    ensures nv.log == na.log
  {
    var n := |na.log|;
    assert nv.log[..n] == na.log;
    if |nv.log| > n {
      TermOfNext(nv.log, n, na.term);
      OwnedUpTo(h, na.log, nv.log, na.term, n);
    }
  }
}
