/**
 * AppendEntries on a log whose first entries were replaced by a snapshot. The handler
 * cannot look below the snapshot point; it takes what lies there as matching.
 */
module Compaction {
  import opened RaftTypes
  import opened RaftRules
  import opened RaftSystem
  import opened RaftInvariant
  import opened RaftReplication
  import opened RaftSteps
  import opened RaftSafety

  /** The node with nothing compacted. */
  function Whole(nd: Node): Node {
    nd.(snapshot := 0)
  }

  /** Where a message reaches into the compacted prefix, it agrees with it. */
  ghost predicate SenderAgrees(nd: Node, prevIndex: nat, prevTerm: nat, entries: Log)
    requires nd.snapshot <= |nd.log|
  {
    (prevIndex < nd.snapshot ==> TermAt(nd.log, prevIndex) == prevTerm) && SkipsShared(nd.log, entries, nd.snapshot)
  }

  /** What the handler leaves, and what it answers, had nothing been compacted. */
  ghost predicate SameButHint(snap: nat, n1: Node, r1: AppendReply, n2: Node, r2: AppendReply) {
    Whole(n1) == n2 && n1.snapshot == snap
    && r1 == if r2.success then r2 else r2.(nextIndex := Max(r2.nextIndex, snap + 1))
  }

  lemma CompactedAccepts(nd: Node, entries: Log)
    requires nd.snapshot <= |nd.log| && SkipsShared(nd.log, entries, nd.snapshot)
    ensures Merge(nd.log, Above(entries, nd.snapshot)) == Merge(nd.log, Above(entries, 0))
  {
    SkippedAnyway(nd.log, entries, nd.snapshot);
    SkippedAnyway(nd.log, entries, 0);
  }

  lemma CompactedAppend(nd: Node, prevIndex: nat, prevTerm: nat, entries: Log, leaderCommit: nat, ctx: nat)
    requires nd.snapshot <= |nd.log| && SenderAgrees(nd, prevIndex, prevTerm, entries)
    ensures var (n1, r1) := AppendTo(nd, prevIndex, prevTerm, entries, leaderCommit, ctx);
      var (n2, r2) := AppendTo(Whole(nd), prevIndex, prevTerm, entries, leaderCommit, ctx);
      SameButHint(nd.snapshot, n1, r1, n2, r2)
  {
    CompactedAccepts(nd, entries);
  }

  /**
   * With a sender that agrees with the compacted prefix, a node accepts exactly what it would
   * accept with its whole log, and ends with the same log and commit index; a rejection only
   * differs in its hint, which never points below the snapshot.
   */
  lemma CompactedHandlerRefines(nd: Node, term: nat, prevIndex: nat, prevTerm: nat, entries: Log, leaderCommit: nat,
                                ctx: nat)
    requires nd.snapshot <= |nd.log| && SenderAgrees(nd, prevIndex, prevTerm, entries) && term >= nd.term
    ensures var (n1, r1) := HandleAppend(nd, term, prevIndex, prevTerm, entries, leaderCommit, ctx);
      var (n2, r2) := HandleAppend(Whole(nd), term, prevIndex, prevTerm, entries, leaderCommit, ctx);
      SameButHint(nd.snapshot, n1, r1, n2, r2)
  {
    CompactedAppend(Lowered(nd, term), prevIndex, prevTerm, entries, leaderCommit, ctx);
  }

  lemma AgreesInRun(s: System, h: History, a: nat, m: Msg)
    requires Inv(s, h) && a < |s.nodes| && m in s.net && m.AppendReq? && m.term >= s.nodes[a].term
    requires m.entries != [] || m.prevIndex >= s.nodes[a].snapshot
    ensures s.nodes[a].snapshot <= |s.nodes[a].log| && SenderAgrees(s.nodes[a], m.prevIndex, m.prevTerm, m.entries)
  {
    var nd, terms := s.nodes[a], Terms(s.nodes);
    assert NodeOK(h, a, nd, |s.nodes|) && MsgOK(h, m, |s.nodes|);
    assert ReignOK(h, |s.nodes|, m.term);
    var own := h.reigns[m.term].log;
    SliceIs(h, m, |s.nodes|);
    SnapshotShared(h, terms, nd, m.term);
    SliceSkips(nd.log, own, nd.snapshot, m.prevIndex, m.entries);
    if 0 < m.prevIndex < nd.snapshot {
      assert nd.log[..nd.snapshot][m.prevIndex - 1] == own[..nd.snapshot][m.prevIndex - 1];
    }
  }

  /** The node takes m as it would had it compacted nothing; a stale message changes nothing. */
  ghost predicate TakesWhole(nd: Node, m: Msg)
    requires m.AppendReq?
  {
    var (n1, r1) := HandleAppend(nd, m.term, m.prevIndex, m.prevTerm, m.entries, m.leaderCommit, m.ctx);
    var (n2, r2) := HandleAppend(Whole(nd), m.term, m.prevIndex, m.prevTerm, m.entries, m.leaderCommit, m.ctx);
    if m.term < nd.term then n1 == nd && r1 == r2 else SameButHint(nd.snapshot, n1, r1, n2, r2)
  }

  lemma TransparentAt(s: System, h: History, a: nat, m: Msg)
    requires Inv(s, h) && a < |s.nodes| && m in s.net && m.AppendReq?
    requires m.entries != [] || m.prevIndex >= s.nodes[a].snapshot
    ensures TakesWhole(s.nodes[a], m)
  {
    if m.term >= s.nodes[a].term {
      AgreesInRun(s, h, a, m);
      CompactedHandlerRefines(s.nodes[a], m.term, m.prevIndex, m.prevTerm, m.entries, m.leaderCommit, m.ctx);
    }
  }

  /**
   * In every run of a cluster whose nodes compact when they please, every message with entries,
   * and every one that does not reach below the node's snapshot, does to the node what it would
   * do had it compacted nothing.
   */
  lemma CompactionIsTransparent(peers: nat, events: seq<Event>, a: nat, m: Msg)
    requires a < |Run(peers, events).nodes| && m in Run(peers, events).net && m.AppendReq?
    requires m.entries != [] || m.prevIndex >= Run(peers, events).nodes[a].snapshot
    ensures TakesWhole(Run(peers, events).nodes[a], m)
  {
    var h := RunInv(peers, events);
    TransparentAt(Run(peers, events), h, a, m);
  }

  lemma SnapshotCommitted(s: System, h: History, a: nat)
    requires Inv(s, h) && a < |s.nodes|
    ensures s.nodes[a].snapshot <= s.nodes[a].commit <= |s.nodes[a].log|
  {
    assert NodeOK(h, a, s.nodes[a], |s.nodes|);
  }

  lemma BlindAppend(nd: Node, prevIndex: nat, prevTerm: nat, leaderCommit: nat, ctx: nat)
    requires prevIndex < nd.snapshot <= nd.commit <= |nd.log|
    ensures AppendTo(nd, prevIndex, prevTerm, [], leaderCommit, ctx).0 == nd
  {
    assert Above([], nd.snapshot) == [] && Merge(nd.log, []) == nd.log;
  }

  /**
   * The messages left: one without entries that reaches below the snapshot is taken as matching
   * unseen, and moves neither the log nor the commit index.
   */
  lemma BlindHeartbeatIsHarmless(peers: nat, events: seq<Event>, a: nat, m: Msg)
    requires a < |Run(peers, events).nodes| && m.AppendReq?
    requires m.entries == [] && m.prevIndex < Run(peers, events).nodes[a].snapshot
    ensures var nd := Run(peers, events).nodes[a];
      HandleAppend(nd, m.term, m.prevIndex, m.prevTerm, m.entries, m.leaderCommit, m.ctx).0
      == if m.term < nd.term then nd else Lowered(nd, m.term)
  {
    var h := RunInv(peers, events);
    SnapshotCommitted(Run(peers, events), h, a);
    BlindAppend(Lowered(Run(peers, events).nodes[a], m.term), m.prevIndex, m.prevTerm, m.leaderCommit, m.ctx);
  }
}
