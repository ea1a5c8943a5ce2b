/**
 * What each critical section of the Raft node does, as functions on the node's
 * variables. RaftNode proves the imperative handlers against these functions and
 * RaftSystem runs them in every interleaving.
 */
module RaftRules {
  import opened Wrappers
  import opened RaftTypes
  import opened OrderStatistics

  const MAX_APPLY_BATCH := 128

  function ConvertToFollower(nd: Node, term: nat): Node {
    nd.(role := Follower, term := term, votedFor := None)
  }

  function Filled(n: nat, x: nat): (r: seq<nat>)
    ensures |r| == n && forall i :: 0 <= i < n ==> r[i] == x
  {
    seq(n, _ => x)
  }

  // ---------------------------------------------------------------- elections

  predicate UpToDate(log: Log, lastIndex: nat, lastTerm: nat) {
    lastTerm > LastTerm(log) || (lastTerm == LastTerm(log) && lastIndex >= |log|)
  }

  /** StartElection: a candidate first withdraws, in the same term; then the pre-vote begins. */
  function StartElection(nd: Node): Node {
    if nd.role == Leader then nd
    else
      var n1 := if nd.role == Candidate then ConvertToFollower(nd, nd.term) else nd;
      n1.(preVotes := {nd.me}, mayRun := nd.mayRun || |{nd.me}| >= Quorum(nd.peers))
  }

  function HandlePreVote(nd: Node, cand: nat, lastIndex: nat, lastTerm: nat): (granted: bool) {
    cand < nd.peers && UpToDate(nd.log, lastIndex, lastTerm)
  }

  function OnPreVoteReply(nd: Node, from: nat, reqTerm: nat, term: nat, granted: bool): Node {
    if term > nd.term then ConvertToFollower(nd, term)
    else if reqTerm == nd.term && nd.role == Follower && granted then
      var pv := nd.preVotes + {from};
      nd.(preVotes := pv, mayRun := nd.mayRun || |pv| >= Quorum(nd.peers))
    else nd
  }

  function StartRealElection(nd: Node): Node {
    if nd.role != Follower then nd
    else BecomeLeaderIfQuorum(Candidacy(nd))
  }

  function Candidacy(nd: Node): Node {
    nd.(role := Candidate, term := nd.term + 1, votedFor := Some(nd.me), votes := {nd.me})
  }

  function HandleVote(nd: Node, cand: nat, term: nat, lastIndex: nat, lastTerm: nat): (r: (Node, bool)) {
    if term < nd.term then (nd, false)
    else
      var n1 := if term > nd.term then ConvertToFollower(nd, term) else nd;
      if cand >= nd.peers || (n1.votedFor.Some? && n1.votedFor.value != cand)
         || !UpToDate(n1.log, lastIndex, lastTerm)
      then (n1, false)
      else (n1.(votedFor := Some(cand)), true)
  }

  function OnVoteReply(nd: Node, from: nat, reqTerm: nat, term: nat, granted: bool): Node {
    if term > nd.term then ConvertToFollower(nd, term)
    else if nd.role == Candidate && reqTerm == nd.term && granted then
      BecomeLeaderIfQuorum(nd.(votes := nd.votes + {from}))
    else nd
  }

  function NoOpEntry(term: nat, index: nat): LogEntry {
    LogEntry(term, index, [], NoOp, -1, 0)
  }

  function NormalEntry(term: nat, index: nat, command: bytes): LogEntry {
    LogEntry(term, index, command, Normal, -1, 0)
  }

  /** The no-op is appended only when there is an uncommitted tail. */
  function BecomeLeaderIfQuorum(nd: Node): Node {
    if nd.role != Candidate || |nd.votes| < Quorum(nd.peers) then nd
    else
      var log := if |nd.log| > nd.commit then nd.log + [NoOpEntry(nd.term, |nd.log| + 1)] else nd.log;
      nd.(role := Leader, log := log,
          readSafe := if |nd.log| > nd.commit then |log| else nd.commit,
          next := Filled(nd.peers, |log| + 1),
          matched := Filled(nd.peers, 0))
  }

  // -------------------------------------------------------------- replication

  /** The fast-backup scan: from f, step back over the run of entries of the conflicting term. */
  function ConflictStart(log: Log, f: nat, term: nat): (r: nat)
    requires f <= |log|
    ensures r <= f
    decreases f
  {
    if f > 1 && TermAt(log, f - 1) == term then ConflictStart(log, f - 1, term) else f
  }

  /** The append/overwrite loop: skip what is there, cut at a term conflict, append the rest. */
  function Merge(log: Log, entries: Log): Log
    decreases |entries|
  {
    if entries == [] then log
    else
      var e := entries[0];
      var log1 :=
        if e.index == 0 then log
        else if e.index <= |log| then
          if log[e.index - 1].term != e.term then log[..e.index - 1] + [e] else log
        else log + [e];
      Merge(log1, entries[1..])
  }

  /** The entries above the snapshot point: the others are skipped. */
  function Above(entries: Log, snap: nat): Log {
    if entries == [] then []
    else if entries[0].index <= snap then Above(entries[1..], snap)
    else [entries[0]] + Above(entries[1..], snap)
  }

  /** The index in front of entry k of a message. */
  function IndexBefore(prevIndex: nat, entries: Log, k: nat): nat
    requires k <= |entries|
  {
    if k == 0 then prevIndex else entries[k - 1].index
  }

  /**
   * No entry leaves a gap behind the one before it. The loop addresses the log by index and
   * pushes what lies behind its end, so an entry behind a gap would be pushed to a wrong place.
   */
  predicate Gapless(prevIndex: nat, entries: Log) {
    forall k: nat :: k < |entries| ==> entries[k].index <= IndexBefore(prevIndex, entries, k) + 1
  }

  function Min(a: nat, b: nat): nat { if a <= b then a else b }
  function Max(a: nat, b: nat): nat { if a >= b then a else b }

  datatype AppendReply = AppendReply(term: nat, success: bool, nextIndex: nat, ctx: nat)

  /** The node an AppendEntries handler works on: a follower in the sender's term. */
  function Lowered(nd: Node, term: nat): Node {
    if term > nd.term || nd.role != Follower then ConvertToFollower(nd, term) else nd
  }

  function HandleAppend(nd: Node, term: nat, prevIndex: nat, prevTerm: nat, entries: Log,
                        leaderCommit: nat, ctx: nat): (r: (Node, AppendReply))
  {
    if term < nd.term then (nd, AppendReply(nd.term, false, 0, ctx))
    else AppendTo(Lowered(nd, term), prevIndex, prevTerm, entries, leaderCommit, ctx)
  }

  /** The log check and what follows it. */
  function AppendTo(nd: Node, prevIndex: nat, prevTerm: nat, entries: Log, leaderCommit: nat, ctx: nat):
    (r: (Node, AppendReply))
  {
    if prevIndex > |nd.log| then (nd, AppendReply(nd.term, false, |nd.log| + 1, ctx))
    else if prevIndex >= nd.snapshot && TermAt(nd.log, prevIndex) != prevTerm then
      var f := ConflictStart(nd.log, prevIndex, TermAt(nd.log, prevIndex));
      (nd, AppendReply(nd.term, false, Max(f, nd.snapshot + 1), ctx))
    else
      (nd.(log := Merge(nd.log, Above(entries, nd.snapshot)),
           commit := Max(nd.commit, Min(leaderCommit, prevIndex + |entries|))),
       AppendReply(nd.term, true, 0, ctx))
  }

  /** matched over all voters; a leader counts its own last index. */
  function MatchedValues(nd: Node): (r: seq<nat>)
    requires |nd.matched| == nd.peers
  {
    seq(nd.peers, i requires 0 <= i < nd.peers => if i == nd.me then |nd.log| else nd.matched[i])
  }

  /** AdvanceCommitIndexLocked: the quorum-supported index, if it is of the current term. */
  function AdvanceCommit(nd: Node): Node
    requires |nd.matched| == nd.peers
  {
    if nd.role != Leader || nd.peers < Quorum(nd.peers) then nd
    else
      var n := Sorted(MatchedValues(nd))[nd.peers - Quorum(nd.peers)];
      if n > nd.commit && n <= |nd.log| && TermAt(nd.log, n) == nd.term then nd.(commit := n) else nd
  }

  function RecordReadAck(nd: Node, ctx: nat, from: nat): Node {
    if ctx == 0 || nd.round.None? || nd.round.value.ctx != ctx || nd.round.value.term != nd.term
       || from >= nd.peers || from in nd.round.value.acked
    then nd
    else
      var acked := nd.round.value.acked + {from};
      nd.(round := Some(nd.round.value.(acked := acked,
                                        done := nd.round.value.done || |acked| >= Quorum(nd.peers))))
  }

  function OnAppendReply(nd: Node, from: nat, reqTerm: nat, prevIndex: nat, count: nat, term: nat,
                         success: bool, nextIndex: nat, ctx: nat): Node
    requires |nd.matched| == |nd.next| == nd.peers
  {
    if term > nd.term then ConvertToFollower(nd, term)
    else if reqTerm != nd.term || nd.role != Leader || from >= nd.peers then nd
    else
      var n1 := RecordReadAck(nd, ctx, from);
      if success then
        AdvanceCommit(n1.(matched := n1.matched[from := Max(n1.matched[from], prevIndex + count)]))
      else if nextIndex > 0 then
        n1.(next := n1.next[from := Max(nextIndex, n1.matched[from] + 1)])
      else
        n1.(next := n1.next[from := if n1.next[from] > 1 then n1.next[from] - 1 else 1])
  }

  /** Start: an admitted proposal is appended; a single voter commits it at once. */
  function Propose(nd: Node, command: bytes): Node
    requires |nd.matched| == nd.peers
  {
    if nd.role != Leader then nd
    else AdvanceCommit(nd.(log := nd.log + [NormalEntry(nd.term, |nd.log| + 1, command)]))
  }

  // ---------------------------------------------------- apply, read, restart

  /** One batch of ApplyLoop. */
  function ApplyBatch(nd: Node): Node {
    var stop := Min(nd.commit, Min(|nd.log|, nd.applied + MAX_APPLY_BATCH));
    if stop <= nd.applied then nd
    else nd.(applied := stop, delivered := nd.delivered + nd.log[Min(stop, Max(nd.applied, nd.snapshot))..stop])
  }

  /** Snapshot: the committed prefix up to index gives way to a snapshot. */
  function TakeSnapshot(nd: Node, index: nat): Node {
    if nd.snapshot < index <= nd.commit && index <= |nd.log| then nd.(snapshot := index) else nd
  }

  /** ReadIndex, for the caller that opens the round; a round in flight is joined, not replaced. */
  predicate MayOpenRead(nd: Node) {
    nd.role == Leader && nd.commit >= nd.readSafe
    && !(nd.round.Some? && !nd.round.value.done && nd.round.value.term == nd.term)
  }

  function OpenRead(nd: Node): Node {
    if MayOpenRead(nd) then
      nd.(round := Some(ReadRound(nd.nextCtx, nd.term, nd.commit, {nd.me}, false)),
          nextCtx := nd.nextCtx + 1)
    else nd
  }

  /** The last waiter of a round leaves: the round is withdrawn. */
  function CloseRead(nd: Node): Node {
    nd.(round := None)
  }

  /** A sitting leader gives up inside its term: it lost contact with the quorum, or its voter role. */
  function GiveUp(nd: Node): Node {
    if nd.role == Leader then ConvertToFollower(nd, nd.term) else nd
  }

  /** Crash and restart: only term, vote, log and snapshot were persisted. */
  function Restart(nd: Node): Node
    requires nd.snapshot <= |nd.log|
  {
    Node(nd.me, nd.peers, Follower, nd.term, nd.votedFor, nd.log, nd.snapshot, nd.snapshot, nd.snapshot,
         nd.log[..nd.snapshot], {}, false, {},
         Filled(nd.peers, |nd.log| + 1), Filled(nd.peers, 0), 0, None, 1)
  }

  function Fresh(me: nat, peers: nat): Node {
    Node(me, peers, Follower, 0, None, [], 0, 0, 0, [], {}, false, {},
         Filled(peers, 1), Filled(peers, 0), 0, None, 1)
  }
}
