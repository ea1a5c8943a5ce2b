/**
 * The node as raft.cpp has it: fields updated in place under one lock, a log with a
 * sentinel that is cut at the snapshot point. View() is the node as RaftRules sees it,
 * with the compacted prefix put back; each critical section is proved to do to the view
 * what its rule says.
 */
module RaftNode {
  import opened Wrappers
  import opened OrderStatistics
  import opened RaftTypes
  import opened RaftRules

  ghost function TrueSet(flags: seq<bool>): set<nat> {
    set i: nat | i < |flags| && flags[i]
  }

  /** CountGrantedVotes: every peer is a voter. */
  method CountGranted(flags: seq<bool>) returns (n: nat)
    ensures n == |TrueSet(flags)|
  {
    n := 0;
    for i := 0 to |flags|
      invariant n == |TrueSet(flags[..i])|
    {
      if flags[i] {
        assert TrueSet(flags[..i + 1]) == TrueSet(flags[..i]) + {i};
        n := n + 1;
      } else {
        assert TrueSet(flags[..i + 1]) == TrueSet(flags[..i]);
      }
    }
    assert flags[..|flags|] == flags;
  }

  lemma FlagSet(flags: seq<bool>, i: nat)
    requires i < |flags|
    ensures TrueSet(flags[i := true]) == TrueSet(flags) + {i}
  {
  }

  lemma OneFlag(peers: nat, me: nat)
    requires me < peers
    ensures TrueSet(seq(peers, i => i == me)) == {me}
  {
  }

  lemma SliceGrows(log: Log, from: nat, i: nat)
    requires from <= i < |log|
    ensures log[from..i + 1] == log[from..i] + [log[i]]
  {
  }

  class RaftNode {
    const me: nat
    const peers: nat
    var state: Role
    var currentTerm: nat
    var votedFor: Option<nat>
    var logs: seq<LogEntry>
    var snapshotIndex: nat
    var commitIndex: nat
    var lastApplied: nat
    var applied: seq<LogEntry>
    var preVoteGranted: seq<bool>
    var startReal: bool
    var voteGranted: seq<bool>
    var nextIndex: seq<nat>
    var matchIndex: seq<nat>
    var readSafeCommit: nat
    var activeRead: Option<ReadRound>
    var nextReadCtx: nat
    ghost var compacted: Log

    ghost predicate Valid()
      reads this
    {
      |logs| >= 1 && |compacted| == snapshotIndex && logs[0].term == LastTerm(compacted)
      && (forall k :: 0 <= k < |logs| ==> logs[k].index == snapshotIndex + k)
      && (forall k :: 0 <= k < snapshotIndex ==> compacted[k].index == k + 1)
      && snapshotIndex <= commitIndex
      && |preVoteGranted| == |voteGranted| == |nextIndex| == |matchIndex| == peers && me < peers
    }

    ghost function WholeLog(): Log
      reads this
      requires Valid()
    {
      compacted + logs[1..]
    }

    ghost function View(): Node
      reads this
      requires Valid()
    {
      Node(me, peers, state, currentTerm, votedFor, WholeLog(), snapshotIndex, commitIndex, lastApplied, applied,
           TrueSet(preVoteGranted), startReal, TrueSet(voteGranted), nextIndex, matchIndex, readSafeCommit,
           activeRead, nextReadCtx)
    }

    constructor (me: nat, peers: nat)
      requires me < peers
      ensures Valid() && snapshotIndex == 0 && View() == Fresh(me, peers)
    {
      this.me, this.peers := me, peers;
      state, currentTerm, votedFor := Follower, 0, None;
      logs := [LogEntry(0, 0, [], Normal, -1, 0)];
      snapshotIndex, commitIndex, lastApplied, applied := 0, 0, 0, [];
      preVoteGranted, startReal, voteGranted := seq(peers, _ => false), false, seq(peers, _ => false);
      nextIndex, matchIndex := Filled(peers, 1), Filled(peers, 0);
      readSafeCommit, activeRead, nextReadCtx := 0, None, 1;
      compacted := [];
    }

    function LastLogIndex(): (r: nat)
      reads this
      requires Valid()
      ensures r == |WholeLog()|
    {
      logs[|logs| - 1].index
    }

    function LastLogTerm(): (r: nat)
      reads this
      requires Valid()
      ensures r == LastTerm(WholeLog())
    {
      logs[|logs| - 1].term
    }

    lemma At(i: nat)
      requires Valid() && snapshotIndex <= i <= LastLogIndex()
      ensures logs[i - snapshotIndex].term == TermAt(WholeLog(), i)
    {
    }

    /** The same for the entry itself, behind the sentinel. */
    lemma EntryAt(i: nat)
      requires Valid() && snapshotIndex < i <= LastLogIndex()
      ensures |WholeLog()| == LastLogIndex() && logs[i - snapshotIndex] == WholeLog()[i - 1]
    {
    }

    method ToFollower(term: nat)
      requires Valid()
      modifies this
      ensures Valid() && View() == ConvertToFollower(old(View()), term)
      ensures compacted == old(compacted) && logs == old(logs) && snapshotIndex == old(snapshotIndex)
    {
      state, currentTerm, votedFor := Follower, term, None;
    }

    /** logs_.push_back. */
    method Push(e: LogEntry)
      requires Valid() && e.index == LastLogIndex() + 1
      modifies this`logs
      ensures Valid() && WholeLog() == old(WholeLog()) + [e] && View() == old(View()).(log := old(WholeLog()) + [e])
    {
      ghost var whole := WholeLog();
      logs := logs + [e];
      assert WholeLog() == whole + [e];
    }

    /** logs_.resize, then push_back: the log from e's index on gives way to e. */
    method CutAndPush(e: LogEntry)
      requires Valid() && snapshotIndex < e.index <= LastLogIndex()
      modifies this`logs
      ensures Valid() && WholeLog() == old(WholeLog())[..e.index - 1] + [e]
    {
      ghost var whole := WholeLog();
      logs := logs[..e.index - snapshotIndex] + [e];
      assert WholeLog() == whole[..e.index - 1] + [e];
    }

    // ------------------------------------------------------------- elections

    method BeginElection()
      requires Valid()
      modifies this
      ensures Valid() && View() == StartElection(old(View()))
    {
      if state == Leader { return; }
      if state == Candidate { ToFollower(currentTerm); }
      preVoteGranted := seq(peers, i => i == me);
      var n := CountGranted(preVoteGranted);
      OneFlag(peers, me);
      if n >= Quorum(peers) { startReal := true; }
    }

    method PreVoteReply(from: nat, reqTerm: nat, term: nat, granted: bool)
      requires Valid() && from < peers
      modifies this
      ensures Valid() && View() == OnPreVoteReply(old(View()), from, reqTerm, term, granted)
      ensures TrueSet(preVoteGranted)
        == old(TrueSet(preVoteGranted))
          + if term <= old(currentTerm) == reqTerm && old(state) == Follower && granted then {from} else {}
      ensures startReal && !old(startReal) ==> |TrueSet(preVoteGranted)| >= Quorum(peers)
    {
      if term > currentTerm {
        ToFollower(term);
        return;
      }
      if reqTerm == currentTerm && state == Follower && granted {
        FlagSet(preVoteGranted, from);
        preVoteGranted := preVoteGranted[from := true];
        var n := CountGranted(preVoteGranted);
        if n >= Quorum(peers) { startReal := true; }
      }
    }

    method RealElection()
      requires Valid()
      modifies this
      ensures Valid() && View() == StartRealElection(old(View()))
    {
      if state != Follower { return; }
      state := Candidate;
      currentTerm := currentTerm + 1;
      votedFor := Some(me);
      voteGranted := seq(peers, i => i == me);
      OneFlag(peers, me);
      assert View() == Candidacy(old(View()));
      TakeOffice();
    }

    method TakeOffice()
      requires Valid()
      modifies this
      ensures Valid() && View() == BecomeLeaderIfQuorum(old(View()))
      ensures state == Leader && old(state) != Leader ==>
        && |TrueSet(voteGranted)| >= Quorum(peers) && readSafeCommit == Max(commitIndex, |WholeLog()|)
        && WholeLog() == old(WholeLog())
          + (if |old(WholeLog())| > commitIndex
             then [LogEntry(currentTerm, |old(WholeLog())| + 1, [], NoOp, -1, 0)] else [])
        && forall i :: 0 <= i < peers ==> nextIndex[i] == |WholeLog()| + 1 && matchIndex[i] == 0
    {
      if state != Candidate { return; }
      var granted := CountGranted(voteGranted);
      if granted < Quorum(peers) { return; }
      FixReadPoint();
      Lead();
    }

    /** The leader's bookkeeping starts behind its own last entry. */
    method Lead()
      requires Valid()
      modifies this`nextIndex, this`matchIndex, this`state
      ensures Valid()
      ensures View() == old(View()).(
        role := Leader, next := Filled(peers, |old(WholeLog())| + 1), matched := Filled(peers, 0))
    {
      nextIndex := Filled(peers, LastLogIndex() + 1);
      matchIndex := Filled(peers, 0);
      state := Leader;
    }

    /** The no-op, if there is an uncommitted tail, and the index a read must wait for. */
    method FixReadPoint()
      requires Valid()
      modifies this`logs, this`readSafeCommit
      ensures Valid()
      ensures View() == var nd := old(View());
        if |nd.log| > nd.commit then
          nd.(log := nd.log + [NoOpEntry(nd.term, |nd.log| + 1)], readSafe := |nd.log| + 1)
        else nd.(readSafe := nd.commit)
    {
      if LastLogIndex() > commitIndex {
        Push(NoOpEntry(currentTerm, LastLogIndex() + 1));
        readSafeCommit := LastLogIndex();
      } else {
        readSafeCommit := commitIndex;
      }
    }

    method VoteReply(from: nat, reqTerm: nat, term: nat, granted: bool)
      requires Valid() && from < peers
      modifies this
      ensures Valid() && View() == OnVoteReply(old(View()), from, reqTerm, term, granted)
    {
      if term > currentTerm {
        ToFollower(term);
        return;
      }
      if state == Candidate && reqTerm == currentTerm && granted {
        FlagSet(voteGranted, from);
        voteGranted := voteGranted[from := true];
        TakeOffice();
      }
    }

    method RequestVote(cand: nat, term: nat, lastIndex: nat, lastTerm: nat) returns (replyTerm: nat, granted: bool)
      requires Valid()
      modifies this
      ensures Valid() && (View(), granted) == HandleVote(old(View()), cand, term, lastIndex, lastTerm)
      ensures replyTerm == currentTerm
      ensures granted <==>
        && term == currentTerm && cand < peers
        && (term > old(currentTerm) || old(votedFor) == None || old(votedFor) == Some(cand))
        && (lastTerm > LastTerm(WholeLog()) || (lastTerm == LastTerm(WholeLog()) && lastIndex >= |WholeLog()|))
    {
      replyTerm, granted := currentTerm, false;
      if term < currentTerm { return; }
      if term > currentTerm {
        ToFollower(term);
        replyTerm := currentTerm;
      }
      if cand >= peers { return; }
      if votedFor.Some? && votedFor.value != cand { return; }
      var upToDate := lastTerm > LastLogTerm() || (lastTerm == LastLogTerm() && lastIndex >= LastLogIndex());
      if !upToDate { return; }
      votedFor := Some(cand);
      granted := true;
    }

    // ----------------------------------------------------------- replication

    /** The fast-backup scan, down to the snapshot point. */
    method ScanConflict(from: nat) returns (f: nat)
      requires Valid() && snapshotIndex <= from <= LastLogIndex()
      ensures f == Max(ConflictStart(WholeLog(), from, TermAt(WholeLog(), from)), snapshotIndex + 1)
    {
      At(from);
      var term := logs[from - snapshotIndex].term;
      f := from;
      while f > snapshotIndex + 1 && logs[f - 1 - snapshotIndex].term == term
        invariant snapshotIndex <= f <= from && (f == from || f > snapshotIndex)
        invariant ConflictStart(WholeLog(), from, term) == ConflictStart(WholeLog(), f, term)
      {
        At(f - 1);
        f := f - 1;
      }
      if f > snapshotIndex + 1 { At(f - 1); }
      f := Max(f, snapshotIndex + 1);
    }

    /** The append/overwrite loop. */
    method Overwrite(prevIndex: nat, entries: Log)
      requires Valid() && prevIndex <= LastLogIndex() && Gapless(prevIndex, entries)
      modifies this`logs
      ensures Valid() && WholeLog() == Merge(old(WholeLog()), Above(entries, snapshotIndex))
    {
      ghost var whole := WholeLog();
      assert entries[0..] == entries;
      for i := 0 to |entries|
        invariant Valid() && IndexBefore(prevIndex, entries, i) <= LastLogIndex()
        invariant Merge(WholeLog(), Above(entries[i..], snapshotIndex)) == Merge(whole, Above(entries, snapshotIndex))
      {
        var e := entries[i];
        ghost var rest := entries[i + 1..];
        assert entries[i..][1..] == rest;
        if e.index <= 0 || e.index <= snapshotIndex { continue; }
        assert ([e] + Above(rest, snapshotIndex))[1..] == Above(rest, snapshotIndex);
        if e.index <= LastLogIndex() {
          At(e.index);
          if logs[e.index - snapshotIndex].term != e.term { CutAndPush(e); }
        } else {
          Push(e);
        }
      }
    }

    method AppendEntries(term: nat, prevIndex: nat, prevTerm: nat, entries: Log, leaderCommit: nat, ctx: nat)
      returns (reply: AppendReply)
      requires Valid() && Gapless(prevIndex, entries)
      modifies this
      ensures Valid()
      ensures (View(), reply)
           == HandleAppend(old(View()), term, prevIndex, prevTerm, entries, leaderCommit, ctx)
      ensures reply.success ==>
        && term == currentTerm && state == Follower && reply.term == currentTerm
        && commitIndex == Max(old(commitIndex), Min(leaderCommit, prevIndex + |entries|))
      ensures !reply.success ==> WholeLog() == old(WholeLog()) && commitIndex == old(commitIndex)
    {
      if term < currentTerm { return AppendReply(currentTerm, false, 0, ctx); }
      if term > currentTerm || state != Follower { ToFollower(term); }
      reply := AppendHere(prevIndex, prevTerm, entries, leaderCommit, ctx);
    }

    /** The handler, once the node is a follower in the sender's term. */
    method AppendHere(prevIndex: nat, prevTerm: nat, entries: Log, leaderCommit: nat, ctx: nat)
      returns (reply: AppendReply)
      requires Valid() && Gapless(prevIndex, entries)
      modifies this`logs, this`commitIndex
      ensures Valid()
      ensures (View(), reply) == AppendTo(old(View()), prevIndex, prevTerm, entries, leaderCommit, ctx)
    {
      var ok, next := Matches(prevIndex, prevTerm);
      if !ok { return AppendReply(currentTerm, false, next, ctx); }
      Accept(prevIndex, entries, leaderCommit);
      return AppendReply(currentTerm, true, 0, ctx);
    }

    /** The consistency check, and where the leader should go on when it fails. */
    method Matches(prevIndex: nat, prevTerm: nat) returns (ok: bool, next: nat)
      requires Valid()
      ensures ok
        <==> prevIndex <= |WholeLog()| && (prevIndex >= snapshotIndex ==> TermAt(WholeLog(), prevIndex) == prevTerm)
      ensures !ok && prevIndex > |WholeLog()| ==> next == |WholeLog()| + 1
      ensures !ok && prevIndex <= |WholeLog()|
        ==> next == Max(ConflictStart(WholeLog(), prevIndex, TermAt(WholeLog(), prevIndex)), snapshotIndex + 1)
      ensures |WholeLog()| == LastLogIndex()
    {
      if prevIndex > LastLogIndex() { return false, LastLogIndex() + 1; }
      if prevIndex >= snapshotIndex {
        At(prevIndex);
        if logs[prevIndex - snapshotIndex].term != prevTerm {
          next := ScanConflict(prevIndex);
          return false, next;
        }
      }
      return true, 0;
    }

    /** The log matched: overwrite, and follow the leader's commit index. */
    method Accept(prevIndex: nat, entries: Log, leaderCommit: nat)
      requires Valid() && prevIndex <= LastLogIndex() && Gapless(prevIndex, entries)
      modifies this`logs, this`commitIndex
      ensures Valid()
      ensures View() == old(View()).(
        log := Merge(old(WholeLog()), Above(entries, snapshotIndex)),
        commit := Max(old(commitIndex), Min(leaderCommit, prevIndex + |entries|)))
    {
      Overwrite(prevIndex, entries);
      if leaderCommit > commitIndex {
        var newCommit := Min(leaderCommit, prevIndex + |entries|);
        if newCommit > commitIndex { commitIndex := newCommit; }
      }
    }

    /** AdvanceCommitIndexLocked: collect, sort, pick, and check the term. */
    method AdvanceCommitIndex()
      requires Valid()
      modifies this`commitIndex
      ensures Valid() && View() == AdvanceCommit(old(View()))
    {
      if state != Leader { return; }
      var matched := [];
      for i := 0 to peers
        invariant |matched| == i
        invariant forall k :: 0 <= k < i ==> matched[k] == if k == me then LastLogIndex() else matchIndex[k]
      {
        matched := matched + [if i == me then LastLogIndex() else matchIndex[i]];
      }
      assert matched == MatchedValues(View());
      var n := Sorted(matched)[peers - Quorum(peers)];
      if n > commitIndex {
        var pos := n - snapshotIndex;
        if pos < |logs| {
          At(n);
          if logs[pos].term == currentTerm { commitIndex := n; }
        }
      }
    }

    method RecordAck(ctx: nat, from: nat)
      requires Valid()
      modifies this`activeRead
      ensures Valid() && View() == RecordReadAck(old(View()), ctx, from)
    {
      if ctx == 0 || activeRead.None? || activeRead.value.ctx != ctx { return; }
      var r := activeRead.value;
      if r.term != currentTerm || from >= peers || from in r.acked { return; }
      var acked := r.acked + {from};
      activeRead := Some(r.(acked := acked, done := r.done || |acked| >= Quorum(peers)));
    }

    method AppendReplied(from: nat, reqTerm: nat, prevIndex: nat, count: nat, term: nat, success: bool,
                         hint: nat, ctx: nat)
      requires Valid() && from < peers
      modifies this
      ensures Valid()
      ensures View() == OnAppendReply(old(View()), from, reqTerm, prevIndex, count, term, success, hint, ctx)
      ensures matchIndex
        == if term <= old(currentTerm) == reqTerm && old(state) == Leader && success
           then old(matchIndex)[from := Max(old(matchIndex)[from], prevIndex + count)] else old(matchIndex)
    {
      if term > currentTerm {
        ToFollower(term);
        return;
      }
      if reqTerm != currentTerm || state != Leader { return; }
      RecordAck(ctx, from);
      if success {
        NoteMatch(from, prevIndex + count);
        AdvanceCommitIndex();
      } else {
        BackUp(from, hint);
      }
    }

    /** What a follower confirmed only ever grows. */
    method NoteMatch(from: nat, newMatch: nat)
      requires Valid() && from < peers
      modifies this`matchIndex
      ensures Valid()
      ensures View() == old(View()).(matched := old(matchIndex)[from := Max(old(matchIndex)[from], newMatch)])
    {
      if newMatch > matchIndex[from] { matchIndex := matchIndex[from := newMatch]; }
      assert matchIndex == old(matchIndex)[from := Max(old(matchIndex)[from], newMatch)];
    }

    /** A rejected leader follows the hint, or goes back by one. */
    method BackUp(from: nat, hint: nat)
      requires Valid() && from < peers
      modifies this`nextIndex
      ensures Valid()
      ensures var next, base := old(nextIndex), matchIndex[from] + 1;
        View() == old(View()).(
          next := next[from := if hint > 0 then Max(hint, base) else if next[from] > 1 then next[from] - 1 else 1])
    {
      if hint > 0 {
        nextIndex := nextIndex[from := Max(hint, matchIndex[from] + 1)];
      } else {
        nextIndex := nextIndex[from := if nextIndex[from] > 1 then nextIndex[from] - 1 else 1];
      }
    }

    method Start(command: bytes) returns (index: Option<nat>)
      requires Valid()
      modifies this
      ensures Valid() && View() == Propose(old(View()), command)
      ensures index == if old(state) == Leader then Some(old(|WholeLog()|) + 1) else None
      ensures WholeLog() == old(WholeLog())
        + if index.None? then [] else [LogEntry(currentTerm, index.value, command, Normal, -1, 0)]
    {
      if state != Leader { return None; }
      index := Some(LastLogIndex() + 1);
      Push(NormalEntry(currentTerm, LastLogIndex() + 1, command));
      AdvanceCommitIndex();
    }

    // ---------------------------------------------------- apply and compaction

    /** The entries behind from, up to stop; what the snapshot covers counts as applied. */
    method Collect(from: nat, stop: nat) returns (batch: Log)
      requires Valid() && from <= stop <= LastLogIndex()
      ensures stop <= |WholeLog()| && batch == WholeLog()[Min(stop, Max(from, snapshotIndex))..stop]
    {
      batch := [];
      ghost var whole := WholeLog();
      for idx := from to stop
        invariant batch == whole[Min(idx, Max(from, snapshotIndex))..idx]
      {
        if idx + 1 <= snapshotIndex { continue; }
        EntryAt(idx + 1);
        SliceGrows(whole, Max(from, snapshotIndex), idx);
        batch := batch + [logs[idx + 1 - snapshotIndex]];
      }
    }

    /** One batch of ApplyLoop. */
    method ApplyCommitted()
      requires Valid()
      modifies this`lastApplied, this`applied
      ensures Valid() && View() == ApplyBatch(old(View()))
      ensures lastApplied == Max(old(lastApplied), Min(Min(commitIndex, |WholeLog()|), old(lastApplied) + 128))
    {
      var stop := Min(commitIndex, Min(LastLogIndex(), lastApplied + MAX_APPLY_BATCH));
      if stop <= lastApplied { return; }
      var batch := Collect(lastApplied, stop);
      lastApplied, applied := stop, applied + batch;
    }

    /**
     * Snapshot: the committed prefix up to index gives way to a sentinel. The whole log does
     * not change at all.
     */
    method Snapshot(index: nat)
      requires Valid()
      modifies this
      ensures Valid() && View() == TakeSnapshot(old(View()), index)
      ensures snapshotIndex
        == if index <= commitIndex && index <= |WholeLog()| then Max(old(snapshotIndex), index) else old(snapshotIndex)
      ensures |logs| == |WholeLog()| - snapshotIndex + 1 && WholeLog() == old(WholeLog())
    {
      if index > commitIndex || index <= snapshotIndex { return; }
      var pos := index - snapshotIndex;
      if pos >= |logs| { return; }
      ghost var whole := WholeLog();
      var newLogs := [LogEntry(logs[pos].term, index, [], Normal, -1, 0)] + logs[pos + 1..];
      compacted := whole[..index];
      logs := newLogs;
      snapshotIndex := index;
      assert WholeLog() == whole;
    }

    /** CheckQuorum, and the end of a leader that lost its voter role. */
    method StepDown()
      requires Valid()
      modifies this
      ensures Valid() && View() == GiveUp(old(View()))
    {
      if state == Leader { ToFollower(currentTerm); }
    }

    /** ReadIndex's first critical section, for the caller that opens the round. */
    method BeginRead() returns (ctx: Option<nat>)
      requires Valid()
      modifies this`activeRead, this`nextReadCtx
      ensures Valid() && View() == OpenRead(old(View()))
      ensures ctx == if MayOpenRead(old(View())) then Some(old(nextReadCtx)) else None
      ensures ctx.Some? <==>
        && state == Leader && commitIndex >= readSafeCommit
        && !(old(activeRead).Some? && old(activeRead).value.term == currentTerm && !old(activeRead).value.done)
      ensures ctx.Some? ==> activeRead == Some(ReadRound(ctx.value, currentTerm, commitIndex, {me}, false))
    {
      if state != Leader || commitIndex < readSafeCommit { return None; }
      if activeRead.Some? && !activeRead.value.done && activeRead.value.term == currentTerm { return None; }
      ctx := Some(nextReadCtx);
      activeRead := Some(ReadRound(nextReadCtx, currentTerm, commitIndex, {me}, false));
      nextReadCtx := nextReadCtx + 1;
    }
  }
}
