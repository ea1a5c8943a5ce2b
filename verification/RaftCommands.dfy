/**
 * Where commands come from: over every run, what stands in a log, travels in a message or reaches a
 * state machine as a client's command was proposed to a leader of the entry's term; and what is
 * proposed to a leader is appended there.
 */
module RaftCommands {
  import opened Wrappers
  import opened RaftTypes
  import opened RaftRules
  import opened RaftSystem
  import opened RaftSafety
  import opened RaftPlay

  /** At moment j a client proposed the command of e to node n, the leader of e's term, whose log e continues. */
  ghost predicate ProposedAt(peers: nat, events: seq<Event>, j: nat, n: nat, e: LogEntry) {
    j < |events| && events[j] == ClientProposal(n, e.command) && n < |Run(peers, events[..j]).nodes|
    && var nd := NodeAt(peers, events, j, n);
    nd.role == Leader && nd.term == e.term && e.index == |nd.log| + 1
  }

  /** e carries a proposed command, or is a no-op that carries none. */
  ghost predicate Sourced(peers: nat, events: seq<Event>, e: LogEntry) {
    if e.kind == Normal then exists j: nat, n: nat :: ProposedAt(peers, events, j, n, e)
    else e.kind == NoOp && e.command == []
  }

  ghost predicate AllSourced(peers: nat, events: seq<Event>, log: Log) {
    forall i :: 0 <= i < |log| ==> Sourced(peers, events, log[i])
  }

  /** The logs of all nodes, and the entries of all messages. */
  ghost predicate SystemSourced(peers: nat, events: seq<Event>, s: System) {
    (forall i: nat :: i < |s.nodes| ==> AllSourced(peers, events, s.nodes[i].log))
    && forall m :: m in s.net && m.AppendReq? ==> AllSourced(peers, events, m.entries)
  }

  lemma SourcedLater(peers: nat, events: seq<Event>, x: Event, e: LogEntry)
    requires Sourced(peers, events, e)
    ensures Sourced(peers, events + [x], e)
  {
    if e.kind == Normal {
      var j: nat, n: nat :| ProposedAt(peers, events, j, n, e);
      assert (events + [x])[..j] == events[..j];
      assert ProposedAt(peers, events + [x], j, n, e);
    }
  }

  lemma LogLater(peers: nat, events: seq<Event>, x: Event, log: Log)
    requires AllSourced(peers, events, log)
    ensures AllSourced(peers, events + [x], log)
  {
    forall i | 0 <= i < |log| ensures Sourced(peers, events + [x], log[i]) { SourcedLater(peers, events, x, log[i]); }
  }

  lemma SystemLater(peers: nat, events: seq<Event>, x: Event, s: System)
    requires SystemSourced(peers, events, s)
    ensures SystemSourced(peers, events + [x], s)
  {
    forall i: nat | i < |s.nodes| ensures AllSourced(peers, events + [x], s.nodes[i].log) {
      LogLater(peers, events, x, s.nodes[i].log);
    }
    forall m | m in s.net && m.AppendReq? ensures AllSourced(peers, events + [x], m.entries) {
      LogLater(peers, events, x, m.entries);
    }
  }

  // ------------------------------------------------------------- one step of a node

  /** Every entry of after is one of before or one of more. */
  ghost predicate OnlyFrom(after: Log, before: Log, more: Log) {
    forall i :: 0 <= i < |after| ==> after[i] in before || after[i] in more
  }

  lemma {:induction false} MergeOnly(log: Log, entries: Log, before: Log, more: Log)
    requires OnlyFrom(log, before, more) && forall i :: 0 <= i < |entries| ==> entries[i] in more
    ensures OnlyFrom(Merge(log, entries), before, more)
    decreases |entries|
  {
    if entries != [] {
      var e := entries[0];
      var log1 :=
        if e.index == 0 then log
        else if e.index <= |log| then
          if log[e.index - 1].term != e.term then log[..e.index - 1] + [e] else log
        else log + [e];
      assert OnlyFrom(log1, before, more);
      MergeOnly(log1, entries[1..], before, more);
    }
  }

  lemma {:induction false} AboveOnly(entries: Log, snap: nat)
    ensures forall i :: 0 <= i < |Above(entries, snap)| ==> Above(entries, snap)[i] in entries
    decreases |entries|
  {
    if entries != [] {
      AboveOnly(entries[1..], snap);
      assert entries == [entries[0]] + entries[1..];
    }
  }

  /** A follower's log gets its entries from the message. */
  lemma AppendOnly(nd: Node, m: Msg)
    requires m.AppendReq? && Shaped(nd)
    ensures OnlyFrom(Receive(nd, m).0.log, nd.log, m.entries)
  {
    var n1 := if m.term < nd.term then nd else Lowered(nd, m.term);
    AboveOnly(m.entries, n1.snapshot);
    MergeOnly(nd.log, Above(m.entries, n1.snapshot), nd.log, m.entries);
  }

  /** The no-op with which a leader begins. */
  predicate Opener(e: LogEntry) {
    e.kind == NoOp && e.command == []
  }

  predicate SameOrOpened(before: Log, after: Log) {
    after == before || (|after| == |before| + 1 && after[..|before|] == before && Opener(after[|before|]))
  }

  lemma OtherReceived(nd: Node, m: Msg)
    requires Shaped(nd) && !m.AppendReq?
    ensures SameOrOpened(nd.log, Receive(nd, m).0.log)
  {
  }

  /** No other event but a proposal brings in an entry, except for the no-op. */
  lemma OtherSteps(nd: Node, e: Event)
    requires Shaped(nd) && !e.ClientProposal? && !(e.Deliver? && e.m.AppendReq?)
    ensures SameOrOpened(nd.log, NodeStep(nd, e).0.log)
  {
    if e.Deliver? { OtherReceived(nd, e.m); }
  }

  /** A leader appends what is proposed to it; nobody else does. */
  lemma ProposalStep(nd: Node, n: nat, command: bytes)
    requires Shaped(nd)
    ensures var log := NodeStep(nd, ClientProposal(n, command)).0.log;
      if nd.role == Leader then log == nd.log + [LogEntry(nd.term, |nd.log| + 1, command, Normal, -1, 0)]
      else log == nd.log
  {
  }

  lemma SendsOwn(nd: Node, e: Event)
    requires Shaped(nd)
    ensures forall m :: m in NodeStep(nd, e).1 && m.AppendReq? ==>
      forall i :: 0 <= i < |m.entries| ==> m.entries[i] in nd.log
  {
  }

  // -------------------------------------------------------------------- every run

  lemma FromSourced(peers: nat, events: seq<Event>, after: Log, before: Log, more: Log)
    requires OnlyFrom(after, before, more) && AllSourced(peers, events, before) && AllSourced(peers, events, more)
    ensures AllSourced(peers, events, after)
  {
  }

  lemma ProposalSourced(peers: nat, events: seq<Event>, s: System, n: nat, command: bytes)
    requires s == Run(peers, events) && n < |s.nodes| && Shaped(s.nodes[n])
    requires AllSourced(peers, events + [ClientProposal(n, command)], s.nodes[n].log)
    ensures AllSourced(peers, events + [ClientProposal(n, command)],
                       NodeStep(s.nodes[n], ClientProposal(n, command)).0.log)
  {
    var nd, more := s.nodes[n], events + [ClientProposal(n, command)];
    ProposalStep(nd, n, command);
    if nd.role == Leader {
      var x := LogEntry(nd.term, |nd.log| + 1, command, Normal, -1, 0);
      assert more[..|events|] == events;
      assert ProposedAt(peers, more, |events|, n, x);
    }
  }

  lemma OpenerSourced(peers: nat, events: seq<Event>, before: Log, after: Log)
    requires AllSourced(peers, events, before) && SameOrOpened(before, after)
    ensures AllSourced(peers, events, after)
  {
    forall i | 0 <= i < |after| ensures Sourced(peers, events, after[i]) {
      if i < |before| { assert after[i] == before[i]; }
    }
  }

  lemma NodeSourced(peers: nat, events: seq<Event>, s: System, e: Event)
    requires s == Run(peers, events) && Enabled(s, e) && SystemSourced(peers, events + [e], s)
    ensures AllSourced(peers, events + [e], NodeStep(s.nodes[e.n], e).0.log)
  {
    var nd, more := s.nodes[e.n], events + [e];
    assert AllSourced(peers, more, nd.log);
    if e.ClientProposal? {
      ProposalSourced(peers, events, s, e.n, e.command);
    } else if e.Deliver? && e.m.AppendReq? {
      if e.m.dst == nd.me {
        AppendOnly(nd, e.m);
        FromSourced(peers, more, Receive(nd, e.m).0.log, nd.log, e.m.entries);
      }
    } else {
      OtherSteps(nd, e);
      OpenerSourced(peers, more, nd.log, NodeStep(nd, e).0.log);
    }
  }

  lemma SentSourced(peers: nat, events: seq<Event>, s: System, e: Event, m: Msg)
    requires Enabled(s, e) && SystemSourced(peers, events, s) && m in NodeStep(s.nodes[e.n], e).1 && m.AppendReq?
    ensures AllSourced(peers, events, m.entries)
  {
    SendsOwn(s.nodes[e.n], e);
    assert AllSourced(peers, events, s.nodes[e.n].log);
    assert OnlyFrom(m.entries, s.nodes[e.n].log, []);
  }

  lemma {:induction false} EverythingSourced(peers: nat, events: seq<Event>)
    ensures SystemSourced(peers, events, Run(peers, events))
  {
    if events != [] {
      var init, e := events[..|events| - 1], events[|events| - 1];
      assert events == init + [e];
      var s := Run(peers, init);
      EverythingSourced(peers, init);
      SystemLater(peers, init, e, s);
      if Enabled(s, e) {
        NodeSourced(peers, init, s, e);
        var s2 := Run(peers, events);
        forall m | m in s2.net && m.AppendReq? ensures AllSourced(peers, events, m.entries) {
          if m !in s.net { SentSourced(peers, events, s, e, m); }
        }
      }
    }
  }

  /**
   * Every client command in any log of a run, and so every one that reached a state machine, was
   * proposed before to a leader of the entry's term, at the entry's place.
   */
  lemma CommandsWereProposed(peers: nat, events: seq<Event>, i: nat, a: nat, n: nat) returns (j: nat, b: nat)
    requires i <= |events| && a < |Run(peers, events[..i]).nodes| && n < |NodeAt(peers, events, i, a).log|
    requires NodeAt(peers, events, i, a).log[n].kind == Normal
    ensures j < i && ProposedAt(peers, events, j, b, NodeAt(peers, events, i, a).log[n])
  {
    EverythingSourced(peers, events[..i]);
    var e := NodeAt(peers, events, i, a).log[n];
    assert Sourced(peers, events[..i], e);
    j, b :| ProposedAt(peers, events[..i], j, b, e);
    assert events[..i][..j] == events[..j];
  }

  /** What is proposed to a leader stands at the end of its log right after, and nothing else changed there. */
  lemma ProposalsAreAppended(peers: nat, events: seq<Event>, j: nat, n: nat, command: bytes)
    requires j < |events| && events[j] == ClientProposal(n, command)
    requires n < |Run(peers, events[..j]).nodes| && NodeAt(peers, events, j, n).role == Leader
    ensures n < |Run(peers, events[..j + 1]).nodes|
    ensures var nd := NodeAt(peers, events, j, n);
      NodeAt(peers, events, j + 1, n).log
      == nd.log + [LogEntry(nd.term, |nd.log| + 1, command, Normal, -1, 0)]
  {
    var s := Run(peers, events[..j]);
    assert events[..j + 1][..j] == events[..j];
    RunShaped(peers, events[..j], n);
    ProposalStep(s.nodes[n], n, command);
  }

  lemma RunShaped(peers: nat, events: seq<Event>, n: nat)
    requires n < |Run(peers, events).nodes|
    ensures Shaped(Run(peers, events).nodes[n])
  {
    NodeCountFixed(peers, events);
    NodeIs(peers, Run(peers, events), n);
  }
}
