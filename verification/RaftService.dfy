/**
 * The store can always be served: from every reachable state, a majority alone can elect a leader,
 * take a command to every member's state machine, and confirm a read that covers it.
 */
module RaftService {
  import opened Wrappers
  import opened OrderStatistics
  import opened RaftTypes
  import opened RaftRules
  import opened RaftSystem
  import opened RaftSafety
  import opened FastBackup
  import opened RaftPlay
  import opened RaftElectable
  import opened RaftAdvance

  // ---------------------------------------------------------------- replication

  /**
   * L leads term t with this log, whose last entry is of the term and of which it compacted
   * nothing; the members are at most there, and those done hold the log and confirmed it.
   */
  ghost predicate Spreading(s: System, a: nat, members: set<nat>, t: nat, log: Log, done: set<nat>) {
    exists n: nat :: n == t && SpreadingAt(s, a, members, n, log, done)
  }

  ghost predicate SpreadingAt(s: System, a: nat, members: set<nat>, t: nat, log: Log, done: set<nat>) {
    a < |s.nodes| && Leads(s.nodes[a], t, log)
    && (forall v: nat :: v in members && v < |s.nodes| ==> s.nodes[v].term <= t)
    && forall v: nat :: v in done && v != a && v < |s.nodes| ==> Holding(s.nodes[a], v, s.nodes[v], t, log)
  }

  ghost predicate Leads(nd: Node, t: nat, log: Log) {
    nd.role == Leader && nd.term == t && nd.log == log && nd.snapshot == 0
    && log != [] && LastTerm(log) == t && Settled(nd)
  }

  ghost predicate Holding(lead: Node, v: nat, nd: Node, t: nat, log: Log) {
    nd.role == Follower && nd.term == t && nd.log == log && v < |lead.matched| && lead.matched[v] == |log|
  }

  /** A proposal by the leader. */
  lemma ProposedBy(nd: Node, command: bytes)
    requires nd.role == Leader && |nd.matched| == nd.peers && nd.snapshot == 0
    ensures var n1 := Propose(nd, command);
      |n1.log| == |nd.log| + 1 && Leads(n1, nd.term, n1.log) && n1.readSafe == nd.readSafe && n1.matched == nd.matched
    ensures var e := Propose(nd, command).log[|nd.log|];
      e.command == command && e.kind == Normal && e.term == nd.term && e.index == |nd.log| + 1
  {
    AdvanceSettles(nd.(log := nd.log + [NormalEntry(nd.term, |nd.log| + 1, command)]));
  }

  /** What a leader sends a follower: everything behind what is known to match. */
  function Batch(nd: Node, v: nat): Msg
    requires v < |nd.matched| && nd.matched[v] <= |nd.log|
  {
    var prev := nd.matched[v];
    AppendReq(nd.me, v, nd.term, prev, TermAt(nd.log, prev), nd.log[prev..], nd.commit, LiveCtx(nd))
  }

  lemma SendsBatch(peers: nat, a: nat, nd: Node, v: nat)
    requires FormedAt(peers, a, nd) && nd.role == Leader && nd.snapshot == 0 && v < peers && v != a && a < peers
    requires nd.matched[v] <= |nd.log|
    ensures var (n1, out) := NodeStep(nd, SendAppend(a, v, true, true, |nd.log|));
      out == {Batch(nd, v)} && n1 == nd.(next := n1.next)
  {
    var prev := nd.matched[v];
    assert Min(|nd.log|, prev + |nd.log|) == |nd.log|;
    assert nd.log[prev..|nd.log|] == nd.log[prev..];
  }

  /** A follower whose log agrees up to there accepts. */
  lemma BatchAccepted(peers: nat, v: nat, nd: Node, lead: Node)
    requires FormedAt(peers, v, nd) && v < |lead.matched| && Aligned(nd.log, lead.log, nd.snapshot, lead.matched[v])
    requires nd.term <= lead.term
    ensures var m := Batch(lead, v);
      var (n1, out) := Receive(nd, m);
      out == {AppendResp(v, lead.me, lead.term, m.prevIndex, |m.entries|, lead.term, true, 0, m.ctx)}
      && n1.role == Follower && n1.term == lead.term
  {
    SharedTerm(nd.log, lead.log, lead.matched[v], lead.matched[v]);
  }

  /** The leader notes it. */
  lemma ReplyTaken(nd: Node, v: nat, prev: nat, count: nat, ctx: nat)
    requires nd.role == Leader && |nd.matched| == |nd.next| == nd.peers && v < nd.peers && nd.matched[v] <= prev + count
    ensures var n1 := OnAppendReply(nd, v, nd.term, prev, count, nd.term, true, 0, ctx);
      n1 == nd.(round := n1.round, matched := nd.matched[v := prev + count], commit := n1.commit)
      && Settled(n1) && n1.round == RecordReadAck(nd, ctx, v).round
  {
    var n0 := RecordReadAck(nd, ctx, v);
    AdvanceSettles(n0.(matched := n0.matched[v := prev + count]));
  }

  /** One member gets the log and confirms it. */
  lemma SpreadOne(peers: nat, s: System, members: set<nat>, a: nat, t: nat, log: Log, done: set<nat>, v: nat)
    returns (s2: System)
    requires Reachable(peers, s) && Spreading(s, a, members, t, log, done) && a < peers
    requires a in members && v in members && v < peers && v != a
    ensures Goes(peers, s, members, s2) && Spreading(s2, a, members, t, log, done + {v})
  {
    LeaderIs(peers, s, a);
    AlignedAt(peers, s, a, v);
    NodeIs(peers, s, v);
    var lead, nd := s.nodes[a], s.nodes[v];
    SendsBatch(peers, a, lead, v);
    var m := Batch(lead, v);
    var s1 := Act(peers, s, members, SendAppend(a, v, true, true, |log|));
    BatchAccepted(peers, v, nd, lead);
    NodeIs(peers, s1, a);
    ReplyTaken(s1.nodes[a], v, m.prevIndex, |m.entries|, m.ctx);
    var resp := AppendResp(v, a, t, m.prevIndex, |m.entries|, t, true, 0, m.ctx);
    s2 := Ask(peers, s1, members, a, v, m, resp);
    GoesTrans(peers, s, members, s1, s2);
    WholeLogHeld(peers, s2, a, v, resp);
    SpreadMore(s, s2, a, members, t, log, done, v);
  }

  lemma SpreadMore(s: System, s2: System, a: nat, members: set<nat>, t: nat, log: Log, done: set<nat>, v: nat)
    requires Spreading(s, a, members, t, log, done) && v != a && v < |s.nodes| && |s2.nodes| == |s.nodes|
    requires Leads(s2.nodes[a], t, log) && Holding(s2.nodes[a], v, s2.nodes[v], t, log)
    requires forall w: nat :: w < |s.nodes| && w != a && w != v ==> s2.nodes[w] == s.nodes[w]
    requires |s2.nodes[a].matched| == |s.nodes[a].matched|
    requires forall w: nat :: w < |s.nodes[a].matched| && w != v ==> s2.nodes[a].matched[w] == s.nodes[a].matched[w]
    ensures Spreading(s2, a, members, t, log, done + {v})
  {
    assert SpreadingAt(s2, a, members, t, log, done + {v});
  }

  lemma {:induction false} SpreadAll(peers: nat, s: System, members: set<nat>, a: nat, t: nat, log: Log,
                                     done: set<nat>, todo: set<nat>)
    returns (s2: System)
    requires Reachable(peers, s) && Spreading(s, a, members, t, log, done) && a < peers && a in members
    requires todo <= members && a !in todo && forall v :: v in members ==> v < peers
    ensures Goes(peers, s, members, s2) && Spreading(s2, a, members, t, log, done + todo)
    decreases |todo|
  {
    if todo == {} {
      assert done + todo == done;
      GoesSelf(peers, s, members);
      s2 := s;
    } else {
      var v :| v in todo;
      var s1 := SpreadOne(peers, s, members, a, t, log, done, v);
      MovedOver(done, todo, v);
      s2 := SpreadAll(peers, s1, members, a, t, log, done + {v}, todo - {v});
      GoesTrans(peers, s, members, s1, s2);
    }
  }

  /** When a majority holds the log, the leader has committed it. */
  lemma SpreadCommits(peers: nat, s: System, members: set<nat>, a: nat, t: nat, log: Log)
    requires Reachable(peers, s) && Spreading(s, a, members, t, log, members) && a < peers && a in members
    requires IsMajority(peers, members)
    ensures s.nodes[a].commit == |log|
  {
    LeaderIs(peers, s, a);
    var nd := s.nodes[a];
    assert members <= Confirmers(nd, |log|);
    BelowIsRange(peers);
    assert Confirmers(nd, |log|) <= Below(peers);
    SubsetSize(members, Confirmers(nd, |log|));
    QuorumCommits(nd, |log|);
  }

  // ------------------------------------------------------------ telling and applying

  /** L committed its whole log, every member holds it, and those told know that it is committed. */
  ghost predicate Telling(s: System, a: nat, members: set<nat>, t: nat, log: Log, told: set<nat>) {
    exists n: nat :: n == t && TellingAt(s, a, members, n, log, told)
  }

  ghost predicate TellingAt(s: System, a: nat, members: set<nat>, t: nat, log: Log, told: set<nat>) {
    a < |s.nodes| && Leads(s.nodes[a], t, log) && s.nodes[a].commit == |log|
    && (forall v: nat :: v in members && v != a && v < |s.nodes| ==> Holding(s.nodes[a], v, s.nodes[v], t, log))
    && forall v: nat :: v in told && v < |s.nodes| ==> s.nodes[v].commit == |log|
  }

  function Beat(nd: Node, v: nat): Msg
    requires nd.log != []
  {
    AppendReq(nd.me, v, nd.term, |nd.log|, LastTerm(nd.log), [], nd.commit, LiveCtx(nd))
  }

  lemma SendsBeat(peers: nat, a: nat, nd: Node, v: nat)
    requires FormedAt(peers, a, nd) && nd.role == Leader && nd.snapshot == 0 && v < peers && v != a && a < peers
    requires nd.matched[v] == |nd.log| > 0
    ensures NodeStep(nd, SendAppend(a, v, true, false, 0)) == (nd, {Beat(nd, v)})
  {
  }

  /** A follower that holds the log takes over the commit index. */
  lemma BeatTaken(peers: nat, v: nat, nd: Node, lead: Node)
    requires FormedAt(peers, v, nd) && nd.role == Follower && nd.term == lead.term && nd.log == lead.log != []
    requires lead.commit == |lead.log|
    ensures var (n1, out) := Receive(nd, Beat(lead, v));
      n1 == nd.(commit := |nd.log|)
      && out == {AppendResp(v, lead.me, lead.term, |nd.log|, 0, lead.term, true, 0, LiveCtx(lead))}
  {
    assert Above([], nd.snapshot) == [] && Merge(nd.log, []) == nd.log;
  }

  lemma TellOne(peers: nat, s: System, members: set<nat>, a: nat, t: nat, log: Log, told: set<nat>, v: nat)
    returns (s2: System)
    requires Reachable(peers, s) && Telling(s, a, members, t, log, told) && a < peers
    requires a in members && v in members && v < peers && v != a
    ensures Goes(peers, s, members, s2) && Telling(s2, a, members, t, log, told + {v})
  {
    NodeIs(peers, s, a);
    NodeIs(peers, s, v);
    SendsBeat(peers, a, s.nodes[a], v);
    BeatTaken(peers, v, s.nodes[v], s.nodes[a]);
    var s1 := Act(peers, s, members, SendAppend(a, v, true, false, 0));
    s2 := Act(peers, s1, members, Deliver(v, Beat(s.nodes[a], v)));
    GoesTrans(peers, s, members, s1, s2);
    assert TellingAt(s2, a, members, t, log, told + {v});
  }

  lemma {:induction false} TellAll(peers: nat, s: System, members: set<nat>, a: nat, t: nat, log: Log,
                                   told: set<nat>, todo: set<nat>)
    returns (s2: System)
    requires Reachable(peers, s) && Telling(s, a, members, t, log, told) && a < peers && a in members
    requires todo <= members && a !in todo && forall v :: v in members ==> v < peers
    ensures Goes(peers, s, members, s2) && Telling(s2, a, members, t, log, told + todo)
    decreases |todo|
  {
    if todo == {} {
      assert told + todo == told;
      GoesSelf(peers, s, members);
      s2 := s;
    } else {
      var v :| v in todo;
      var s1 := TellOne(peers, s, members, a, t, log, told, v);
      MovedOver(told, todo, v);
      s2 := TellAll(peers, s1, members, a, t, log, told + {v}, todo - {v});
      GoesTrans(peers, s, members, s1, s2);
    }
  }

  /** Those drained handed their whole log to the state machine. */
  ghost predicate Draining(s: System, a: nat, members: set<nat>, t: nat, log: Log, drained: set<nat>) {
    exists n: nat :: n == t && DrainingAt(s, a, members, n, log, drained)
  }

  ghost predicate DrainingAt(s: System, a: nat, members: set<nat>, t: nat, log: Log, drained: set<nat>) {
    Telling(s, a, members, t, log, members)
    && forall v: nat :: v in drained && v < |s.nodes| ==> s.nodes[v].delivered == log && s.nodes[v].applied == |log|
  }

  lemma DrainedIs(peers: nat, a: nat, s: System, members: set<nat>, t: nat, log: Log, drained: set<nat>, v: nat)
    requires Draining(s, a, members, t, log, drained) && v in members && v < |s.nodes| == peers
    requires FormedAt(peers, v, s.nodes[v])
    ensures s.nodes[v].log == log && s.nodes[v].commit == |log|
    ensures Draining(System(s.nodes[v := Drained(s.nodes[v])], s.net), a, members, t, log, drained + {v})
  {
    var nd := s.nodes[v];
    assert nd.log[..nd.commit] == log;
    assert MatchedValues(Drained(nd)) == MatchedValues(nd);
    var s2 := System(s.nodes[v := Drained(nd)], s.net);
    assert TellingAt(s2, a, members, t, log, members);
    assert DrainingAt(s2, a, members, t, log, drained + {v});
  }

  lemma DrainOne(peers: nat, s: System, members: set<nat>, a: nat, t: nat, log: Log, drained: set<nat>, v: nat)
    returns (s2: System)
    requires Reachable(peers, s) && Draining(s, a, members, t, log, drained) && v in members && v < peers
    ensures Goes(peers, s, members, s2) && Draining(s2, a, members, t, log, drained + {v})
  {
    NodeIs(peers, s, v);
    RoundsDrain(peers, s, v);
    DrainedIs(peers, a, s, members, t, log, drained, v);
    var events := Rounds(v, RoundsLeft(s.nodes[v]));
    s2 := Play(s, events);
    assert By(events, members);
    ReachableOn(peers, s, members, s2);
  }

  lemma {:induction false} DrainAll(peers: nat, s: System, members: set<nat>, a: nat, t: nat, log: Log,
                                    drained: set<nat>, todo: set<nat>)
    returns (s2: System)
    requires Reachable(peers, s) && Draining(s, a, members, t, log, drained)
    requires todo <= members && forall v :: v in members ==> v < peers
    ensures Goes(peers, s, members, s2) && Draining(s2, a, members, t, log, drained + todo)
    decreases |todo|
  {
    if todo == {} {
      assert drained + todo == drained;
      GoesSelf(peers, s, members);
      s2 := s;
    } else {
      var v :| v in todo;
      var s1 := DrainOne(peers, s, members, a, t, log, drained, v);
      MovedOver(drained, todo, v);
      s2 := DrainAll(peers, s1, members, a, t, log, drained + {v}, todo - {v});
      GoesTrans(peers, s, members, s1, s2);
    }
  }

  // --------------------------------------------------------------------- reading

  /** a's round with this context was opened at the whole log, and those who answered are counted. */
  ghost predicate Reading(s: System, a: nat, members: set<nat>, t: nat, log: Log, ctx: nat, answered: set<nat>) {
    exists n: nat :: n == t && ReadingAt(s, a, members, n, log, ctx, answered)
  }

  ghost predicate ReadingAt(s: System, a: nat, members: set<nat>, t: nat, log: Log, ctx: nat, answered: set<nat>) {
    Draining(s, a, members, t, log, members)
    && RoundCounts(s.nodes[a].round, ctx, t, |log|, a, answered, |s.nodes|)
    && forall v: nat :: v < |s.nodes| && v != a ==> Beaten(s, a, v, t, log, ctx)
  }

  ghost predicate RoundCounts(r: Option<ReadRound>, ctx: nat, t: nat, index: nat, a: nat, answered: set<nat>,
                              peers: nat)
  {
    r.Some? && ctx > 0 && r.value.ctx == ctx && r.value.term == t && r.value.readIndex == index
    && a in r.value.acked && answered <= r.value.acked
    && (r.value.acked != {a} && |r.value.acked| >= Quorum(peers) ==> r.value.done)
  }

  ghost predicate Beaten(s: System, a: nat, v: nat, t: nat, log: Log, ctx: nat) {
    AppendReq(a, v, t, |log|, LastTerm(log), [], |log|, ctx) in s.net
  }

  /** A round in flight is withdrawn, and a new one opened. */
  lemma OpensRound(nd: Node, t: nat, log: Log)
    requires Leads(nd, t, log) && nd.commit == |log| && nd.readSafe <= |log| && nd.nextCtx >= 1
    ensures var n1 := OpenRead(CloseRead(nd));
      n1 == nd.(round := n1.round, nextCtx := n1.nextCtx) && Leads(n1, t, log)
      && RoundCounts(n1.round, nd.nextCtx, t, |log|, nd.me, {nd.me}, nd.peers) && LiveCtx(n1) == nd.nextCtx
  {
    var n1 := OpenRead(CloseRead(nd));
    assert MatchedValues(n1) == MatchedValues(nd);
  }

  lemma SameButRound(s: System, s2: System, a: nat, members: set<nat>, t: nat, log: Log)
    requires Draining(s, a, members, t, log, members) && |s2.nodes| == |s.nodes|
    requires s2.nodes[a] == s.nodes[a].(round := s2.nodes[a].round, nextCtx := s2.nodes[a].nextCtx)
    requires forall v: nat :: v < |s.nodes| && v != a ==> s2.nodes[v] == s.nodes[v]
    ensures Draining(s2, a, members, t, log, members)
  {
    assert MatchedValues(s2.nodes[a]) == MatchedValues(s.nodes[a]);
    assert TellingAt(s2, a, members, t, log, members);
    assert DrainingAt(s2, a, members, t, log, members);
  }

  lemma OpenRound(peers: nat, s: System, members: set<nat>, a: nat, t: nat, log: Log) returns (s2: System, ctx: nat)
    requires Reachable(peers, s) && Draining(s, a, members, t, log, members) && a < peers && a in members
    ensures Goes(peers, s, members, s2) && Draining(s2, a, members, t, log, members)
    ensures RoundCounts(s2.nodes[a].round, ctx, t, |log|, a, {a}, peers) && LiveCtx(s2.nodes[a]) == ctx
  {
    LeaderIs(peers, s, a);
    var nd := s.nodes[a];
    ctx := nd.nextCtx;
    OpensRound(nd, t, log);
    var s1 := Act(peers, s, members, ReadClose(a));
    s2 := Act(peers, s1, members, ReadOpen(a));
    GoesTrans(peers, s, members, s1, s2);
    SameButRound(s, s2, a, members, t, log);
  }

  lemma BeatEverybody(peers: nat, s: System, members: set<nat>, a: nat, t: nat, log: Log, ctx: nat)
    returns (s2: System)
    requires Reachable(peers, s) && Draining(s, a, members, t, log, members) && a < peers && a in members
    requires RoundCounts(s.nodes[a].round, ctx, t, |log|, a, {a}, peers) && LiveCtx(s.nodes[a]) == ctx
    ensures Goes(peers, s, members, s2) && Reading(s2, a, members, t, log, ctx, {a})
  {
    s2 := Act(peers, s, members, ReadHeartbeat(a));
    assert s2.nodes == s.nodes;
    SameButRound(s, s2, a, members, t, log);
    forall v: nat | v < peers && v != a ensures Beaten(s2, a, v, t, log, ctx) { assert v in Others(s.nodes[a]); }
    assert ReadingAt(s2, a, members, t, log, ctx, {a});
  }

  lemma BeatAnswered(nd: Node, v: nat, t: nat, log: Log, ctx: nat)
    requires Leads(nd, t, log) && nd.commit == |log| && |nd.next| == nd.peers && v < nd.peers && nd.matched[v] == |log|
    ensures OnAppendReply(nd, v, t, |log|, 0, t, true, 0, ctx) == nd.(round := RecordReadAck(nd, ctx, v).round)
  {
    assert nd.matched[v := |log|] == nd.matched;
  }

  lemma AnswerCounts(nd: Node, ctx: nat, t: nat, a: nat, answered: set<nat>, v: nat)
    requires nd.term == t && v < nd.peers && v != a
    requires RoundCounts(nd.round, ctx, t, |nd.log|, a, answered, nd.peers)
    ensures RoundCounts(RecordReadAck(nd, ctx, v).round, ctx, t, |nd.log|, a, answered + {v}, nd.peers)
  {
  }

  lemma AnswerOne(peers: nat, s: System, members: set<nat>, a: nat, t: nat, log: Log, ctx: nat, answered: set<nat>,
                  v: nat)
    returns (s2: System)
    requires Reachable(peers, s) && Reading(s, a, members, t, log, ctx, answered) && a < peers
    requires a in members && v in members && v < peers && v != a
    ensures Goes(peers, s, members, s2) && Reading(s2, a, members, t, log, ctx, answered + {v})
  {
    NodeIs(peers, s, a);
    NodeIs(peers, s, v);
    var lead, nd := s.nodes[a], s.nodes[v];
    assert Beaten(s, a, v, t, log, ctx);
    var m := AppendReq(a, v, t, |log|, LastTerm(log), [], |log|, ctx);
    var resp := AppendResp(v, a, t, |log|, 0, t, true, 0, ctx);
    BeatHeard(peers, v, nd, a, t, log, ctx);
    BeatAnswered(lead, v, t, log, ctx);
    AnswerCounts(lead, ctx, t, a, answered, v);
    s2 := Ask(peers, s, members, a, v, m, resp);
    SameButRound(s, s2, a, members, t, log);
    forall w: nat | w < peers && w != a ensures Beaten(s2, a, w, t, log, ctx) { assert Beaten(s, a, w, t, log, ctx); }
    assert ReadingAt(s2, a, members, t, log, ctx, answered + {v});
  }

  /** A follower that knows everything committed only answers. */
  lemma BeatHeard(peers: nat, v: nat, nd: Node, a: nat, t: nat, log: Log, ctx: nat)
    requires FormedAt(peers, v, nd) && nd.role == Follower && nd.term == t && nd.log == log != [] && nd.commit == |log|
    ensures Receive(nd, AppendReq(a, v, t, |log|, LastTerm(log), [], |log|, ctx))
      == (nd, {AppendResp(v, a, t, |log|, 0, t, true, 0, ctx)})
  {
    assert Above([], nd.snapshot) == [] && Merge(nd.log, []) == nd.log;
  }

  lemma {:induction false} AnswerAll(peers: nat, s: System, members: set<nat>, a: nat, t: nat, log: Log, ctx: nat,
                                     answered: set<nat>, todo: set<nat>)
    returns (s2: System)
    requires Reachable(peers, s) && Reading(s, a, members, t, log, ctx, answered) && a < peers && a in members
    requires todo <= members && a !in todo && forall v :: v in members ==> v < peers
    ensures Goes(peers, s, members, s2) && Reading(s2, a, members, t, log, ctx, answered + todo)
    decreases |todo|
  {
    if todo == {} {
      assert answered + todo == answered;
      GoesSelf(peers, s, members);
      s2 := s;
    } else {
      var v :| v in todo;
      var s1 := AnswerOne(peers, s, members, a, t, log, ctx, answered, v);
      MovedOver(answered, todo, v);
      s2 := AnswerAll(peers, s1, members, a, t, log, ctx, answered + {v}, todo - {v});
      GoesTrans(peers, s, members, s1, s2);
    }
  }

  // -------------------------------------------------------------------- theorem

  /**
   * a leads with a log that ends with the command; every member holds that log, knows that it is
   * committed and has handed all of it to its state machine.
   */
  ghost predicate Served(s: System, members: set<nat>, a: nat, command: bytes) {
    a < |s.nodes| && a in members && s.nodes[a].role == Leader && EndsWith(s.nodes[a].log, s.nodes[a].term, command)
    && forall v: nat :: v in members && v < |s.nodes| ==>
         s.nodes[v].term == s.nodes[a].term && s.nodes[v].log == s.nodes[v].delivered == s.nodes[a].log
         && s.nodes[v].commit == s.nodes[v].applied == |s.nodes[a].log|
  }

  predicate EndsWith(log: Log, t: nat, command: bytes) {
    log != []
    && var e := log[|log| - 1]; e.command == command && e.kind == Normal && e.term == t && e.index == |log|
  }

  /** a's read round is confirmed, and reads everything committed. */
  ghost predicate Confirmed(s: System, a: nat) {
    a < |s.nodes| && s.nodes[a].role == Leader && s.nodes[a].round.Some?
    && var r := s.nodes[a].round.value; r.done && r.term == s.nodes[a].term && r.readIndex == s.nodes[a].commit
  }

  /** The leader takes the command. */
  lemma Proposal(peers: nat, s: System, members: set<nat>, a: nat, command: bytes) returns (s1: System)
    requires Reachable(peers, s) && a in members && a < peers
    requires s.nodes[a].role == Leader && s.nodes[a].snapshot == 0
    requires forall v: nat :: v in members && v < peers ==> s.nodes[v].term <= s.nodes[a].term
    ensures Goes(peers, s, members, s1) && EndsWith(s1.nodes[a].log, s1.nodes[a].term, command)
    ensures Spreading(s1, a, members, s1.nodes[a].term, s1.nodes[a].log, {a})
  {
    NodeIs(peers, s, a);
    ProposedBy(s.nodes[a], command);
    s1 := Act(peers, s, members, ClientProposal(a, command));
    assert SpreadingAt(s1, a, members, s1.nodes[a].term, s1.nodes[a].log, {a});
  }

  lemma Replicate(peers: nat, s: System, members: set<nat>, a: nat, command: bytes) returns (s2: System)
    requires Reachable(peers, s) && IsMajority(peers, members) && a in members && a < peers
    requires s.nodes[a].role == Leader && s.nodes[a].snapshot == 0
    requires forall v: nat :: v in members && v < peers ==> s.nodes[v].term <= s.nodes[a].term
    ensures Goes(peers, s, members, s2)
    ensures a < |s2.nodes| && s2.nodes[a].role == Leader && EndsWith(s2.nodes[a].log, s2.nodes[a].term, command)
    ensures Spreading(s2, a, members, s2.nodes[a].term, s2.nodes[a].log, members)
  {
    var s1 := Proposal(peers, s, members, a, command);
    var t, log := s1.nodes[a].term, s1.nodes[a].log;
    s2 := SpreadAll(peers, s1, members, a, t, log, {a}, members - {a});
    GoesTrans(peers, s, members, s1, s2);
    assert {a} + (members - {a}) == members;
    SpreadLeads(s2, a, members, t, log, members);
  }

  lemma SpreadLeads(s: System, a: nat, members: set<nat>, t: nat, log: Log, done: set<nat>)
    requires Spreading(s, a, members, t, log, done)
    ensures a < |s.nodes| && s.nodes[a].role == Leader && s.nodes[a].term == t && s.nodes[a].log == log
  {
  }

  lemma Commit(peers: nat, s: System, members: set<nat>, a: nat, t: nat, log: Log) returns (s2: System)
    requires Reachable(peers, s) && IsMajority(peers, members) && a in members && a < peers
    requires Spreading(s, a, members, t, log, members)
    ensures Goes(peers, s, members, s2) && Draining(s2, a, members, t, log, members)
  {
    SpreadCommits(peers, s, members, a, t, log);
    assert TellingAt(s, a, members, t, log, {a});
    var s1 := TellAll(peers, s, members, a, t, log, {a}, members - {a});
    assert {a} + (members - {a}) == members;
    assert DrainingAt(s1, a, members, t, log, {});
    s2 := DrainAll(peers, s1, members, a, t, log, {}, members);
    GoesTrans(peers, s, members, s1, s2);
    assert {} + members == members;
  }

  /** A majority of two or more answered. */
  lemma ReadConfirmed(s: System, a: nat, members: set<nat>, t: nat, log: Log, ctx: nat)
    requires Reading(s, a, members, t, log, ctx, members) && IsMajority(|s.nodes|, members)
    ensures Draining(s, a, members, t, log, members) && (|s.nodes| > 1 ==> Confirmed(s, a))
  {
    SubsetSize(members, s.nodes[a].round.value.acked);
    assert |{a}| == 1;
  }

  lemma Read(peers: nat, s: System, members: set<nat>, a: nat, t: nat, log: Log) returns (s2: System)
    requires Reachable(peers, s) && IsMajority(peers, members) && a in members && a < peers
    requires Draining(s, a, members, t, log, members)
    ensures Goes(peers, s, members, s2) && Draining(s2, a, members, t, log, members)
    ensures peers > 1 ==> Confirmed(s2, a)
  {
    var s1, ctx := OpenRound(peers, s, members, a, t, log);
    var s3 := BeatEverybody(peers, s1, members, a, t, log, ctx);
    GoesTrans(peers, s, members, s1, s3);
    s2 := AnswerAll(peers, s3, members, a, t, log, ctx, {a}, members - {a});
    GoesTrans(peers, s, members, s3, s2);
    assert {a} + (members - {a}) == members;
    ReadConfirmed(s2, a, members, t, log, ctx);
  }

  /**
   * From every reachable state and for every majority with a member that is up to date for all and
   * has compacted nothing: events of the majority alone elect it, take a command to the state
   * machine of every member, and confirm a read that covers the command, unless there is only one
   * voter.
   */
  lemma ServiceIsPossible(peers: nat, events: seq<Event>, members: set<nat>, a: nat, command: bytes)
    returns (more: seq<Event>)
    requires IsMajority(peers, members) && Best(Run(peers, events), members, a)
    requires Run(peers, events).nodes[a].snapshot == 0
    ensures By(more, members) && Served(Run(peers, events + more), members, a, command)
    ensures peers > 1 ==> Confirmed(Run(peers, events + more), a)
  {
    NodeCountFixed(peers, events);
    var s := Run(peers, events);
    assert Reachable(peers, s);
    var s1 := StandingWins(peers, s, members, a);
    var s2 := Replicate(peers, s1, members, a, command);
    GoesTrans(peers, s, members, s1, s2);
    var t, log := s2.nodes[a].term, s2.nodes[a].log;
    var s3 := Commit(peers, s2, members, a, t, log);
    GoesTrans(peers, s, members, s2, s3);
    var s4 := Read(peers, s3, members, a, t, log);
    GoesTrans(peers, s, members, s3, s4);
    more :| By(more, members) && Play(s, more) == s4;
    RunPlays(peers, events, more);
  }

  // -------------------------------------------------------------- a single voter

  /** The round of a lone voter counts its opener only, and is not done. */
  predicate LoneRound(nd: Node) {
    nd.round.Some? ==> nd.round.value.acked == {nd.me} && !nd.round.value.done
  }

  lemma LoneReceived(nd: Node, m: Msg)
    requires Shaped(nd) && LoneRound(nd) && nd.peers == 1 && nd.me == 0
    ensures LoneRound(Receive(nd, m).0)
  {
  }

  lemma LoneKept(nd: Node, e: Event)
    requires Shaped(nd) && LoneRound(nd) && nd.peers == 1 && nd.me == 0
    ensures LoneRound(NodeStep(nd, e).0)
  {
    if e.Deliver? { LoneReceived(nd, e.m); }
  }

  lemma {:induction false} LoneNeverConfirms(events: seq<Event>)
    ensures |Run(1, events).nodes| == 1 && LoneRound(Run(1, events).nodes[0])
  {
    NodeCountFixed(1, events);
    if events != [] {
      var init := events[..|events| - 1];
      LoneNeverConfirms(init);
      NodeIs(1, Run(1, init), 0);
      var e := events[|events| - 1];
      if Enabled(Run(1, init), e) { LoneKept(Run(1, init).nodes[0], e); }
    }
  }

  ghost predicate ConfirmedIn(peers: nat, events: seq<Event>, a: nat) {
    Confirmed(Run(peers, events), a)
  }

  lemma SomeReadConfirmed(peers: nat) returns (events: seq<Event>, a: nat)
    requires peers > 1
    ensures ConfirmedIn(peers, events, a)
  {
    BelowIsRange(peers);
    a := BestExists(Run(peers, []), Below(peers));
    events := ServiceIsPossible(peers, [], Below(peers), a, []);
    assert [] + events == events;
  }

  /** A round is only counted when somebody else answers: a read is ever confirmed exactly with two voters or more. */
  lemma ReadsNeedTwo(peers: nat)
    ensures (exists events, a :: ConfirmedIn(peers, events, a)) <==> peers > 1
  {
    if peers > 1 {
      var events, a := SomeReadConfirmed(peers);
    } else {
      forall events, a ensures !ConfirmedIn(peers, events, a) {
        NodeCountFixed(peers, events);
        if peers == 1 { LoneNeverConfirms(events); }
      }
    }
  }
}
