/**
 * Election safety, from the ballots alone. A term has one leader in every run in which no
 * sitting leader steps down inside its term. With such step-downs it depends on the number of
 * voters: with an even number, or one, a term still has one leader; with any other odd number
 * there is a run in which a term has two.
 */
module RaftElectionSafety {
  import opened Wrappers
  import opened OrderStatistics
  import opened RaftTypes
  import opened RaftRules
  import opened RaftSystem
  import opened RaftSafety

  // --------------------------------------------------------- one node's ballot

  ghost predicate Balloted(nd: Node, i: nat, peers: nat) {
    nd.me == i && nd.peers == peers
    && (nd.role != Follower ==> nd.votedFor == Some(i))
    && (nd.role == Leader ==> |nd.votes| >= Quorum(peers))
  }

  /** What a step of a node may do to its ballot. */
  ghost predicate BallotMoves(nd: Node, nd2: Node) {
    nd2.term >= nd.term
    && (nd2.term == nd.term && nd.role != Candidate ==> nd2.role != Candidate)
    && (nd2.term == nd.term && nd.votedFor.Some? && nd.votedFor.value != nd.me ==> nd2.votedFor == nd.votedFor)
  }

  lemma StartMoves(nd: Node, i: nat, peers: nat)
    requires Balloted(nd, i, peers)
    ensures Balloted(StartElection(nd), i, peers) && BallotMoves(nd, StartElection(nd))
    ensures Balloted(StartRealElection(nd), i, peers) && BallotMoves(nd, StartRealElection(nd))
  {
  }

  lemma RequestMoves(nd: Node, m: Msg, i: nat, peers: nat)
    requires Balloted(nd, i, peers) && Shaped(nd) && (m.PreVoteReq? || m.VoteReq? || m.AppendReq?)
    ensures Balloted(Receive(nd, m).0, i, peers) && BallotMoves(nd, Receive(nd, m).0)
  {
  }

  lemma AppendReplyMoves(nd: Node, m: Msg, i: nat, peers: nat)
    requires Balloted(nd, i, peers) && Shaped(nd) && m.AppendResp?
    ensures Balloted(Receive(nd, m).0, i, peers) && BallotMoves(nd, Receive(nd, m).0)
  {
  }

  lemma ReceiveMoves(nd: Node, m: Msg, i: nat, peers: nat)
    requires Balloted(nd, i, peers) && Shaped(nd)
    ensures Balloted(Receive(nd, m).0, i, peers) && BallotMoves(nd, Receive(nd, m).0)
  {
    if m.AppendResp? {
      AppendReplyMoves(nd, m, i, peers);
    } else if !m.PreVoteResp? && !m.VoteResp? {
      RequestMoves(nd, m, i, peers);
    }
  }

  lemma StepMoves(nd: Node, e: Event, i: nat, peers: nat)
    requires Balloted(nd, i, peers) && Shaped(nd)
    ensures Balloted(NodeStep(nd, e).0, i, peers) && BallotMoves(nd, NodeStep(nd, e).0)
  {
    StartMoves(nd, i, peers);
    if e.Deliver? { ReceiveMoves(nd, e.m, i, peers); }
  }

  /** Where the votes of a candidate or leader come from. */
  ghost predicate VoteCounted(nd: Node, e: Event, nd2: Node, v: nat) {
    v == nd.me
    || (v in nd.votes && nd.term == nd2.term && nd.role != Follower)
    || (e.Deliver? && e.m.VoteResp? && e.m.dst == nd.me && e.m.src == v && e.m.granted && e.m.reqTerm == nd2.term)
  }

  lemma VotesReceived(nd: Node, e: Event, v: nat)
    requires Shaped(nd) && e.Deliver?
    requires Receive(nd, e.m).0.role != Follower && v in Receive(nd, e.m).0.votes && e.m.dst == nd.me
    ensures VoteCounted(nd, e, Receive(nd, e.m).0, v)
  {
  }

  lemma VotesComeFrom(nd: Node, e: Event, v: nat)
    requires Shaped(nd) && NodeStep(nd, e).0.role != Follower && v in NodeStep(nd, e).0.votes
    ensures VoteCounted(nd, e, NodeStep(nd, e).0, v)
  {
    if e.Deliver? && e.m.dst == nd.me { VotesReceived(nd, e, v); }
  }

  /** What the messages a step sends say about the sender. */
  ghost predicate Honest(nd: Node, nd2: Node, m: Msg) {
    (m.VoteResp? && m.granted ==> m.src == nd.me && nd2.term == m.reqTerm && nd2.votedFor == Some(m.dst))
    && (m.AppendReq? ==> m.src == nd.me && m.dst != nd.me && nd.role == Leader && nd.term == m.term)
  }

  lemma SentHonestly(nd: Node, e: Event, m: Msg)
    requires Shaped(nd) && m in NodeStep(nd, e).1
    ensures Honest(nd, NodeStep(nd, e).0, m)
  {
  }

  // ------------------------------------------------------------------- runs

  ghost predicate BallotsOK(s: System, peers: nat) {
    |s.nodes| == peers && forall i: nat :: i < peers ==> Balloted(s.nodes[i], i, peers)
  }

  lemma StepBallots(s: System, e: Event, peers: nat)
    requires BallotsOK(s, peers)
    ensures BallotsOK(Step(s, e), peers)
  {
    if Enabled(s, e) {
      var nd := NodeStep(s.nodes[e.n], e).0;
      StepMoves(s.nodes[e.n], e, e.n, peers);
      OneBallot(s.nodes, e.n, nd, peers, Step(s, e).nodes);
    }
  }

  lemma OneBallot(nodes: seq<Node>, n: nat, nd: Node, peers: nat, nodes2: seq<Node>)
    requires n < |nodes| == peers && Balloted(nd, n, peers) && nodes2 == nodes[n := nd]
    requires forall i: nat :: i < peers ==> Balloted(nodes[i], i, peers)
    ensures forall i: nat :: i < peers ==> Balloted(nodes2[i], i, peers)
  {
  }

  lemma {:induction false} RunBallots(peers: nat, events: seq<Event>)
    ensures BallotsOK(Run(peers, events), peers)
  {
    if events != [] {
      RunBallots(peers, events[..|events| - 1]);
      StepBallots(Run(peers, events[..|events| - 1]), events[|events| - 1], peers);
    }
  }

  lemma StateNext(peers: nat, events: seq<Event>, i: nat)
    requires i < |events|
    ensures Run(peers, events[..i + 1]) == Step(Run(peers, events[..i]), events[i])
  {
    PrefixOfPrefix(events, i, i + 1);
  }

  lemma StartsEmpty(peers: nat, events: seq<Event>)
    ensures Run(peers, events[..0]) == Initial(peers)
  {
    assert events[..0] == [];
  }

  /** Node a at moment i. */
  ghost predicate Is(peers: nat, events: seq<Event>, i: nat, a: nat, nd: Node) {
    i <= |events| && a < |Run(peers, events[..i]).nodes| && nd == NodeAt(peers, events, i, a)
  }

  ghost predicate Steps(nd: Node, e: Event, nd2: Node) {
    Shaped(nd) && nd2 == NodeStep(nd, e).0
  }

  /** From one moment to the next a node stays as it is, or takes the step of the event. */
  lemma NodeNext(peers: nat, events: seq<Event>, i: nat, a: nat) returns (nd: Node, nd2: Node)
    requires i < |events| && a < peers
    ensures Is(peers, events, i, a, nd) && Is(peers, events, i + 1, a, nd2)
    ensures Balloted(nd, a, peers) && Balloted(nd2, a, peers) && BallotMoves(nd, nd2)
    ensures nd2 == nd || (events[i].n == a && Steps(nd, events[i], nd2))
    ensures nd2 != nd && events[i].Deliver? ==> events[i].m in Run(peers, events[..i]).net
  {
    var s, s2 := Run(peers, events[..i]), Run(peers, events[..i + 1]);
    RunBallots(peers, events[..i]);
    RunBallots(peers, events[..i + 1]);
    StateNext(peers, events, i);
    nd, nd2 := s.nodes[a], s2.nodes[a];
    if Enabled(s, events[i]) && events[i].n == a { StepMoves(nd, events[i], a, peers); }
  }

  lemma {:induction false} TermsRise(peers: nat, events: seq<Event>, i: nat, j: nat, a: nat, na: Node, nb: Node)
    requires i <= j && a < peers && Is(peers, events, i, a, na) && Is(peers, events, j, a, nb)
    ensures na.term <= nb.term
  {
    if i < j {
      var n1, n2 := NodeNext(peers, events, j - 1, a);
      TermsRise(peers, events, i, j - 1, a, na, n1);
    }
  }

  /** A vote for somebody else stays as long as the term does. */
  lemma {:induction false} VoteSticks(peers: nat, events: seq<Event>, i: nat, j: nat, v: nat, na: Node, nb: Node)
    requires i <= j && v < peers && Is(peers, events, i, v, na) && Is(peers, events, j, v, nb)
    requires na.votedFor.Some? && na.votedFor.value != v && nb.term == na.term
    ensures nb.votedFor == na.votedFor
  {
    if i < j {
      var n1, n2 := NodeNext(peers, events, j - 1, v);
      TermsRise(peers, events, i, j - 1, v, na, n1);
      VoteSticks(peers, events, i, j - 1, v, na, n1);
    }
  }

  ghost predicate VotedAt(peers: nat, events: seq<Event>, i: nat, v: nat, t: nat, c: nat) {
    exists nd: Node :: Is(peers, events, i, v, nd) && nd.term == t && nd.votedFor == Some(c)
  }

  /** Up to moment j, node v voted for c in term t. */
  ghost predicate Voted(peers: nat, events: seq<Event>, j: nat, v: nat, t: nat, c: nat) {
    v < peers && exists i: nat :: i <= j && VotedAt(peers, events, i, v, t, c)
  }

  lemma VotedLater(peers: nat, events: seq<Event>, i: nat, j: nat, v: nat, t: nat, c: nat)
    requires Voted(peers, events, i, v, t, c) && i <= j
    ensures Voted(peers, events, j, v, t, c)
  {
    var k: nat :| k <= i && VotedAt(peers, events, k, v, t, c);
    assert k <= j && VotedAt(peers, events, k, v, t, c);
  }

  lemma VotesNow(peers: nat, events: seq<Event>, i: nat, v: nat, nd: Node)
    requires v < peers && Is(peers, events, i, v, nd) && nd.votedFor.Some?
    ensures Voted(peers, events, i, v, nd.term, nd.votedFor.value)
  {
    assert VotedAt(peers, events, i, v, nd.term, nd.votedFor.value);
  }

  /** In one term a node votes for at most one other. */
  lemma OneOther(peers: nat, events: seq<Event>, i: nat, j: nat, v: nat, t: nat, c: nat, d: nat)
    requires v < peers && VotedAt(peers, events, i, v, t, c) && VotedAt(peers, events, j, v, t, d) && c != v && d != v
    ensures c == d
  {
    var na: Node :| Is(peers, events, i, v, na) && na.term == t && na.votedFor == Some(c);
    var nb: Node :| Is(peers, events, j, v, nb) && nb.term == t && nb.votedFor == Some(d);
    if i <= j { VoteSticks(peers, events, i, j, v, na, nb); } else { VoteSticks(peers, events, j, i, v, nb, na); }
  }

  lemma NewMessage(peers: nat, events: seq<Event>, i: nat, m: Msg) returns (n: nat, nd: Node, nd2: Node)
    requires i < |events| && m in Run(peers, events[..i + 1]).net && m !in Run(peers, events[..i]).net
    ensures n < peers && Is(peers, events, i, n, nd) && Is(peers, events, i + 1, n, nd2)
    ensures Honest(nd, nd2, m) && nd.me == n
  {
    StateNext(peers, events, i);
    RunBallots(peers, events[..i]);
    n := events[i].n;
    nd, nd2 := NodeNext(peers, events, i, n);
    SentHonestly(nd, events[i], m);
  }

  /** A granted vote was cast. */
  lemma {:induction false} GrantsWereCast(peers: nat, events: seq<Event>, j: nat, m: Msg)
    requires j <= |events| && m in Run(peers, events[..j]).net && m.VoteResp? && m.granted
    ensures Voted(peers, events, j, m.src, m.reqTerm, m.dst)
  {
    if j == 0 {
      StartsEmpty(peers, events);
    } else if m in Run(peers, events[..j - 1]).net {
      GrantsWereCast(peers, events, j - 1, m);
      VotedLater(peers, events, j - 1, j, m.src, m.reqTerm, m.dst);
    } else {
      var n, nd, nd2 := NewMessage(peers, events, j - 1, m);
      VotesNow(peers, events, j, n, nd2);
    }
  }

  /** The votes a candidate or leader counts were cast for it in its term. */
  lemma {:induction false} VotesWereCast(peers: nat, events: seq<Event>, j: nat, c: nat, nd: Node, v: nat)
    requires c < peers && Is(peers, events, j, c, nd) && nd.role != Follower && v in nd.votes
    ensures Voted(peers, events, j, v, nd.term, c)
    decreases j, 1
  {
    if j == 0 {
      StartsEmpty(peers, events);
    } else {
      var n1, n2 := NodeNext(peers, events, j - 1, c);
      if n1 == n2 {
        VotesWereCast(peers, events, j - 1, c, n1, v);
        VotedLater(peers, events, j - 1, j, v, nd.term, c);
      } else {
        VotesComeFrom(n1, events[j - 1], v);
        CountedWereCast(peers, events, j, c, n1, nd, v);
      }
    }
  }

  lemma CountedWereCast(peers: nat, events: seq<Event>, j: nat, c: nat, n1: Node, nd: Node, v: nat)
    requires 0 < j && c < peers && Is(peers, events, j - 1, c, n1) && Is(peers, events, j, c, nd)
    requires Balloted(n1, c, peers) && Balloted(nd, c, peers) && nd.role != Follower
    requires VoteCounted(n1, events[j - 1], nd, v)
    requires events[j - 1].Deliver? ==> events[j - 1].m in Run(peers, events[..j - 1]).net
    ensures Voted(peers, events, j, v, nd.term, c)
    decreases j, 0
  {
    if v == c {
      VotesNow(peers, events, j, c, nd);
    } else if v in n1.votes && n1.term == nd.term && n1.role != Follower {
      VotesWereCast(peers, events, j - 1, c, n1, v);
      VotedLater(peers, events, j - 1, j, v, nd.term, c);
    } else {
      GrantsWereCast(peers, events, j - 1, events[j - 1].m);
      VotedLater(peers, events, j - 1, j, v, nd.term, c);
    }
  }

  // --------------------------------------------------------- two leaders

  ghost predicate Leads(peers: nat, events: seq<Event>, i: nat, a: nat, t: nat) {
    exists nd: Node :: Is(peers, events, i, a, nd) && nd.role == Leader && nd.term == t
  }

  lemma LeaderOf(peers: nat, events: seq<Event>, i: nat, a: nat, t: nat) returns (nd: Node)
    requires Leads(peers, events, i, a, t)
    ensures Is(peers, events, i, a, nd) && nd.role == Leader && nd.term == t
    ensures a < peers && nd.votedFor == Some(a) && |nd.votes| >= Quorum(peers)
    ensures forall v :: v in nd.votes ==> Voted(peers, events, i, v, t, a)
  {
    nd :| Is(peers, events, i, a, nd) && nd.role == Leader && nd.term == t;
    RunBallots(peers, events[..i]);
    forall v | v in nd.votes ensures Voted(peers, events, i, v, t, a) { VotesWereCast(peers, events, i, a, nd, v); }
  }

  /**
   * Of two leaders of a term, the only voter they can share is the earlier one: it voted for the
   * other.
   */
  lemma SharedVoter(peers: nat, events: seq<Event>, i: nat, j: nat, a: nat, b: nat, t: nat, v: nat)
    requires i <= j && a != b && Leads(peers, events, i, a, t) && Leads(peers, events, j, b, t)
    requires Voted(peers, events, i, v, t, a) && Voted(peers, events, j, v, t, b)
    ensures v == a
  {
    var k: nat :| k <= i && VotedAt(peers, events, k, v, t, a);
    var l: nat :| l <= j && VotedAt(peers, events, l, v, t, b);
    if v == b {
      var nk: Node :| Is(peers, events, k, v, nk) && nk.term == t && nk.votedFor == Some(a);
      var nb := LeaderOf(peers, events, j, b, t);
      VoteSticks(peers, events, k, j, b, nk, nb);
    } else if v != a {
      OneOther(peers, events, k, l, v, t, a, b);
    }
  }

  /** With an even number of voters two majorities share two of them, so a term has one leader. */
  lemma OneLeaderIfEven(peers: nat, events: seq<Event>, i: nat, j: nat, a: nat, b: nat, t: nat)
    requires i <= j && Leads(peers, events, i, a, t) && Leads(peers, events, j, b, t)
    requires peers % 2 == 0 || peers == 1
    ensures a == b
  {
    var na := LeaderOf(peers, events, i, a, t);
    var nb := LeaderOf(peers, events, j, b, t);
    if a != b && peers != 1 {
      var v := EvenMajoritiesMeetTwice(peers, na.votes, nb.votes, a);
      SharedVoter(peers, events, i, j, a, b, t, v);
    }
  }

  // ------------------------------------------- while nobody steps down in its term

  ghost predicate Calm(events: seq<Event>, j: nat) {
    forall k :: 0 <= k < j && k < |events| ==> !events[k].StepDown?
  }

  /** Only a leader of its own term sends AppendEntries, and to others. */
  lemma {:induction false} AppendsFromLeader(peers: nat, events: seq<Event>, j: nat, m: Msg) returns (i: nat)
    requires j <= |events| && m in Run(peers, events[..j]).net && m.AppendReq?
    ensures i <= j && Leads(peers, events, i, m.src, m.term) && m.src != m.dst
  {
    if j == 0 {
      StartsEmpty(peers, events);
    } else if m in Run(peers, events[..j - 1]).net {
      i := AppendsFromLeader(peers, events, j - 1, m);
    } else {
      var n, nd, nd2 := NewMessage(peers, events, j - 1, m);
      i := j - 1;
      assert Is(peers, events, i, m.src, nd);
    }
  }

  /** What could make a node that led its term lose its vote inside it. */
  lemma VoteHolds(nd: Node, e: Event, i: nat, peers: nat)
    requires Balloted(nd, i, peers) && Shaped(nd) && nd.votedFor == Some(i) && nd.role != Candidate && !e.StepDown?
    requires e.Deliver? && e.m.AppendReq? && e.m.dst == i && e.m.term == nd.term ==> nd.role == Follower
    ensures NodeStep(nd, e).0.term == nd.term ==> NodeStep(nd, e).0.votedFor == Some(i)
  {
    if e.Deliver? && e.m.dst == i { ReceiveHolds(nd, e.m, i, peers); }
  }

  lemma ReceiveHolds(nd: Node, m: Msg, i: nat, peers: nat)
    requires Balloted(nd, i, peers) && Shaped(nd) && nd.votedFor == Some(i) && nd.role != Candidate
    requires m.AppendReq? && m.dst == i && m.term == nd.term ==> nd.role == Follower
    requires m.dst == i
    ensures Receive(nd, m).0.term == nd.term ==> Receive(nd, m).0.votedFor == Some(i)
  {
  }

  /** A node that led a term keeps its own vote for the rest of it. */
  lemma {:induction false} KeepsVote(peers: nat, events: seq<Event>, i: nat, j: nat, a: nat, t: nat, nd: Node)
    requires i <= j && Leads(peers, events, i, a, t) && Is(peers, events, j, a, nd) && nd.term == t && Calm(events, j)
    ensures nd.votedFor == Some(a) && nd.role != Candidate
    decreases j, 0
  {
    var na := LeaderOf(peers, events, i, a, t);
    if i < j {
      var n1, n2 := NodeNext(peers, events, j - 1, a);
      TermsRise(peers, events, i, j - 1, a, na, n1);
      KeepsVote(peers, events, i, j - 1, a, t, n1);
      if n2 != n1 {
        var e := events[j - 1];
        if e.Deliver? && e.m.AppendReq? && e.m.dst == a && e.m.term == t && n1.role == Leader {
          var k := AppendsFromLeader(peers, events, j - 1, e.m);
          assert Leads(peers, events, j - 1, a, t);
          OneLeaderIfCalm(peers, events, k, j - 1, e.m.src, a, t);
        }
        VoteHolds(n1, e, a, peers);
      }
    }
  }

  lemma {:induction false} OneLeaderIfCalm(peers: nat, events: seq<Event>, i: nat, j: nat, a: nat, b: nat, t: nat)
    requires i <= j && Leads(peers, events, i, a, t) && Leads(peers, events, j, b, t) && Calm(events, j)
    ensures a == b
    decreases j, 1
  {
    var na := LeaderOf(peers, events, i, a, t);
    var nb := LeaderOf(peers, events, j, b, t);
    if a != b {
      var v := MajoritiesMeet(peers, na.votes, nb.votes);
      SharedVoter(peers, events, i, j, a, b, t, v);
      var l: nat :| l <= j && VotedAt(peers, events, l, a, t, b);
      var nl: Node :| Is(peers, events, l, a, nl) && nl.term == t && nl.votedFor == Some(b);
      if l <= i { VoteSticks(peers, events, l, i, a, nl, na); } else { KeepsVote(peers, events, i, l, a, t, nl); }
    }
  }

  /**
   * No two nodes ever lead the same term, at whatever points of the run they are looked at, when
   * no leader stepped down inside its term before, and in any case with an even number of voters
   * or a single one.
   */
  lemma OneLeaderPerTerm(peers: nat, events: seq<Event>, i: nat, j: nat, a: nat, b: nat, t: nat)
    requires i <= j && Leads(peers, events, i, a, t) && Leads(peers, events, j, b, t)
    requires Calm(events, j) || peers % 2 == 0 || peers == 1
    ensures a == b
  {
    if Calm(events, j) {
      OneLeaderIfCalm(peers, events, i, j, a, b, t);
    } else {
      OneLeaderIfEven(peers, events, i, j, a, b, t);
    }
  }

  // --------------------------------------- two leaders, with an odd number of voters

  ghost predicate Bare(nd: Node, i: nat, peers: nat) {
    nd.me == i && nd.peers == peers && Shaped(nd) && nd.log == [] && nd.commit == 0 && nd.snapshot == 0
  }

  /** A node before its first election. */
  ghost predicate Idle(nd: Node, i: nat, peers: nat) {
    Bare(nd, i, peers) && nd.role == Follower && nd.term == 0 && nd.votedFor == None
  }

  /** A follower that may still vote in term 1. */
  ghost predicate Willing(nd: Node, i: nat, peers: nat) {
    Bare(nd, i, peers) && nd.role == Follower && nd.term <= 1 && nd.votedFor == None
  }

  ghost predicate Standing(nd: Node, i: nat, peers: nat, votes: set<nat>) {
    Bare(nd, i, peers) && nd.role == Candidate && nd.term == 1 && nd.votedFor == Some(i) && nd.votes == votes
  }

  ghost predicate Crowned(nd: Node, i: nat, peers: nat) {
    Bare(nd, i, peers) && nd.role == Leader && nd.term == 1
  }

  /** The state after events, and after one more. */
  ghost predicate Reaches(peers: nat, events: seq<Event>, s: System) {
    s == Run(peers, events) && |s.nodes| == peers
  }

  lemma Extend(peers: nat, events: seq<Event>, s: System, e: Event) returns (more: seq<Event>, s2: System)
    requires Reaches(peers, events, s) && Enabled(s, e)
    ensures Reaches(peers, more, s2) && s2 == Step(s, e) && events <= more
  {
    more, s2 := events + [e], Step(s, e);
    assert more[..|more| - 1] == events;
  }

  /** Everybody but c is as before, and no message is lost. */
  ghost predicate OnlyMoved(s: System, s2: System, c: nat) {
    |s2.nodes| == |s.nodes| && s.net <= s2.net
    && forall x :: 0 <= x < |s.nodes| && x != c ==> s2.nodes[x] == s.nodes[x]
  }

  // ------------------------------------------------------------- pre-votes

  ghost predicate AllIdle(s: System, peers: nat) {
    |s.nodes| == peers && forall i: nat :: i < peers ==> Idle(s.nodes[i], i, peers)
  }

  ghost predicate Asked(s: System, c: nat, peers: nat) {
    forall d: nat :: d < peers && d != c ==> PreVoteReq(c, d, 0, 0, 0) in s.net
  }

  ghost predicate Polled(nd: Node, k: nat, peers: nat) {
    (forall x: nat :: x < k ==> x in nd.preVotes) && (nd.mayRun || |nd.preVotes| < Quorum(peers))
  }

  lemma PreVoteStep(s: System, c: nat, d: nat, peers: nat) returns (e: Event, e2: Event)
    requires AllIdle(s, peers) && Asked(s, c, peers) && c < peers && d < peers && c != d
    ensures Enabled(s, e) && Enabled(Step(s, e), e2)
    ensures var s2 := Step(Step(s, e), e2);
      && OnlyMoved(s, s2, c) && Idle(s2.nodes[c], c, peers)
      && s2.nodes[c].preVotes == s.nodes[c].preVotes + {d}
      && s2.nodes[c].mayRun == (s.nodes[c].mayRun || |s2.nodes[c].preVotes| >= Quorum(peers))
  {
    e := Deliver(d, PreVoteReq(c, d, 0, 0, 0));
    e2 := Deliver(c, PreVoteResp(d, c, 0, 0, true));
    var s1 := Step(s, e);
    assert s.nodes[d := s.nodes[d]] == s.nodes;
    assert s1.nodes == s.nodes && PreVoteResp(d, c, 0, 0, true) in s1.net;
  }

  lemma PreVoteOne(peers: nat, events: seq<Event>, s: System, c: nat, k: nat) returns (more: seq<Event>, s2: System)
    requires Reaches(peers, events, s) && AllIdle(s, peers) && Asked(s, c, peers) && c < peers && k < peers && k != c
    requires c in s.nodes[c].preVotes && Polled(s.nodes[c], k, peers)
    ensures Reaches(peers, more, s2) && events <= more && AllIdle(s2, peers)
    ensures Asked(s2, c, peers) && OnlyMoved(s, s2, c)
    ensures c in s2.nodes[c].preVotes && Polled(s2.nodes[c], k + 1, peers)
  {
    var e, e2 := PreVoteStep(s, c, k, peers);
    var events1, s1 := Extend(peers, events, s, e);
    more, s2 := Extend(peers, events1, s1, e2);
  }

  lemma {:induction false} PreVoteRound(peers: nat, events: seq<Event>, s: System, c: nat, k: nat)
    returns (more: seq<Event>, s2: System)
    requires Reaches(peers, events, s) && AllIdle(s, peers) && Asked(s, c, peers) && c < peers && k <= peers
    requires c in s.nodes[c].preVotes && Polled(s.nodes[c], k, peers)
    ensures Reaches(peers, more, s2) && events <= more && AllIdle(s2, peers)
    ensures OnlyMoved(s, s2, c) && s2.nodes[c].mayRun
    decreases peers - k
  {
    if k == peers {
      more, s2 := events, s;
      BelowIsRange(peers);
      SubsetSize(Below(peers), s.nodes[c].preVotes);
    } else if k == c {
      more, s2 := PreVoteRound(peers, events, s, c, k + 1);
    } else {
      var events1, s1 := PreVoteOne(peers, events, s, c, k);
      more, s2 := PreVoteRound(peers, events1, s1, c, k + 1);
    }
  }

  lemma TimeoutAsks(s: System, c: nat, peers: nat)
    requires AllIdle(s, peers) && c < peers && peers >= 3
    ensures Enabled(s, ElectionTimeout(c))
    ensures var s2 := Step(s, ElectionTimeout(c));
      AllIdle(s2, peers) && OnlyMoved(s, s2, c) && Asked(s2, c, peers)
      && s2.nodes[c].preVotes == {c} && s2.nodes[c].mayRun == s.nodes[c].mayRun
  {
    var sent := NodeStep(s.nodes[c], ElectionTimeout(c)).1;
    forall d: nat | d < peers && d != c ensures PreVoteReq(c, d, 0, 0, 0) in sent { assert d in Others(s.nodes[c]); }
  }

  /** From a cluster at rest, node c gets to run. */
  lemma PreElect(peers: nat, events: seq<Event>, s: System, c: nat) returns (more: seq<Event>, s2: System)
    requires Reaches(peers, events, s) && AllIdle(s, peers) && c < peers && peers >= 3
    ensures Reaches(peers, more, s2) && events <= more && AllIdle(s2, peers)
    ensures OnlyMoved(s, s2, c) && s2.nodes[c].mayRun
  {
    TimeoutAsks(s, c, peers);
    var events1, s1 := Extend(peers, events, s, ElectionTimeout(c));
    more, s2 := PreVoteRound(peers, events1, s1, c, 0);
  }

  // ------------------------------------------------------------------ votes

  ghost predicate Canvassed(s: System, c: nat, peers: nat) {
    forall d: nat :: d < peers && d != c ==> VoteReq(c, d, 1, 0, 0) in s.net
  }

  /** c stands, and asks everybody. */
  lemma Stand(peers: nat, events: seq<Event>, s: System, c: nat) returns (more: seq<Event>, s2: System)
    requires Reaches(peers, events, s) && c < peers && peers >= 3 && Idle(s.nodes[c], c, peers) && s.nodes[c].mayRun
    ensures Reaches(peers, more, s2) && events <= more && OnlyMoved(s, s2, c)
    ensures Standing(s2.nodes[c], c, peers, {c}) && Canvassed(s2, c, peers)
  {
    var events1, s1 := Extend(peers, events, s, RealElection(c));
    assert |{c}| == 1 && Standing(s1.nodes[c], c, peers, {c});
    more, s2 := Extend(peers, events1, s1, SendVotes(c));
    var sent := NodeStep(s1.nodes[c], SendVotes(c)).1;
    forall d: nat | d < peers && d != c ensures VoteReq(c, d, 1, 0, 0) in sent { assert d in Others(s1.nodes[c]); }
  }

  /** Everybody but c and d is as before, and no message is lost. */
  ghost predicate BothMoved(s: System, s2: System, c: nat, d: nat) {
    |s2.nodes| == |s.nodes| && s.net <= s2.net
    && forall x :: 0 <= x < |s.nodes| && x != c && x != d ==> s2.nodes[x] == s.nodes[x]
  }

  lemma Granted(s: System, c: nat, d: nat, peers: nat) returns (e: Event, s2: System)
    requires |s.nodes| == peers && c < peers && d < peers && c != d
    requires Willing(s.nodes[d], d, peers) && VoteReq(c, d, 1, 0, 0) in s.net
    ensures Enabled(s, e) && s2 == Step(s, e) && OnlyMoved(s, s2, d) && VoteResp(d, c, 1, 1, true) in s2.net
    ensures s2.nodes[d].role == Follower
  {
    e := Deliver(d, VoteReq(c, d, 1, 0, 0));
    s2 := Step(s, e);
  }

  /** What c becomes with one vote more. */
  ghost predicate Gained(nd: Node, c: nat, peers: nat, votes: set<nat>) {
    if |votes| < Quorum(peers) then Standing(nd, c, peers, votes) else Crowned(nd, c, peers)
  }

  lemma Counted(s: System, c: nat, d: nat, peers: nat, votes: set<nat>) returns (e: Event, s2: System)
    requires |s.nodes| == peers && c < peers && Standing(s.nodes[c], c, peers, votes)
    requires VoteResp(d, c, 1, 1, true) in s.net
    ensures Enabled(s, e) && s2 == Step(s, e) && OnlyMoved(s, s2, c) && Gained(s2.nodes[c], c, peers, votes + {d})
  {
    e := Deliver(c, VoteResp(d, c, 1, 1, true));
    s2 := Step(s, e);
  }

  /** d votes for c, and c counts the vote. */
  lemma OneVote(peers: nat, events: seq<Event>, s: System, c: nat, d: nat, votes: set<nat>)
    returns (more: seq<Event>, s2: System)
    requires Reaches(peers, events, s) && c < peers && d < peers && c != d
    requires Standing(s.nodes[c], c, peers, votes) && Willing(s.nodes[d], d, peers) && VoteReq(c, d, 1, 0, 0) in s.net
    ensures Reaches(peers, more, s2) && events <= more && BothMoved(s, s2, c, d)
    ensures Gained(s2.nodes[c], c, peers, votes + {d})
  {
    var e, t := Granted(s, c, d, peers);
    var events1, s1 := Extend(peers, events, s, e);
    var e2, t2 := Counted(s1, c, d, peers, votes);
    more, s2 := Extend(peers, events1, s1, e2);
  }

  /** Everybody outside c and lo..hi is as before, and no message is lost. */
  ghost predicate RangeMoved(s: System, s2: System, c: nat, lo: nat, hi: nat) {
    |s2.nodes| == |s.nodes| && s.net <= s2.net
    && forall x :: 0 <= x < |s.nodes| && x != c && !(lo <= x < hi) ==> s2.nodes[x] == s.nodes[x]
  }

  function Upto(votes: set<nat>, lo: nat, hi: nat): set<nat>
    decreases hi - lo
  {
    if lo >= hi then votes else Upto(votes + {lo}, lo + 1, hi)
  }

  lemma {:induction false} UptoSize(votes: set<nat>, lo: nat, hi: nat)
    requires lo <= hi && forall x :: x in votes ==> !(lo <= x < hi)
    ensures |Upto(votes, lo, hi)| == |votes| + hi - lo
    ensures forall x :: x in Upto(votes, lo, hi) ==> x in votes || lo <= x < hi
    decreases hi - lo
  {
    if lo < hi { UptoSize(votes + {lo}, lo + 1, hi); }
  }

  /** The nodes lo..hi vote for c one after another, as many as it needs at most. */
  lemma {:induction false} VoteRound(peers: nat, events: seq<Event>, s: System, c: nat, lo: nat, hi: nat,
                                     votes: set<nat>)
    returns (more: seq<Event>, s2: System)
    requires Reaches(peers, events, s) && c < peers && lo <= hi <= peers && !(lo <= c < hi)
    requires Gained(s.nodes[c], c, peers, votes) && |votes| + hi - lo <= Quorum(peers) && Canvassed(s, c, peers)
    requires forall x :: x in votes ==> !(lo <= x < hi)
    requires forall d: nat :: lo <= d < hi ==> Willing(s.nodes[d], d, peers)
    ensures Reaches(peers, more, s2) && events <= more && RangeMoved(s, s2, c, lo, hi)
    ensures Gained(s2.nodes[c], c, peers, Upto(votes, lo, hi))
    decreases hi - lo
  {
    if lo == hi {
      more, s2 := events, s;
    } else {
      var events1, s1 := OneVote(peers, events, s, c, lo, votes);
      assert |votes + {lo}| == |votes| + 1;
      more, s2 := VoteRound(peers, events1, s1, c, lo + 1, hi, votes + {lo});
    }
  }

  /** Nodes 0 and q stand in term 1, and nobody has voted for another yet. */
  lemma BothStand(peers: nat, q: nat) returns (events: seq<Event>, s: System)
    requires peers >= 3 && 0 < q < peers
    ensures Reaches(peers, events, s) && Canvassed(s, 0, peers) && Canvassed(s, q, peers)
    ensures Standing(s.nodes[0], 0, peers, {0}) && Standing(s.nodes[q], q, peers, {q})
    ensures forall d: nat :: 0 < d < peers && d != q ==> Willing(s.nodes[d], d, peers)
  {
    var s0 := Initial(peers);
    var events1, s1 := PreElect(peers, [], s0, 0);
    var events2, s2 := PreElect(peers, events1, s1, q);
    var events3, s3 := Stand(peers, events2, s2, 0);
    events, s := Stand(peers, events3, s3, q);
  }

  /** Node 0 wins with the votes of 1 to q - 1. */
  lemma FirstWins(peers: nat, q: nat) returns (events: seq<Event>, s: System)
    requires peers >= 3 && q == Quorum(peers) < peers
    ensures Reaches(peers, events, s) && Crowned(s.nodes[0], 0, peers)
    ensures Standing(s.nodes[q], q, peers, {q}) && Canvassed(s, q, peers)
    ensures forall d: nat :: q < d < peers ==> Willing(s.nodes[d], d, peers)
  {
    var events1, s1 := BothStand(peers, q);
    assert |{0}| == 1;
    events, s := VoteRound(peers, events1, s1, 0, 1, q, {0});
    UptoSize({0}, 1, q);
  }

  /** The others vote for q, which then lacks one vote. */
  lemma OneShort(peers: nat, q: nat, events: seq<Event>, s: System)
    returns (more: seq<Event>, s2: System, votes: set<nat>)
    requires Reaches(peers, events, s) && q == Quorum(peers) < peers && peers % 2 == 1
    requires Standing(s.nodes[q], q, peers, {q}) && Canvassed(s, q, peers)
    requires forall d: nat :: q < d < peers ==> Willing(s.nodes[d], d, peers)
    ensures Reaches(peers, more, s2) && events <= more && s2.nodes[0] == s.nodes[0] && s.net <= s2.net
    ensures Standing(s2.nodes[q], q, peers, votes) && 0 !in votes && |votes| + 1 == q
  {
    assert |{q}| == 1;
    more, s2 := VoteRound(peers, events, s, q, q + 1, peers, {q});
    UptoSize({q}, q + 1, peers);
    votes := Upto({q}, q + 1, peers);
  }

  /**
   * With three voters or any larger odd number there is a run in which two nodes lead term 1:
   * the first one wins, steps down inside the term, and votes for the second.
   */
  lemma SteppingDownElectsTwo(peers: nat) returns (events: seq<Event>, i: nat, a: nat, b: nat)
    requires peers >= 3 && peers % 2 == 1
    ensures a != b && i <= |events| && Leads(peers, events, i, a, 1) && Leads(peers, events, |events|, b, 1)
  {
    var q := Quorum(peers);
    var events1, s1 := FirstWins(peers, q);
    var events2, s2 := Extend(peers, events1, s1, StepDown(0));
    var events3, s3, votes := OneShort(peers, q, events2, s2);
    var s4;
    events, s4 := OneVote(peers, events3, s3, q, 0, votes);
    i, a, b := |events1|, 0, q;
    assert events[..i] == events1 && events[..|events|] == events;
    assert Is(peers, events, i, a, s1.nodes[0]) && Is(peers, events, |events|, b, s4.nodes[q]);
  }

  ghost predicate NeverTwo(peers: nat, events: seq<Event>) {
    forall i: nat, j: nat, a: nat, b: nat, t: nat ::
      i <= j && Leads(peers, events, i, a, t) && Leads(peers, events, j, b, t) ==> a == b
  }

  /** So a term has one leader in every run exactly when the number of voters is even, or one. */
  lemma OneLeaderExactly(peers: nat)
    ensures (forall events :: NeverTwo(peers, events)) <==> peers % 2 == 0 || peers == 1
  {
    if peers % 2 == 0 || peers == 1 {
      forall events ensures NeverTwo(peers, events) {
        forall i: nat, j: nat, a: nat, b: nat, t: nat |
          i <= j && Leads(peers, events, i, a, t) && Leads(peers, events, j, b, t)
          ensures a == b
        {
          OneLeaderPerTerm(peers, events, i, j, a, b, t);
        }
      }
    } else {
      var events, i, a, b := SteppingDownElectsTwo(peers);
      assert !NeverTwo(peers, events);
    }
  }
}
