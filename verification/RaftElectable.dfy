/**
 * An election is always possible: from every reachable state, in every majority there is a node
 * that its members alone can make leader.
 */
module RaftElectable {
  import opened Wrappers
  import opened OrderStatistics
  import opened RaftTypes
  import opened RaftRules
  import opened RaftSystem
  import opened RaftSafety
  import opened RaftPlay

  // ------------------------------------------------------- the up-to-date check

  /** other may lead a voter that holds log. */
  predicate Passes(log: Log, other: Log) {
    UpToDate(log, |other|, LastTerm(other))
  }

  /** Of any two logs at least one passes for the other, and both do exactly if they end alike. */
  lemma UpToDateIsTotal(a: Log, b: Log)
    ensures Passes(a, b) || Passes(b, a)
    ensures Passes(a, b) && Passes(b, a) <==> LastTerm(a) == LastTerm(b) && |a| == |b|
  {
  }

  /** The check orders logs by their last term first, and by their length among equals. */
  lemma UpToDateIsLexicographic(a: Log, b: Log)
    ensures LastTerm(a) < LastTerm(b) ==> Passes(a, b) && !Passes(b, a)
    ensures LastTerm(a) == LastTerm(b) ==> (Passes(a, b) <==> |a| <= |b|)
  {
  }

  lemma UpToDateTrans(a: Log, b: Log, c: Log)
    requires Passes(a, b) && Passes(b, c)
    ensures Passes(a, c)
  {
  }

  /** A pre-vote is granted exactly if the vote would be, in any term new to the voter. */
  lemma PreVoteForetells(nd: Node, cand: nat, term: nat, log: Log)
    requires term > nd.term
    ensures HandlePreVote(nd, cand, |log|, LastTerm(log)) <==> HandleVote(nd, cand, term, |log|, LastTerm(log)).1
    ensures HandlePreVote(nd, cand, |log|, LastTerm(log)) <==> cand < nd.peers && Passes(nd.log, log)
  {
  }

  /** c's log passes for every member. */
  ghost predicate Best(s: System, members: set<nat>, c: nat) {
    c in members && c < |s.nodes|
    && forall v: nat :: v in members && v < |s.nodes| ==> Passes(s.nodes[v].log, s.nodes[c].log)
  }

  /** Some member's log passes for all. */
  lemma {:induction false} BestExists(s: System, members: set<nat>) returns (c: nat)
    requires members != {} && forall v :: v in members ==> v < |s.nodes|
    ensures Best(s, members, c)
    decreases |members|
  {
    var v :| v in members;
    c := v;
    if members != {v} {
      assert members - {v} != {};
      var b := BestExists(s, members - {v});
      UpToDateIsTotal(s.nodes[v].log, s.nodes[b].log);
      if Passes(s.nodes[v].log, s.nodes[b].log) {
        c := b;
      } else {
        forall w: nat | w in members && w < |s.nodes| ensures Passes(s.nodes[w].log, s.nodes[v].log) {
          if w != v { UpToDateTrans(s.nodes[w].log, s.nodes[b].log, s.nodes[v].log); }
        }
      }
    }
  }

  // ---------------------------------------------------- a candidate with the highest term

  /** s differs from s0 in node c only, which is no leader and kept its log and snapshot. */
  ghost predicate OnlyMoved(s0: System, s: System, c: nat) {
    |s.nodes| == |s0.nodes| && c < |s.nodes|
    && (forall v: nat :: v < |s.nodes| && v != c ==> s.nodes[v] == s0.nodes[v])
    && s.nodes[c].log == s0.nodes[c].log && s.nodes[c].snapshot == s0.nodes[c].snapshot
    && s.nodes[c].term >= s0.nodes[c].term
  }

  /** A leader gives up first. */
  lemma Yield(peers: nat, s: System, members: set<nat>, c: nat) returns (s2: System)
    requires Reachable(peers, s) && c in members && c < peers
    ensures Goes(peers, s, members, s2) && OnlyMoved(s, s2, c) && s2.nodes[c].role != Leader
    ensures s2.nodes[c].term == s.nodes[c].term
  {
    NodeIs(peers, s, c);
    if s.nodes[c].role == Leader {
      s2 := Act(peers, s, members, StepDown(c));
    } else {
      GoesSelf(peers, s, members);
      s2 := s;
    }
  }

  lemma TimedOut(nd: Node)
    requires nd.role != Leader
    ensures var n1 := StartElection(nd);
      n1.role == Follower && n1.preVotes == {nd.me} && n1.log == nd.log && n1.snapshot == nd.snapshot
      && n1.term == nd.term && (|n1.preVotes| >= Quorum(nd.peers) ==> n1.mayRun)
  {
  }

  /** The requests of a timeout. */
  lemma Asked(peers: nat, nd: Node, c: nat, v: nat)
    requires FormedAt(peers, c, nd) && nd.role != Leader && v < peers && v != c
    ensures PreVoteReq(c, v, nd.term, |nd.log|, LastTerm(nd.log)) in NodeStep(nd, ElectionTimeout(c)).1
  {
    TimedOut(nd);
    assert v in Others(nd);
  }

  /** A pre-vote reply of a higher term teaches the term. */
  lemma Learn(peers: nat, s: System, members: set<nat>, c: nat, w: nat) returns (s2: System)
    requires Reachable(peers, s) && c in members && w in members && c < peers && w < peers
    requires s.nodes[c].role != Leader
    ensures Goes(peers, s, members, s2) && OnlyMoved(s, s2, c) && s2.nodes[c].role != Leader
    ensures s2.nodes[c].term == Max(s.nodes[c].term, s.nodes[w].term)
  {
    var nc, nw := s.nodes[c], s.nodes[w];
    if nw.term <= nc.term {
      GoesSelf(peers, s, members);
      s2 := s;
    } else {
      NodeIs(peers, s, c);
    NodeIs(peers, s, w);
      TimedOut(nc);
      Asked(peers, nc, c, w);
      var s1 := Act(peers, s, members, ElectionTimeout(c));
      var req := PreVoteReq(c, w, nc.term, |nc.log|, LastTerm(nc.log));
      var resp := PreVoteResp(w, c, nc.term, nw.term, HandlePreVote(nw, c, |nc.log|, LastTerm(nc.log)));
      s2 := Ask(peers, s1, members, c, w, req, resp);
      GoesTrans(peers, s, members, s1, s2);
    }
  }

  ghost predicate TopTerm(s: System, members: set<nat>, c: nat) {
    c < |s.nodes| && forall v: nat :: v in members && v < |s.nodes| ==> s.nodes[v].term <= s.nodes[c].term
  }

  lemma LearnedTop(s: System, s1: System, done: set<nat>, c: nat, w: nat)
    requires TopTerm(s, done, c) && OnlyMoved(s, s1, c) && w < |s.nodes|
    requires s1.nodes[c].term == Max(s.nodes[c].term, s.nodes[w].term)
    ensures TopTerm(s1, done + {w}, c)
  {
  }

  /** After learning from every member, c's term is the highest. */
  lemma {:induction false} LearnAll(peers: nat, s: System, members: set<nat>, c: nat, done: set<nat>, todo: set<nat>)
    returns (s2: System)
    requires Reachable(peers, s) && c in members && c < peers && s.nodes[c].role != Leader
    requires todo <= members && forall v :: v in members ==> v < peers
    requires TopTerm(s, done, c)
    ensures Goes(peers, s, members, s2) && OnlyMoved(s, s2, c) && s2.nodes[c].role != Leader
    ensures TopTerm(s2, done + todo, c)
    decreases |todo|
  {
    if todo == {} {
      assert done + todo == done;
      GoesSelf(peers, s, members);
      s2 := s;
    } else {
      var w :| w in todo;
      var s1 := Learn(peers, s, members, c, w);
      LearnedTop(s, s1, done, c, w);
      MovedOver(done, todo, w);
      s2 := LearnAll(peers, s1, members, c, done + {w}, todo - {w});
      GoesTrans(peers, s, members, s1, s2);
    }
  }

  // ------------------------------------------------------------------ pre-votes

  /** c, a follower of the highest term, has the pre-votes of those asked; everybody got its request. */
  ghost predicate Canvassing(s0: System, s: System, c: nat, asked: set<nat>) {
    OnlyMoved(s0, s, c) && s.nodes[c].role == Follower && s.nodes[c].term == s0.nodes[c].term
    && asked <= s.nodes[c].preVotes
    && (|s.nodes[c].preVotes| >= Quorum(|s.nodes|) ==> s.nodes[c].mayRun)
    && forall v: nat :: v < |s.nodes| && v != c ==> Asks(s, c, v, s.nodes[c])
  }

  ghost predicate Asks(s: System, c: nat, v: nat, nd: Node) {
    PreVoteReq(c, v, nd.term, |nd.log|, LastTerm(nd.log)) in s.net
  }

  lemma Canvass(peers: nat, s: System, members: set<nat>, c: nat) returns (s2: System)
    requires Reachable(peers, s) && c in members && c < peers && s.nodes[c].role != Leader
    ensures Goes(peers, s, members, s2) && Canvassing(s, s2, c, {c})
  {
    NodeIs(peers, s, c);
    TimedOut(s.nodes[c]);
    s2 := Act(peers, s, members, ElectionTimeout(c));
    forall v: nat | v < peers && v != c ensures Asks(s2, c, v, s2.nodes[c]) { Asked(peers, s.nodes[c], c, v); }
  }

  lemma PreVoteComes(nd: Node, v: nat, term: nat)
    requires nd.role == Follower && term <= nd.term && (|nd.preVotes| >= Quorum(nd.peers) ==> nd.mayRun)
    ensures var n1 := OnPreVoteReply(nd, v, nd.term, term, true);
      n1 == nd.(preVotes := nd.preVotes + {v}, mayRun := n1.mayRun)
      && (|n1.preVotes| >= Quorum(nd.peers) ==> n1.mayRun)
  {
  }

  lemma CanvassOne(peers: nat, s0: System, s: System, members: set<nat>, c: nat, asked: set<nat>, v: nat)
    returns (s2: System)
    requires Reachable(peers, s) && Canvassing(s0, s, c, asked)
    requires c in members && v in members && v < peers && c != v && c < peers
    requires s.nodes[v].term <= s.nodes[c].term && Passes(s.nodes[v].log, s.nodes[c].log)
    ensures Goes(peers, s, members, s2) && Canvassing(s0, s2, c, asked + {v})
  {
    var nc, nv := s.nodes[c], s.nodes[v];
    NodeIs(peers, s, c);
    NodeIs(peers, s, v);
    var req := PreVoteReq(c, v, nc.term, |nc.log|, LastTerm(nc.log));
    var resp := PreVoteResp(v, c, nc.term, nv.term, true);
    PreVoteComes(nc, v, nv.term);
    assert Asks(s, c, v, nc);
    s2 := Ask(peers, s, members, c, v, req, resp);
    forall w: nat | w < peers && w != c ensures Asks(s2, c, w, s2.nodes[c]) { assert Asks(s, c, w, s.nodes[c]); }
  }

  lemma {:induction false} CanvassAll(peers: nat, s0: System, s: System, members: set<nat>, c: nat, asked: set<nat>,
                                      todo: set<nat>)
    returns (s2: System)
    requires Reachable(peers, s) && Canvassing(s0, s, c, asked) && c < peers && |s0.nodes| == peers
    requires c in members && todo <= members && c !in todo && forall v :: v in members ==> v < peers
    requires TopTerm(s0, members, c) && Best(s0, members, c)
    ensures Goes(peers, s, members, s2) && Canvassing(s0, s2, c, asked + todo)
    decreases |todo|
  {
    if todo == {} {
      assert asked + todo == asked;
      GoesSelf(peers, s, members);
      s2 := s;
    } else {
      var v :| v in todo;
      var s1 := CanvassOne(peers, s0, s, members, c, asked, v);
      MovedOver(asked, todo, v);
      s2 := CanvassAll(peers, s0, s1, members, c, asked + {v}, todo - {v});
      GoesTrans(peers, s, members, s1, s2);
    }
  }

  // ---------------------------------------------------------------------- votes

  /** A voter that granted its vote to c in term t. */
  function Granted(nd: Node, c: nat, t: nat): Node {
    nd.(role := Follower, term := t, votedFor := Some(c))
  }

  /** c stands or leads in term t, with the votes of those asked. */
  ghost predicate Stands(nd0: Node, nd: Node, t: nat, asked: set<nat>) {
    nd.term == t && nd.snapshot == nd0.snapshot
    && ((nd.role == Leader && nd0.log <= nd.log)
        || (nd.role == Candidate && nd.log == nd0.log && asked <= nd.votes && |nd.votes| < Quorum(nd.peers)))
  }

  ghost predicate Polling(s0: System, s: System, c: nat, t: nat, asked: set<nat>) {
    |s.nodes| == |s0.nodes| && c < |s.nodes| && Stands(s0.nodes[c], s.nodes[c], t, asked)
    && (forall v: nat :: v < |s.nodes| && v != c ==>
          s.nodes[v] == if v in asked then Granted(s0.nodes[v], c, t) else s0.nodes[v])
    && forall v: nat :: v < |s.nodes| && v != c ==> Requested(s, c, v, t, s0.nodes[c].log)
  }

  ghost predicate Requested(s: System, c: nat, v: nat, t: nat, log: Log) {
    VoteReq(c, v, t, |log|, LastTerm(log)) in s.net
  }

  lemma Candidates(nd: Node)
    requires nd.role == Follower && nd.me < nd.peers
    ensures Stands(nd, StartRealElection(nd), nd.term + 1, {nd.me})
    ensures StartRealElection(nd).role == Leader ==> nd.peers == 1
  {
    assert |{nd.me}| == 1;
  }

  lemma AskForVotes(peers: nat, s0: System, s: System, members: set<nat>, c: nat, t: nat) returns (s2: System)
    requires Reachable(peers, s) && |s0.nodes| == peers && c in members && c < peers
    requires Stands(s0.nodes[c], s.nodes[c], t, {c}) && (s.nodes[c].role == Leader ==> peers == 1)
    requires forall v: nat :: v < peers && v != c ==> s.nodes[v] == s0.nodes[v]
    ensures Goes(peers, s, members, s2) && Polling(s0, s2, c, t, {c})
  {
    s2 := Act(peers, s, members, SendVotes(c));
    forall v: nat | v < peers && v != c ensures Requested(s2, c, v, t, s0.nodes[c].log) {
      assert v in Others(s.nodes[c]);
    }
  }

  /** Standing, and asking for votes. */
  lemma Stand(peers: nat, s: System, members: set<nat>, c: nat) returns (s2: System)
    requires Reachable(peers, s) && c in members && c < peers
    requires s.nodes[c].role == Follower && s.nodes[c].mayRun
    ensures Goes(peers, s, members, s2) && Polling(s, s2, c, s.nodes[c].term + 1, {c})
  {
    NodeIs(peers, s, c);
    Candidates(s.nodes[c]);
    var s1 := Act(peers, s, members, RealElection(c));
    s2 := AskForVotes(peers, s, s1, members, c, s.nodes[c].term + 1);
    GoesTrans(peers, s, members, s1, s2);
  }

  lemma VoteGiven(peers: nat, nd: Node, v: nat, c: nat, t: nat, log: Log)
    requires FormedAt(peers, v, nd) && c < peers && nd.term < t && Passes(nd.log, log)
    ensures HandleVote(nd, c, t, |log|, LastTerm(log)) == (Granted(nd, c, t), true)
  {
  }

  lemma VoteComes(nd0: Node, nd: Node, t: nat, asked: set<nat>, v: nat)
    requires Stands(nd0, nd, t, asked)
    ensures Stands(nd0, OnVoteReply(nd, v, t, t, true), t, asked + {v})
  {
  }

  lemma PollOne(peers: nat, s0: System, s: System, members: set<nat>, c: nat, t: nat, asked: set<nat>, v: nat)
    returns (s2: System)
    requires Reachable(peers, s) && Polling(s0, s, c, t, asked)
    requires c in members && v in members && v < peers && c != v && c < peers && v !in asked
    requires s0.nodes[v].term < t && Passes(s0.nodes[v].log, s0.nodes[c].log)
    ensures Goes(peers, s, members, s2) && Polling(s0, s2, c, t, asked + {v})
  {
    var nv := s.nodes[v];
    NodeIs(peers, s, c);
    NodeIs(peers, s, v);
    var log := s0.nodes[c].log;
    VoteGiven(peers, nv, v, c, t, log);
    VoteComes(s0.nodes[c], s.nodes[c], t, asked, v);
    assert Requested(s, c, v, t, log);
    s2 := Ask(peers, s, members, c, v, VoteReq(c, v, t, |log|, LastTerm(log)), VoteResp(v, c, t, t, true));
    StillRequested(s, s2, c, t, log);
  }

  lemma StillRequested(s: System, s2: System, c: nat, t: nat, log: Log)
    requires s.net <= s2.net && |s.nodes| == |s2.nodes|
    requires forall v: nat :: v < |s.nodes| && v != c ==> Requested(s, c, v, t, log)
    ensures forall v: nat :: v < |s2.nodes| && v != c ==> Requested(s2, c, v, t, log)
  {
    forall v: nat | v < |s2.nodes| && v != c ensures Requested(s2, c, v, t, log) { assert Requested(s, c, v, t, log); }
  }

  lemma {:induction false} PollAll(peers: nat, s0: System, s: System, members: set<nat>, c: nat, t: nat,
                                   asked: set<nat>, todo: set<nat>)
    returns (s2: System)
    requires Reachable(peers, s) && Polling(s0, s, c, t, asked) && c < peers && |s0.nodes| == peers
    requires c in members && todo <= members && c !in todo && asked !! todo && forall v :: v in members ==> v < peers
    requires Best(s0, members, c) && forall v :: v in members ==> s0.nodes[v].term < t
    ensures Goes(peers, s, members, s2) && Polling(s0, s2, c, t, asked + todo)
    decreases |todo|
  {
    if todo == {} {
      assert asked + todo == asked;
      GoesSelf(peers, s, members);
      s2 := s;
    } else {
      var v :| v in todo;
      var s1 := PollOne(peers, s0, s, members, c, t, asked, v);
      MovedOver(asked, todo, v);
      s2 := PollAll(peers, s0, s1, members, c, t, asked + {v}, todo - {v});
      GoesTrans(peers, s, members, s1, s2);
    }
  }

  // ------------------------------------------------------------------- theorem

  ghost predicate IsMajority(peers: nat, members: set<nat>) {
    (forall v :: v in members ==> v < peers) && |members| >= Quorum(peers)
  }

  /**
   * c leads a term that is new to all members, and the others follow it there; logs and snapshots
   * are what they were, except that c may have added a no-op.
   */
  ghost predicate Elected(s: System, s2: System, members: set<nat>, c: nat) {
    |s2.nodes| == |s.nodes| && c < |s.nodes| && c in members
    && s2.nodes[c].role == Leader && s.nodes[c].log <= s2.nodes[c].log && s2.nodes[c].snapshot == s.nodes[c].snapshot
    && forall v: nat :: v in members && v < |s.nodes| ==>
         s.nodes[v].term < s2.nodes[v].term == s2.nodes[c].term
         && (v != c ==> s2.nodes[v].role == Follower && s2.nodes[v].log == s.nodes[v].log
                        && s2.nodes[v].snapshot == s.nodes[v].snapshot)
  }

  /** c follows in the highest term, and every member has given it its pre-vote. */
  lemma Prepare(peers: nat, s: System, members: set<nat>, c: nat) returns (s3: System, s5: System)
    requires Reachable(peers, s) && IsMajority(peers, members) && Best(s, members, c)
    ensures OnlyMoved(s, s3, c) && TopTerm(s3, members, c) && Best(s3, members, c)
    ensures Goes(peers, s, members, s5) && Canvassing(s3, s5, c, {c} + (members - {c}))
  {
    var s1 := Yield(peers, s, members, c);
    s3 := LearnAll(peers, s1, members, c, {}, members);
    assert {} + members == members;
    GoesTrans(peers, s, members, s1, s3);
    StillBest(s, s1, s3, members, c);
    s5 := Gather(peers, s3, members, c);
    GoesTrans(peers, s, members, s3, s5);
  }

  lemma StillBest(s: System, s1: System, s3: System, members: set<nat>, c: nat)
    requires OnlyMoved(s, s1, c) && OnlyMoved(s1, s3, c) && Best(s, members, c)
    ensures OnlyMoved(s, s3, c) && Best(s3, members, c)
  {
  }

  lemma Gather(peers: nat, s3: System, members: set<nat>, c: nat) returns (s5: System)
    requires Reachable(peers, s3) && IsMajority(peers, members) && TopTerm(s3, members, c) && Best(s3, members, c)
    requires s3.nodes[c].role != Leader
    ensures Goes(peers, s3, members, s5) && Canvassing(s3, s5, c, {c} + (members - {c}))
  {
    var s4 := Canvass(peers, s3, members, c);
    s5 := CanvassAll(peers, s3, s4, members, c, {c}, members - {c});
    GoesTrans(peers, s3, members, s4, s5);
  }

  /** The members make any one of them leader whose log passes for all. */
  lemma StandingWins(peers: nat, s: System, members: set<nat>, c: nat) returns (s2: System)
    requires Reachable(peers, s) && IsMajority(peers, members) && Best(s, members, c)
    ensures Goes(peers, s, members, s2) && Elected(s, s2, members, c)
  {
    var s3, s5 := Prepare(peers, s, members, c);
    s2 := Crown(peers, s3, s5, members, c);
    GoesTrans(peers, s, members, s5, s2);
    ElectedFrom(s, s3, s2, members, c);
  }

  /** With all pre-votes in, standing and the votes. */
  lemma Crown(peers: nat, s3: System, s5: System, members: set<nat>, c: nat) returns (s2: System)
    requires Reachable(peers, s5) && IsMajority(peers, members) && |s3.nodes| == peers
    requires Canvassing(s3, s5, c, {c} + (members - {c})) && TopTerm(s3, members, c) && Best(s3, members, c)
    ensures Goes(peers, s5, members, s2) && Elected(s3, s2, members, c)
  {
    var t := s5.nodes[c].term + 1;
    SubsetSize(members, s5.nodes[c].preVotes);
    assert Best(s5, members, c);
    var s6 := Stand(peers, s5, members, c);
    s2 := PollAll(peers, s5, s6, members, c, t, {c}, members - {c});
    GoesTrans(peers, s5, members, s6, s2);
    NodeIs(peers, s2, c);
    if s2.nodes[c].role == Candidate { SubsetSize(members, s2.nodes[c].votes); }
  }

  lemma ElectedFrom(s: System, s3: System, s2: System, members: set<nat>, c: nat)
    requires OnlyMoved(s, s3, c) && Elected(s3, s2, members, c)
    ensures Elected(s, s2, members, c)
  {
  }

  /**
   * From every reachable state, in every majority of nodes, there is one that leads after events
   * of the majority alone, whatever terms, roles and votes its members have.
   */
  lemma ElectionIsPossible(peers: nat, events: seq<Event>, members: set<nat>) returns (more: seq<Event>, c: nat)
    requires IsMajority(peers, members)
    ensures By(more, members) && Elected(Run(peers, events), Run(peers, events + more), members, c)
    ensures Best(Run(peers, events), members, c)
  {
    var s := Run(peers, events);
    NodeCountFixed(peers, events);
    assert Reachable(peers, s);
    c := BestExists(s, members);
    var s2 := StandingWins(peers, s, members, c);
    more :| By(more, members) && Play(s, more) == s2;
    RunPlays(peers, events, more);
  }
}
