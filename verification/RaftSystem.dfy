/**
 * The cluster: nodes plus the set of every message ever sent. A message may be
 * delivered any number of times, in any order, or never; each critical section of a
 * node is one event.
 */
module RaftSystem {
  import opened Wrappers
  import opened RaftTypes
  import opened RaftRules
  import opened OrderStatistics

  datatype System = System(nodes: seq<Node>, net: set<Msg>)

  datatype Event =
    | ElectionTimeout(n: nat)
    | RealElection(n: nat)
    | SendVotes(n: nat)
    | SendAppend(n: nat, d: nat, retry: bool, withLog: bool, count: nat)
    | ReadHeartbeat(n: nat)
    | ClientProposal(n: nat, command: bytes)
    | Apply(n: nat)
    | Compact(n: nat, index: nat)
    | CrashRestart(n: nat)
    | StepDown(n: nat)
    | ReadOpen(n: nat)
    | ReadClose(n: nat)
    | Deliver(n: nat, m: Msg)

  function Initial(peers: nat): System {
    System(seq(peers, i requires 0 <= i < peers => Fresh(i, peers)), {})
  }

  predicate Shaped(nd: Node) {
    |nd.matched| == |nd.next| == nd.peers && nd.snapshot <= |nd.log|
  }

  /** Everybody else: the recipients of a broadcast. */
  function Others(nd: Node): (r: set<nat>)
    ensures forall d: nat :: d in r <==> d < nd.peers && d != nd.me
  {
    BelowIsRange(nd.peers);
    Below(nd.peers) - {nd.me}
  }

  function LiveCtx(nd: Node): nat {
    if nd.round.Some? && !nd.round.value.done && nd.round.value.term == nd.term then nd.round.value.ctx else 0
  }

  /**
   * ReplicateLoop sends from next[d], or from matched[d] + 1 on a retry; a batch may be
   * cut short anywhere by the entry and byte caps, and a plain heartbeat carries none. A
   * leader that has compacted what the follower lacks sends heartbeats only, and for the entry
   * before them names its snapshot's term.
   */
  function SendAppendStep(nd: Node, d: nat, retry: bool, withLog: bool, count: nat): (r: (Node, set<Msg>))
    requires Shaped(nd)
  {
    if nd.role != Leader || d >= nd.peers || d == nd.me then (nd, {})
    else
      var from := Max(1, if retry then nd.matched[d] + 1 else nd.next[d]);
      var prev := from - 1;
      if prev > |nd.log| then (nd, {})
      else
        var entries := if withLog && prev >= nd.snapshot then nd.log[prev..Min(|nd.log|, prev + count)] else [];
        var prevTerm := TermAt(nd.log, Max(prev, nd.snapshot));
        var m := AppendReq(nd.me, d, nd.term, prev, prevTerm, entries, nd.commit, LiveCtx(nd));
        (if withLog && prev >= nd.snapshot then nd.(next := nd.next[d := prev + |entries| + 1]) else nd, {m})
  }

  /** What node nd does on event e: its new variables and the messages it sends. */
  function NodeStep(nd: Node, e: Event): (r: (Node, set<Msg>))
    requires Shaped(nd)
  {
    match e
    case ElectionTimeout(_) =>
      var n1 := StartElection(nd);
      (n1, if nd.role == Leader then {} else
        set d | d in Others(nd) :: PreVoteReq(nd.me, d, n1.term, |n1.log|, LastTerm(n1.log)))
    case RealElection(_) => (if nd.mayRun then StartRealElection(nd) else nd, {})
    case SendVotes(_) =>
      (nd, if nd.role != Candidate then {} else
        set d | d in Others(nd) :: VoteReq(nd.me, d, nd.term, |nd.log|, LastTerm(nd.log)))
    case SendAppend(_, d, retry, withLog, count) => SendAppendStep(nd, d, retry, withLog, count)
    case ReadHeartbeat(_) =>
      (nd, if nd.role != Leader then {} else
        set d | d in Others(nd) ::
          AppendReq(nd.me, d, nd.term, |nd.log|, LastTerm(nd.log), [], nd.commit, LiveCtx(nd)))
    case ClientProposal(_, command) => (Propose(nd, command), {})
    case Apply(_) => (ApplyBatch(nd), {})
    case Compact(_, index) => (if index <= nd.applied then TakeSnapshot(nd, index) else nd, {})
    case CrashRestart(_) => (Restart(nd), {})
    case StepDown(_) => (GiveUp(nd), {})
    case ReadOpen(_) => (OpenRead(nd), {})
    case ReadClose(_) => (CloseRead(nd), {})
    case Deliver(_, m) => if m.dst != nd.me then (nd, {}) else Receive(nd, m)
  }

  function Receive(nd: Node, m: Msg): (r: (Node, set<Msg>))
    requires Shaped(nd)
  {
    match m
    case PreVoteReq(src, _, term, lastIndex, lastTerm) =>
      (nd, {PreVoteResp(nd.me, src, term, nd.term, HandlePreVote(nd, src, lastIndex, lastTerm))})
    case PreVoteResp(src, _, reqTerm, term, granted) => (OnPreVoteReply(nd, src, reqTerm, term, granted), {})
    case VoteReq(src, _, term, lastIndex, lastTerm) =>
      var (n1, granted) := HandleVote(nd, src, term, lastIndex, lastTerm);
      (n1, {VoteResp(nd.me, src, term, n1.term, granted)})
    case VoteResp(src, _, reqTerm, term, granted) => (OnVoteReply(nd, src, reqTerm, term, granted), {})
    case AppendReq(src, _, term, prevIndex, prevTerm, entries, leaderCommit, ctx) =>
      var (n1, reply) := HandleAppend(nd, term, prevIndex, prevTerm, entries, leaderCommit, ctx);
      (n1, {AppendResp(nd.me, src, term, prevIndex, |entries|, reply.term, reply.success, reply.nextIndex, reply.ctx)})
    case AppendResp(src, _, reqTerm, prevIndex, count, term, success, nextIndex, ctx) =>
      (OnAppendReply(nd, src, reqTerm, prevIndex, count, term, success, nextIndex, ctx), {})
  }

  predicate Enabled(s: System, e: Event) {
    e.n < |s.nodes| && Shaped(s.nodes[e.n]) && (e.Deliver? ==> e.m in s.net)
  }

  function Step(s: System, e: Event): System {
    if Enabled(s, e) then
      var (nd, out) := NodeStep(s.nodes[e.n], e);
      System(s.nodes[e.n := nd], s.net + out)
    else s
  }

  /** The state after a run. */
  function Run(peers: nat, events: seq<Event>): System {
    if events == [] then Initial(peers)
    else Step(Run(peers, events[..|events| - 1]), events[|events| - 1])
  }
}
