/**
 * The inductive invariant behind log matching, leader completeness, state machine safety and
 * fresh reads. A History records what the cluster did so far; no node ever reads it. A leader
 * that steps down inside its term may have a successor in the same term, so a term has a log,
 * but not always a single leader. HistoryOK, NodeOK and Extends are stated over a bound
 * variable, which lets them pass from lemma to lemma as one fact.
 */
module RaftInvariant {
  import opened Wrappers
  import opened RaftTypes
  import opened RaftSystem

  /** What happened in a term that elected a leader: who led, who voted, the leader's log. */
  datatype Reign = Reign(leader: nat, voters: set<nat>, inherited: nat, log: Log)

  datatype Vote = Vote(voter: nat, term: nat, cand: nat)

  /** A read round, named by the leader that opened it. */
  datatype RoundId = RoundId(node: nat, term: nat, ctx: nat)

  /** A read round when it opened: the nodes' terms, and what each leader had committed. */
  datatype Opening = Opening(terms: seq<nat>, committed: map<nat, nat>, readIndex: nat)

  /**
   * reigns: the elected terms, each with its latest leader. candLogs[(t, c)]: the log c stood with in term t.
   * acked[(v, t)]: how far v confirmed the log of the leader of term t.
   * committed[t]: how far the leader of term t advanced its commit index by quorum.
   */
  datatype History = History(
    reigns: map<nat, Reign>,
    candLogs: map<(nat, nat), Log>,
    votes: set<Vote>,
    acked: map<(nat, nat), nat>,
    committed: map<nat, nat>,
    openings: map<RoundId, Opening>
  )

  const NOTHING := History(map[], map[], {}, map[], map[], map[])

  ghost function Acked(h: History, v: nat, t: nat): nat {
    if (v, t) in h.acked then h.acked[(v, t)] else 0
  }

  // ------------------------------------------------------------------- logs

  ghost predicate Has(log: Log, other: Log, n: nat) {
    n <= |log| && n <= |other| && log[..n] == other[..n]
  }

  /** Entry i of log, with everything before it, is what the leader of its term had there. */
  ghost predicate FromLeader(h: History, log: Log, i: nat)
    requires i < |log|
  {
    log[i].term in h.reigns && Has(log, h.reigns[log[i].term].log, i + 1)
  }

  ghost predicate Grounded(h: History, log: Log) {
    forall i: nat :: i < |log| ==> FromLeader(h, log, i)
  }

  ghost predicate TermsUpTo(log: Log, t: nat) {
    forall i :: 0 <= i < |log| ==> log[i].term <= t
  }

  ghost predicate NumberedAndOrdered(log: Log) {
    (forall i :: 0 <= i < |log| ==> log[i].index == i + 1 && log[i].term >= 1)
    && (forall i, j :: 0 <= i <= j < |log| ==> log[i].term <= log[j].term)
  }

  ghost predicate OwnEntry(h: History, t: nat, n: nat) {
    t in h.reigns && 1 <= n <= |h.reigns[t].log| && h.reigns[t].log[n - 1].term == t
  }

  /** The first c entries of log were committed by a leader of a term up to t. */
  ghost predicate CommitBacked(h: History, log: Log, c: nat, t: nat) {
    c <= |log| && (c == 0 || exists tau :: BackedBy(h, log, c, t, tau))
  }

  ghost predicate BackedBy(h: History, log: Log, c: nat, t: nat, tau: nat) {
    tau <= t && tau in h.committed && tau in h.reigns && c <= h.committed[tau]
    && Has(log, h.reigns[tau].log, c)
  }

  // ---------------------------------------------------------------- history

  /**
   * A leader that wrote entries in its term keeps its vote for good; one that wrote none found
   * its whole log committed.
   */
  ghost predicate ReignOK(h: History, peers: nat, t: nat)
    requires t in h.reigns
  {
    var r := h.reigns[t];
    t >= 1 && r.leader < peers
    && (forall v :: v in r.voters ==> v < peers && Vote(v, t, r.leader) in h.votes)
    && |r.voters| >= Quorum(peers)
    && (r.inherited < |r.log| ==> forall c: nat :: Vote(r.leader, t, c) in h.votes ==> c == r.leader)
    && (r.inherited == |r.log| ==> CommitBacked(h, r.log, |r.log|, t))
    && Grounded(h, r.log) && TermsUpTo(r.log, t) && NumberedAndOrdered(r.log)
    && r.inherited <= |r.log|
    && (forall i :: 0 <= i < |r.log| ==> (i < r.inherited <==> r.log[i].term < t))
  }

  ghost predicate CandOK(h: History, t: nat, c: nat)
    requires (t, c) in h.candLogs
  {
    t >= 1 && Grounded(h, h.candLogs[(t, c)]) && TermsUpTo(h.candLogs[(t, c)], t - 1)
  }

  ghost predicate VoteOK(h: History, peers: nat, v: Vote) {
    v.voter < peers && (v.term, v.cand) in h.candLogs
  }

  /** A node's votes for others in one term are for one candidate. */
  ghost predicate OneGrant(h: History) {
    forall a, b ::
      a in h.votes && b in h.votes && a.voter == b.voter && a.term == b.term
      && a.cand != a.voter && b.cand != b.voter
      ==> a.cand == b.cand
  }

  ghost predicate AckOK(h: History, peers: nat, v: nat, t: nat)
    requires (v, t) in h.acked
  {
    v < peers && t in h.reigns && h.acked[(v, t)] <= |h.reigns[t].log|
  }

  ghost function Backers(h: History, peers: nat, t: nat, n: nat): set<nat> {
    set v: nat | v < peers && Acked(h, v, t) >= n
  }

  ghost predicate CommittedOK(h: History, peers: nat, t: nat)
    requires t in h.committed
  {
    OwnEntry(h, t, h.committed[t]) && |Backers(h, peers, t, h.committed[t])| >= Quorum(peers)
  }

  ghost predicate ReignsOK(h: History, peers: nat) {
    forall t :: t in h.reigns ==> ReignOK(h, peers, t)
  }

  ghost predicate CandsOK(h: History) {
    forall t, c :: (t, c) in h.candLogs ==> CandOK(h, t, c)
  }

  ghost predicate VotesOK(h: History, peers: nat) {
    forall v :: v in h.votes ==> VoteOK(h, peers, v)
  }

  ghost predicate AcksOK(h: History, peers: nat) {
    forall v, t :: (v, t) in h.acked ==> AckOK(h, peers, v, t)
  }

  ghost predicate CommitsOK(h: History, peers: nat) {
    forall t :: t in h.committed ==> CommittedOK(h, peers, t)
  }

  ghost predicate HistoryOK(h: History, peers: nat) {
    exists n: nat :: n == peers && HistoryFits(h, n)
  }

  ghost predicate HistoryFits(h: History, peers: nat) {
    ReignsOK(h, peers) && CandsOK(h) && VotesOK(h, peers) && OneGrant(h) && AcksOK(h, peers) && CommitsOK(h, peers)
  }

  // ------------------------------------------------------------------- nodes

  ghost predicate TermsCover(h: History, i: nat, term: nat) {
    (forall t: nat, c: nat :: Vote(i, t, c) in h.votes ==> t <= term)
    && (forall t :: (t, i) in h.candLogs ==> t <= term)
    && (forall t :: t in h.reigns && h.reigns[t].leader == i ==> t <= term)
    && (forall t :: (i, t) in h.acked ==> t <= term)
    && (forall t: nat, ctx: nat :: RoundId(i, t, ctx) in h.openings ==> t <= term)
  }

  ghost predicate CandidateOK(h: History, i: nat, nd: Node) {
    nd.votedFor == Some(i)
    && (nd.term, i) in h.candLogs && h.candLogs[(nd.term, i)] == nd.log
    && (forall v :: v in nd.votes ==> v < nd.peers && Vote(v, nd.term, i) in h.votes)
    && Vote(i, nd.term, i) in h.votes
    && (i, nd.term) !in h.acked && forall ctx: nat :: RoundId(i, nd.term, ctx) !in h.openings
  }

  ghost predicate LeaderOK(h: History, i: nat, nd: Node) {
    nd.votedFor == Some(i)
    && nd.term in h.reigns && h.reigns[nd.term].leader == i && h.reigns[nd.term].log == nd.log
    && Acked(h, i, nd.term) == |nd.log|
    && (nd.term in h.committed ==> h.committed[nd.term] <= nd.commit)
    && nd.readSafe >= h.reigns[nd.term].inherited
    && (forall j :: 0 <= j < |nd.matched| ==> nd.matched[j] <= Acked(h, j, nd.term))
    && (forall j :: 0 <= j < |nd.next| ==> 1 <= nd.next[j] <= |nd.log| + 1)
    && (forall ctx: nat :: RoundId(i, nd.term, ctx) in h.openings ==> ctx < nd.nextCtx)
    && (nd.round.Some? && nd.round.value.term == nd.term ==> RoundOK(h, i, nd, nd.round.value))
  }

  /** Everyone counted by the round was at most in this term when the round opened. */
  ghost predicate RoundOK(h: History, i: nat, nd: Node, r: ReadRound) {
    var id := RoundId(i, nd.term, r.ctx);
    id in h.openings && h.openings[id].readIndex == r.readIndex
    && (forall v :: v in r.acked ==>
          v < nd.peers && v < |h.openings[id].terms| && h.openings[id].terms[v] <= nd.term)
    && (r.done ==> |r.acked| >= Quorum(nd.peers))
  }

  ghost predicate NodeShape(i: nat, nd: Node, peers: nat) {
    nd.me == i && nd.peers == peers && |nd.next| == |nd.matched| == peers && nd.nextCtx >= 1
  }

  ghost predicate NodeLog(h: History, nd: Node) {
    Grounded(h, nd.log) && TermsUpTo(nd.log, nd.term) && NumberedAndOrdered(nd.log)
    && CommitBacked(h, nd.log, nd.commit, nd.term)
    && nd.snapshot <= nd.applied <= nd.commit && nd.delivered == nd.log[..nd.applied]
  }

  ghost predicate NodeVote(h: History, i: nat, nd: Node) {
    TermsCover(h, i, nd.term)
    && (forall c: nat :: c != i && Vote(i, nd.term, c) in h.votes ==> nd.votedFor == Some(c))
    && (nd.term in h.reigns && h.reigns[nd.term].leader == i ==>
          nd.role != Candidate && nd.log == h.reigns[nd.term].log)
  }

  ghost predicate NodeRole(h: History, i: nat, nd: Node) {
    (nd.round.Some? ==> nd.round.value.term <= nd.term)
    && (nd.round.Some? && nd.role == Candidate ==> nd.round.value.term < nd.term)
    && (nd.role == Candidate ==> CandidateOK(h, i, nd))
    && (nd.role == Leader ==> LeaderOK(h, i, nd))
  }

  /** What a node confirmed to the leader of its term is in its log. */
  ghost predicate NodeHolds(h: History, i: nat, nd: Node) {
    HoldsOf(h, nd.log, nd.term, Acked(h, i, nd.term))
  }

  ghost predicate HoldsOf(h: History, log: Log, t: nat, n: nat) {
    if t in h.reigns then Has(log, h.reigns[t].log, n) else n == 0
  }

  ghost predicate NodeOK(h: History, i: nat, nd: Node, peers: nat) {
    exists n: nat :: n == peers && NodeFits(h, i, nd, n)
  }

  ghost predicate NodeFits(h: History, i: nat, nd: Node, peers: nat) {
    NodeShape(i, nd, peers) && NodeLog(h, nd) && NodeVote(h, i, nd) && NodeRole(h, i, nd) && NodeHolds(h, i, nd)
  }

  // ---------------------------------------------------------------- messages

  ghost predicate MsgOK(h: History, m: Msg, peers: nat) {
    match m
    case PreVoteReq(_, _, _, _, _) => true
    case PreVoteResp(_, _, _, _, _) => true
    case VoteReq(src, dst, term, lastIndex, lastTerm) =>
      src != dst && (term, src) in h.candLogs && lastIndex == |h.candLogs[(term, src)]|
      && lastTerm == LastTerm(h.candLogs[(term, src)])
    case VoteResp(src, dst, reqTerm, term, granted) =>
      src < peers && (granted ==> Vote(src, reqTerm, dst) in h.votes)
    case AppendReq(src, dst, term, prevIndex, prevTerm, entries, leaderCommit, ctx) =>
      term in h.reigns
      && SliceOf(h.reigns[term].log, prevIndex, entries) && PrevFits(h.reigns[term].log, prevIndex, prevTerm, entries)
      && CommitBacked(h, h.reigns[term].log, leaderCommit, term)
      && (ctx != 0 ==> RoundId(src, term, ctx) in h.openings)
    case AppendResp(src, dst, reqTerm, prevIndex, count, term, success, nextIndex, ctx) =>
      reqTerm in h.reigns && nextIndex <= prevIndex + 1 && prevIndex <= |h.reigns[reqTerm].log|
      && (success ==> prevIndex + count <= Acked(h, src, reqTerm))
      && (ctx != 0 && term <= reqTerm ==>
            RoundId(dst, reqTerm, ctx) in h.openings && src < |h.openings[RoundId(dst, reqTerm, ctx)].terms|
            && h.openings[RoundId(dst, reqTerm, ctx)].terms[src] <= reqTerm)
  }

  ghost predicate SliceOf(log: Log, prevIndex: nat, entries: Log) {
    prevIndex + |entries| <= |log| && entries == log[prevIndex..prevIndex + |entries|]
  }

  /** The term named for the entry before: its own, or without entries that of a later one. */
  ghost predicate PrevFits(log: Log, prevIndex: nat, prevTerm: nat, entries: Log) {
    exists k: nat :: prevIndex <= k <= |log| && prevTerm == TermAt(log, k) && (entries != [] ==> k == prevIndex)
  }

  // ------------------------------------------------------------ completeness

  /** The nodes that confirmed entry n of term t, or still might. */
  ghost function Supporters(h: History, terms: seq<nat>, t: nat, n: nat): set<nat> {
    set v: nat | v < |terms| && (terms[v] <= t || Acked(h, v, t) >= n)
  }

  ghost predicate Choosable(h: History, terms: seq<nat>, t: nat, n: nat) {
    |Supporters(h, terms, t, n)| >= Quorum(|terms|)
  }

  ghost predicate LeadersKeep(h: History, terms: seq<nat>) {
    forall t: nat, n: nat, t2: nat ::
      OwnEntry(h, t, n) && t < t2 && t2 in h.reigns && Choosable(h, terms, t, n)
      ==> Has(h.reigns[t2].log, h.reigns[t].log, n)
  }

  /** What a voter had confirmed when it voted is in the log it voted for. */
  ghost predicate VoteKeeps(h: History, terms: seq<nat>, v: Vote) {
    VoteOK(h, |terms|, v) &&
    forall t: nat, n: nat ::
      OwnEntry(h, t, n) && t < v.term && Acked(h, v.voter, t) >= n && Choosable(h, terms, t, n)
      ==> Has(h.candLogs[(v.term, v.cand)], h.reigns[t].log, n)
  }

  ghost predicate VotesKeep(h: History, terms: seq<nat>) {
    forall v :: v in h.votes ==> VoteKeeps(h, terms, v)
  }

  ghost predicate LogKeeps(h: History, terms: seq<nat>, i: nat, log: Log) {
    forall t: nat, n: nat ::
      OwnEntry(h, t, n) && Acked(h, i, t) >= n && Choosable(h, terms, t, n)
      ==> Has(log, h.reigns[t].log, n)
  }

  ghost predicate OpeningOK(h: History, terms: seq<nat>, id: RoundId)
    requires id in h.openings
  {
    var o := h.openings[id];
    |o.terms| == |terms|
    && (forall v :: 0 <= v < |terms| ==> o.terms[v] <= terms[v])
    && (forall tau :: tau in o.committed ==> tau in h.reigns && tau in h.committed
                                              && o.committed[tau] <= h.committed[tau])
    && (forall tau :: tau in o.committed && tau <= id.term ==> o.committed[tau] <= o.readIndex)
    && (forall tau :: tau in o.committed ==>
          forall v :: v in h.reigns[tau].voters ==> v < |terms| && o.terms[v] >= tau)
  }

  ghost predicate OpeningsOK(h: History, terms: seq<nat>) {
    forall id :: id in h.openings ==> id.ctx >= 1 && id.term in h.reigns && OpeningOK(h, terms, id)
  }

  ghost function Terms(nodes: seq<Node>): (r: seq<nat>)
    ensures |r| == |nodes|
    ensures forall i :: 0 <= i < |nodes| ==> r[i] == nodes[i].term
  {
    seq(|nodes|, i requires 0 <= i < |nodes| => nodes[i].term)
  }

  ghost predicate NodesOK(h: History, nodes: seq<Node>) {
    forall i: nat :: i < |nodes| ==> NodeOK(h, i, nodes[i], |nodes|)
  }

  ghost predicate NetOK(h: History, net: set<Msg>, peers: nat) {
    forall m :: m in net ==> MsgOK(h, m, peers)
  }

  ghost predicate LogsKeep(h: History, terms: seq<nat>, nodes: seq<Node>) {
    forall i: nat :: i < |nodes| ==> LogKeeps(h, terms, i, nodes[i].log)
  }

  ghost predicate Inv(s: System, h: History) {
    exists terms: seq<nat> :: InvAt(s, h, terms)
  }

  ghost predicate InvAt(s: System, h: History, terms: seq<nat>) {
    terms == Terms(s.nodes)
    && HistoryOK(h, |s.nodes|) && NodesOK(h, s.nodes) && NetOK(h, s.net, |s.nodes|)
    && LeadersKeep(h, terms) && VotesKeep(h, terms)
    && LogsKeep(h, terms, s.nodes) && OpeningsOK(h, terms)
  }

  // ------------------------------------------------------------------ growth

  /** Node i voted for somebody else in term t. */
  ghost predicate VotedAway(h: History, i: nat, t: nat) {
    exists c: nat :: c != i && Vote(i, t, c) in h.votes
  }

  /** A term's log only gets longer; its leader may have a successor once it voted for somebody else. */
  ghost predicate ReignGrew(h: History, k: History, t: nat)
    requires t in h.reigns
  {
    t in k.reigns && h.reigns[t].log <= k.reigns[t].log
    && (k.reigns[t].leader != h.reigns[t].leader ==> VotedAway(k, h.reigns[t].leader, t))
    && (t in h.committed ==> k.reigns[t].voters == h.reigns[t].voters)
  }

  /** History only grows. */
  ghost predicate Extends(h: History, k: History) {
    exists votes: set<Vote> :: votes == h.votes && ExtendsOver(h, k, votes)
  }

  ghost predicate ExtendsOver(h: History, k: History, votes: set<Vote>) {
    (forall t :: t in h.reigns ==> ReignGrew(h, k, t))
    && (forall c :: c in h.candLogs ==> c in k.candLogs && k.candLogs[c] == h.candLogs[c])
    && votes <= k.votes
    && (forall a :: a in h.acked ==> a in k.acked && h.acked[a] <= k.acked[a])
    && (forall t :: t in h.committed ==> t in k.committed && h.committed[t] <= k.committed[t])
    && (forall o :: o in h.openings ==> o in k.openings && k.openings[o] == h.openings[o])
  }

  /** Only node i acted between h and k. */
  ghost predicate OnlyBy(h: History, k: History, i: nat) {
    (forall t :: t in k.reigns && k.reigns[t].leader != i ==> t in h.reigns && h.reigns[t] == k.reigns[t])
    && (forall t, c :: (t, c) in k.candLogs && c != i ==> (t, c) in h.candLogs)
    && (forall v :: v in k.votes && v.voter != i ==> v in h.votes)
    && (forall v, t :: (v, t) in k.acked && v != i ==> (v, t) in h.acked && h.acked[(v, t)] == k.acked[(v, t)])
    && (forall t :: t in k.committed && (t !in k.reigns || k.reigns[t].leader != i) ==>
          t in h.committed && h.committed[t] == k.committed[t])
    && (forall id :: id in k.openings && id.node != i ==> id in h.openings)
  }
}
