/** The values the Raft node works on: log entries, the node's variables, RPC messages. */
module RaftTypes {
  import opened Wrappers

  datatype EntryType = Normal | ConfChange | NoOp

  /** One log entry; confServer and confRole are only meaningful for ConfChange. */
  datatype LogEntry = LogEntry(term: nat, index: nat, command: bytes, kind: EntryType,
                               confServer: int, confRole: int)

  type Log = seq<LogEntry>

  datatype Role = Follower | Candidate | Leader

  /** A read round: done once a majority of voters echoed ctx in this term. */
  datatype ReadRound = ReadRound(ctx: nat, term: nat, readIndex: nat, acked: set<nat>, done: bool)

  /**
   * The variables of one node. The log is held without its sentinel and with its compacted
   * prefix, so the entry with index i is log[i - 1]; of the first snapshot entries the node
   * itself knows no more than the last one's term. delivered is what the state machine got:
   * the snapshot the process started from, and what ApplyLoop pushed since.
   */
  datatype Node = Node(
    me: nat,
    peers: nat,
    role: Role,
    term: nat,
    votedFor: Option<nat>,
    log: Log,
    snapshot: nat,
    commit: nat,
    applied: nat,
    delivered: Log,
    preVotes: set<nat>,
    mayRun: bool,
    votes: set<nat>,
    next: seq<nat>,
    matched: seq<nat>,
    readSafe: nat,
    round: Option<ReadRound>,
    nextCtx: nat
  )

  /** Replies carry the fields of the request they answer, as the reply callback captures them. */
  datatype Msg =
    | PreVoteReq(src: nat, dst: nat, term: nat, lastIndex: nat, lastTerm: nat)
    | PreVoteResp(src: nat, dst: nat, reqTerm: nat, term: nat, granted: bool)
    | VoteReq(src: nat, dst: nat, term: nat, lastIndex: nat, lastTerm: nat)
    | VoteResp(src: nat, dst: nat, reqTerm: nat, term: nat, granted: bool)
    | AppendReq(src: nat, dst: nat, term: nat, prevIndex: nat, prevTerm: nat, entries: Log,
                leaderCommit: nat, ctx: nat)
    | AppendResp(src: nat, dst: nat, reqTerm: nat, prevIndex: nat, count: nat, term: nat,
                 success: bool, nextIndex: nat, ctx: nat)

  /** IsVoter holds of every peer: the voter set is fixed. */
  function Quorum(peers: nat): nat {
    peers / 2 + 1
  }

  function TermAt(log: Log, i: nat): nat
    requires i <= |log|
  {
    if i == 0 then 0 else log[i - 1].term
  }

  function LastTerm(log: Log): nat {
    TermAt(log, |log|)
  }
}
