# A verified model of the Raft key-value store

This project models the replicated key-value store of the repository — the Raft node, the applier with its session
table, the persistence layer, the wire formats, and the linearizability checker that judges recorded histories — and
proves what those parts promise one another.

| part | modules |
|---|---|
| Raft: rules of the critical sections, the cluster and its runs, the inductive invariant, the theorems | `RaftTypes`, `RaftRules`, `RaftSystem`, `RaftInvariant`, `RaftGrowth`, `RaftFrame`, `RaftElections`, `RaftLeaders`, `RaftReplication`, `RaftReads`, `RaftSteps`, `RaftSafety`, `RaftElectionSafety` |
| What a majority can always do, and where commands come from | `RaftPlay`, `RaftElectable`, `RaftAdvance`, `RaftService`, `RaftCommands` |
| The node as a class with the compacted log, compaction, fast backup, the commit pick | `RaftNode`, `Compaction`, `FastBackup`, `OrderStatistics` |
| The order in which a state machine is fed, group commit, crash recovery | `ApplyOrder`, `GroupCommit`, `CrashRecovery` |
| The linearizability checker | `Linearizability`, `LinkedEntries`, `Search`, `Checker`, `Timeline`, `KvModel`, `KvChecker`, `KvTies` |
| The applier: sessions, tombstones, exactly-once execution, snapshots | `Sequences`, `Sessions`, `KvServer`, `ExactlyOnce`, `KvValues`, `KvHistory`, `Forgetting`, `Idling`, `KeyOrder`, `SnapshotLayout`, `KvSnapshot` |
| The segment file | `Pieces`, `SegmentFormat`, `SegmentMirror`, `SegmentLog`, `SegmentRecovery` |
| Checksums and the snapshot file | `Bytes`, `Registers`, `Crc`, `Checksum`, `SnapshotBlob`, `SnapshotFile` |
| Codec, RPC frames | `Codec`, `Messages`, `Frames`, `RpcBodies`, `Wrappers` |

**Runs.** A run of the cluster is any sequence of events over any number of voters. Every critical section under the
node's lock is one event; messages go into a set that only grows, so any of them may be delivered late, repeatedly, out
of order or never. Nodes crash and restart from what they persisted, compact their logs, and leaders step down inside
their term when they lose contact with the quorum. Statements about runs hold between any two moments `i <= j`, each
named by the events before it. The history that the invariant keeps beside the state (who led which term with which
log, who voted for whom, what was confirmed) is ghost.

**Imperative parts.** Where the code changes things in place, the model does too: `RaftNode.RaftNode`,
`Sessions.SessionTable`, `Sessions.Fence`, `KvServer.Server`, `SegmentLog.Store`, `Frames.FrameReader`,
`Codec.Encoder`, `Codec.Decoder` and the checker's linked list are classes, and their methods are proved against
functions about which the theorems speak.

## Model

| member | source | states |
|---|---|---|
| RaftSafety.StateMachineSafety | src/raft/raft.cpp:1689-1870 | In every run, whatever two nodes deliver at the same index, in any incarnation and at any two moments, is the same entry, and it carries that index (section 5.4 of the Raft paper by Ongaro and Ousterhout); crashes, compaction and same-term step-downs included |
| RaftSafety.LogMatching | src/raft/raft.cpp:1031-1107 | Two logs of a run, of any two nodes at any two moments, that hold an entry with the same index and term are equal up to and including it |
| RaftSafety.EntriesFollow | src/raft/raft.cpp:1057-1081 | The entries of every request ever sent in a run follow its previous index one by one, so a follower's loop, which addresses its log by index, never meets a gap |
| RaftSafety.LeaderCompleteness | src/raft/raft.cpp:939-957 | What a node knew committed in term t is a prefix of the log of every leader of a term from t on, at that moment or later |
| RaftSafety.ReadIsFresh | src/raft/raft.cpp:2923-3049 | The read index of a round that its opener finds confirmed, still leading the term, is at least the commit index of every node at every moment up to the call |
| RaftSafety.ReadIndexIsOpeners | src/raft/raft.cpp:2988-3002 | And the index of that round is what its opener had committed when it opened it |
| RaftSafety.WithdrawnNeverLeads | src/raft/raft.cpp:369-391 | A node that is a follower at some moment, its self-vote withdrawn, never is candidate or leader in that same term again |
| RaftSafety.DeliveredFacts | src/raft/raft.cpp:1734-1763 | What a node delivered is entry by entry its own log, numbered from 1, and committed |
| RaftSafety.ConfirmedRoundCovers | src/raft/raft.cpp:2874-2896 | A round that a majority echoed in the leader's term covers every commit that was on record when it opened |
| RaftElectionSafety.OneLeaderPerTerm | src/raft/raft.cpp:662-693 | No two nodes lead the same term at any two moments of a run when no leader stepped down inside its term before, and in any case with an even number of voters or one |
| RaftElectionSafety.SteppingDownElectsTwo | src/raft/raft.cpp:477-489 | For every odd number of voters from three on there is a run in which two different nodes lead term 1: the first steps down inside the term, which clears its vote, and votes for the second |
| RaftElectionSafety.OneLeaderExactly | src/raft/raft.cpp:369-391 | All runs have one leader per term if and only if the number of voters is even or one |
| RaftElectionSafety.SharedVoter | src/raft/raft.cpp:939-957 | The only voter that two leaders of one term can have in common is the earlier of the two leaders itself |
| RaftElectionSafety.VoteSticks | src/raft/raft.cpp:939-957 | A vote for somebody else is never withdrawn while the term lasts |
| RaftElectionSafety.GrantsWereCast | src/raft/raft.cpp:950-957 | Every granted vote found on the network was cast by its sender for its addressee in the term it answers, earlier in the run |
| RaftElectionSafety.KeepsVote | src/raft/raft.cpp:1025-1029 | Without same-term step-downs, a node that led a term keeps its own vote for the rest of that term |
| RaftElectable.ElectionIsPossible | src/raft/raft.cpp:554-768 | From every reachable state, in every majority of nodes there is one that events of the majority alone make leader of a term new to all of them, whatever terms, roles and votes they had; logs stay, but for its no-op |
| RaftElectable.StandingWins | src/raft/raft.cpp:942-957 | And any member will do whose log passes the up-to-date check of all members |
| RaftElectable.UpToDateIsTotal | src/raft/raft.cpp:942-948 | Of any two logs at least one passes for the other, and both do exactly if last term and length are the same |
| RaftElectable.UpToDateIsLexicographic | src/raft/raft.cpp:942-948 | The check orders logs by their last term, and by their length among equals |
| RaftElectable.PreVoteForetells | src/raft/raft.cpp:960-1000 | A pre-vote is granted exactly if the vote would be, in any term new to the voter |
| RaftService.ServiceIsPossible | src/raft/raft.cpp:1201-1291 | From every reachable state, for every majority and every command: a member that is up to date for the others and has compacted nothing is elected, its log with the command at its end reaches every member, is committed and handed to every state machine, and with two voters or more a read that covers it is confirmed, all by events of the majority alone |
| RaftService.ReadsNeedTwo | src/raft/raft.cpp:2874-2896 | A read round is confirmed in some run if and only if there are two voters or more |
| RaftCommands.CommandsWereProposed | src/raft/raft.cpp:1254-1262 | In every run, each client command in any log, and so each one delivered, was proposed before to a leader of the entry's term, whose log the entry continued |
| RaftCommands.ProposalsAreAppended | src/raft/raft.cpp:1254-1262 | In every run, what is proposed to a leader stands at the end of its log right after, with its term and the next index |
| RaftAdvance.EverythingIsDelivered | src/raft/raft.cpp:1734-1853 | From every reachable state, one round for every 128 entries between applied and commit index delivers everything committed, and no less |
| RaftAdvance.ApplyMakesProgress | src/raft/raft.cpp:1741-1745 | A round changes nothing exactly if nothing committed and present is left, and otherwise goes 128 entries on or to the end |
| RaftAdvance.ReplyIsNoted | src/raft/raft.cpp:1656-1671 | In every run, a success is noted in full, and once a quorum is noted to hold an entry of the leader's term its commit index is there |
| RaftElections.UpToDateHas | src/raft/raft.cpp:942-948 | A candidate log that passes the up-to-date check has every entry of the voter's log that can still be chosen |
| RaftElections.WritersRefuse | src/raft/raft.cpp:939-957 | A leader that wrote anything in its term finds no candidate of that term up to date, so a deposed one that grants its vote wrote nothing |
| RaftLeaders.WonBefore | src/raft/raft.cpp:777-790 | A term that was won before is won a second time only with the vote of its former leader, which wrote nothing in it |
| RaftLeaders.WinnerHas | src/raft/raft.cpp:777-790 | Whoever collects a quorum of votes has, in its log, every entry of earlier terms that a quorum may still have confirmed |
| RaftLeaders.SuccessorHas | src/raft/raft.cpp:801-832 | A leader that appended no no-op found its log committed, and then a second winner of its term has that log as a prefix |
| RaftReads.CommitCovers | src/raft/raft.cpp:801-832 | A leader whose commit index reached the safe point fixed at its election knows every commit of its term and all earlier ones |
| RaftReplication.MergeAccepts | src/raft/raft.cpp:1057-1081 | The overwrite loop leaves exactly the leader's log up to the last entry sent, or the log it found; nothing the two logs shared is lost |
| RaftReplication.DeliveredKept | src/raft/raft.cpp:1057-1107 | An accepted AppendEntries never overwrites a delivered entry |
| RaftReplication.PrevAgrees | src/raft/raft.cpp:1469-1476 | The consistency check is sound also for a heartbeat below the leader's snapshot, which names the snapshot's term: where the terms are equal the logs agree up to there |
| RaftReplication.PickIsBacked | src/raft/raft.cpp:1141-1167 | The index picked from the sorted match indexes is in the logs of a quorum in the leader's term |
| OrderStatistics.QuorumPick | src/raft/raft.cpp:1153-1162 | Position size - quorum of the sorted match indexes is the largest index that at least a quorum reached, for every number of voters |
| Compaction.CompactionIsTransparent | src/raft/raft.cpp:1031-1119 | In every run of nodes that compact when they please, a message with entries, or one that does not reach below the snapshot, is accepted or rejected, and changes log and commit index, as if the receiver had compacted nothing |
| Compaction.BlindHeartbeatIsHarmless | src/raft/raft.cpp:1055-1117 | The remaining messages, without entries and below the snapshot, are taken unseen and move neither log nor commit index |
| Compaction.CompactedHandlerRefines | src/raft/raft.cpp:1031-1119 | The same for one handler call, for any sender that agrees with the compacted prefix; a rejection differs only in that its hint never points below the snapshot |
| FastBackup.RejectionLowersNext | src/raft/raft.cpp:1672-1683 | For any leader and follower of any run, with the follower's term at most the leader's: every rejection strictly lowers the sending point, and never to what is known to match or is compacted |
| FastBackup.RejectionsBounded | src/raft/raft.cpp:1033-1053 | While the follower's log stays as it is, the rejections before acceptance, or before the leader reaches its snapshot, number at most the distinct terms in the follower's log plus one |
| FastBackup.AlignedInRun | src/raft/raft.cpp:1650-1655 | In every run the logs of leader and follower are equal up to the leader's match index for it, and up to the follower's snapshot |
| FastBackup.BackupIsTheHandlers | src/raft/raft.cpp:1672-1683 | The rejection test and the next sending point of these results are those of the AppendEntries handler and of the leader's reply handling |
| RaftNode.RaftNode.constructor | src/raft/raft.cpp:236-292 | A new node, sentinel and all, is the fresh node of the cluster model |
| RaftNode.RaftNode.ToFollower | src/raft/raft.cpp:369-391 | Takes the term, follows, and forgets the vote; log and snapshot stay |
| RaftNode.RaftNode.BeginElection | src/raft/raft.cpp:554-619 | On the class's flag vectors and offset log, the timeout has exactly the effect of the cluster rule: withdraw in the term, begin a pre-vote |
| RaftNode.RaftNode.PreVoteReply | src/raft/raft.cpp:627-657 | A pre-vote reply has the effect of the cluster rule: a higher term deposes, a stale round or a repeated voter adds nothing |
| RaftNode.RaftNode.RealElection | src/raft/raft.cpp:662-693 | Standing has the effect of the cluster rule, including a single voter that wins at once |
| RaftNode.RaftNode.VoteReply | src/raft/raft.cpp:738-768 | A vote reply has the effect of the cluster rule, including the step into office |
| RaftNode.RaftNode.TakeOffice | src/raft/raft.cpp:777-846 | Taking office has the effect of the cluster rule: only with a quorum, no-op only on an uncommitted tail, safe point, next and match indexes reset |
| RaftNode.RaftNode.RequestVote | src/raft/raft.cpp:896-958 | State and answer are those of the cluster rule for votes; granted exactly to a voter of a term not behind, with no other vote in it, whose log has the later last term or the same one and is no shorter |
| RaftNode.RaftNode.AppendEntries | src/raft/raft.cpp:1002-1120 | On the offset log behind a sentinel, state and reply are those of the cluster rule on the whole log, and an accepted message raises the commit index to the leader's, as far as its entries go, for every message without a gap in its indexes; others would be pushed to a place that is not theirs |
| RaftNode.RaftNode.ScanConflict | src/raft/raft.cpp:1041-1051 | The scan stops at the start of the run of entries of the conflicting term, or just above the snapshot |
| RaftNode.RaftNode.Overwrite | src/raft/raft.cpp:1057-1081 | The in-place loop, which skips what the snapshot covers, makes of the whole log what the merge of the cluster model makes of it, also for entries that repeat or go back |
| RaftNode.RaftNode.AdvanceCommitIndex | src/raft/raft.cpp:1132-1199 | Commits the picked index if it is new and of the current term, and nothing otherwise |
| RaftNode.RaftNode.AppendReplied | src/raft/raft.cpp:1630-1683 | A reply has the effect of the cluster rule: deposing, stale replies, read acknowledgement, a match index that becomes all that was confirmed and only grows, commit, back-up |
| RaftNode.RaftNode.Start | src/raft/raft.cpp:1201-1291 | The log grows by exactly the command, in the current term at the index returned, if the node leads, and perhaps is committed as the cluster rule says; otherwise nothing changes |
| RaftNode.RaftNode.ApplyCommitted | src/raft/raft.cpp:1734-1853 | One round delivers the entries behind lastApplied up to commit index, log end and 128 entries, in order, and stops there; what a snapshot covers counts as applied without being delivered |
| RaftNode.RaftNode.Snapshot | src/raft/raft.cpp:2026-2084 | A committed index above the snapshot becomes the snapshot, and what is left is a sentinel and the entries behind it; any other index changes nothing; the whole log the class stands for does not change |
| RaftNode.RaftNode.StepDown | src/raft/raft.cpp:477-489 | A leader gives up in its term, and its vote is cleared; nobody else changes |
| RaftNode.RaftNode.BeginRead | src/raft/raft.cpp:2960-3008 | A round opens exactly for a leader past its safe point with no round in flight, at its commit index, with a context never used in this incarnation |
| RaftNode.RaftNode.RecordAck | src/raft/raft.cpp:2874-2896 | An acknowledgement counts once per voter, for the round's context and term only, and completes the round at a majority |
| RaftNode.CountGranted | src/raft/raft.cpp:2785-2787 | The loop counts the voters whose flag is set |
| ApplyOrder.EveryDeliveryInOrder | src/kvraft/server.cpp:597-645 | In every interleaving of overlapping installs, collection and delivery, as long as no paused round overtook a snapshot, every message taken is the next command or a snapshot not older than the state, and the fatal branch is not reached |
| ApplyOrder.ResumeInOrderOnlyIfSafe | src/raft/raft.cpp:1745-1763 | From every state of such a run, going on with a round that paused for a configuration change keeps the feed in order if and only if it does not go past a snapshot waiting to be handed over |
| ApplyOrder.PausedRoundOvertakes | src/raft/raft.cpp:1745-1763 | There is a reachable state in which command 4 is next for a state machine that is at 1, because the snapshot of 3 waits behind it |
| ApplyOrder.EverythingArrivesInRun | src/raft/raft.cpp:1700-1763 | From every state of such a run with no round paused, installs under way, the apply loop and the state machine alone get everything committed taken |
| GroupCommit.ReturnedIsDurable | src/raft/raft.cpp:2515-2586 | Once a caller's version came back in a node that was not killed, the file holds, from then on, the blob registered under that version or a newer one |
| GroupCommit.DiskGoesForward | src/raft/raft.cpp:2579-2584 | The version on disk never goes back, and what a version stands for never changes |
| GroupCommit.RegisteredIsWaitedFor | src/raft/raft.cpp:2530-2545 | The version a caller waits for is the state it registered, however many others register meanwhile |
| GroupCommit.NobodyIsForgotten | src/raft/raft.cpp:2541-2575 | As long as a caller may not return, the flusher has a step to take |
| GroupCommit.EverybodyIsServed | src/raft/raft.cpp:2541-2586 | From every state of a node that was not killed, at most five steps of the flusher let every waiting caller return, with what was registered last on disk |
| CrashRecovery.RecoversExactly | src/raft/raft.cpp:2647-2693 | Start-up finds the newest snapshot and exactly the segment's entries behind it if and only if the files are equally new, nothing follows the snapshot, or the segment starts no later than behind the state's mark |
| CrashRecovery.ReadPersist | src/raft/raft.cpp:2601-2725 | Start-up on the reopened store gives exactly what the recovery function of these results says, and leaves the store a mirror of it |
| CrashRecovery.CrashAnywhere | src/raft/raft.cpp:2601-2725 | After a process crash at any moment of any run whose segment never started behind the state's mark: the newest snapshot and all entries behind it come back, and the snapshot file is never older than the state file |
| CrashRecovery.CrashAfterRestart | src/raft/raft.cpp:2664-2724 | A second crash right after a restart finds the same again if and only if the state file had caught up with the newest snapshot or nothing follows it |
| CrashRecovery.AppendReadsBack | src/persist/log/segment_log_store.cpp:72-90 | After an append the disk reads back exactly if and only if the mirror was not empty, or the state file had caught up, or a newer snapshot covers the entry |
| CrashRecovery.RewriteReadsBack | src/persist/log/segment_log_store.cpp:330-346 | After a rewrite the disk reads back exactly if and only if the state file had caught up with the newest snapshot, or nothing follows it, or the mirror starts no later than behind the state's mark |
| CrashRecovery.SecondCrashLosesEntries | src/raft/raft.cpp:2664-2724 | There is a run in which two entries survive the first crash and not the second |
| CrashRecovery.EarlyAppendIsLost | src/raft/raft.cpp:2100-2108 | There is a run in which an entry appended while a snapshot of the whole log is being persisted is lost by a crash |
| CrashRecovery.EarlyRewriteLosesAnEntry | src/raft/raft.cpp:2100-2108 | There is a run with two overlapping snapshots in which the first one's rewrite leaves a disk that does not read back an entry |
| Checker.CheckSingle | src/kvraft/porcupine.cpp:238-357 | The search ends, and unless killed answers yes if and only if the operations are linearizable in entry order against the model (Herlihy and Wing 1990); any hash, any memo capacity |
| Checker.AfterOK | src/kvraft/porcupine.cpp:293-352 | At every loop head the list is the entries of the operations not taken, the stack is a way to the current state, every call before the cursor is refuted, and every memo entry is a dead end or on the stack |
| Checker.TurnShrinks | src/kvraft/porcupine.cpp:293-352 | Every turn that goes on lowers a natural-number measure: termination |
| Checker.ExhaustedAtReturn | src/kvraft/porcupine.cpp:337-343 | At a return entry, with all calls before it refuted, no order of the remaining operations finishes |
| Checker.Seen | src/kvraft/porcupine.cpp:311-317 | The bucket scan finds an equal configuration if and only if there is one |
| Search.HitRefutes | src/kvraft/porcupine.cpp:307-332 | Skipping a call on a memo hit loses no linearization: what it leads to was searched in vain |
| Search.MemoPop | src/kvraft/porcupine.cpp:344-350 | Backtracking keeps every memo entry justified |
| LinkedEntries.Lift | src/kvraft/porcupine.cpp:119-126 | Takes a call and its return out of the list, whatever stands between or behind them, and leaves in both entries where they were |
| LinkedEntries.Unlift | src/kvraft/porcupine.cpp:128-135 | Restores exactly the list from before the lift |
| Timeline.MakeLinkedEntries | src/kvraft/porcupine.cpp:142-199 | The chained list is a time-sorted arrangement of every operation's call and return, each call paired with its own return, for whatever order the sort gives to equal times |
| Timeline.InsertBefore | src/kvraft/porcupine.cpp:95-107 | Puts the node between the part before the mark and the mark, both ways |
| Timeline.PlacedVerdict | src/kvraft/porcupine.cpp:163-166 | Linearizable by the order of the entries implies linearizable by time; without equal call and return times of two operations the two agree |
| KvChecker.KvPartition | src/kvraft/kv_model.cpp:15-33 | One bucket per key that occurs, no two for the same key, each with the key's operations in order |
| KvChecker.ExactlyOneBucket | src/kvraft/kv_model.cpp:15-33 | Every operation is in exactly one bucket |
| KvChecker.PartitionHistory | src/kvraft/porcupine.cpp:461-484 | The parts are the operations of each bucket, and every key of the history has its part |
| KvChecker.PartsDecide | src/kvraft/porcupine.cpp:461-484 | The history is linearizable against the map of all keys if and only if every key's part is linearizable against the single-key model |
| KvModel.Locality | src/kvraft/kv_model.cpp:14-54 | The same on the whole history, without cutting it up: all keys together can finish if and only if each key's operations can |
| KvChecker.CheckParallel | src/kvraft/porcupine.cpp:362-456 | Ok only if every part is linearizable; Illegal only if some part has a sorted order of its entries in which it is not; Unknown only under a time limit |
| KvChecker.CheckOperations | src/kvraft/porcupine.cpp:491-498 | Ok only for histories linearizable against the map of all keys; Illegal only where a sorted order of some part's entries refutes it, and without ties on one key only for histories that are not linearizable; always an answer without a time limit |
| KvHistory.RecordedIsLinearizable | src/kvraft/kv_model.cpp:37-54 | The map of all keys is the applier's store: any sequence of new Puts and Appends applied and of reads, one after the other, is linearizable if and only if every read answered what the store held for its key then, or the empty value |
| KvChecker.TiesCanMislead | src/kvraft/porcupine.cpp:163-166 | With a tie, a sorted entry order can refute a history that is linearizable by time |
| KvTies.RightExactlyWithoutTies | src/kvraft/porcupine.cpp:163-166 | For any times and keys: some order of equal times refutes a history exactly if it is not linearizable, whatever the operations do and answer, if and only if no operation was issued at the moment another on the same key was answered |
| KvTies.TieMisleads | src/kvraft/porcupine.cpp:163-166 | Any such tie on one key, in a history of any size: there are contents for the operations with which the history is linearizable and a sorted order of the entries refutes it |
| KvTies.AlwaysRefuted | src/kvraft/porcupine.cpp:163-166 | Ties err to one side only: a history that is not linearizable is refuted in every order of equal times |
| Sessions.SessionTable.Get | src/kvraft/server.h:59-64 | Gives the client's number, or 0, and moves the client to the front with the new time; evicts nobody |
| Sessions.SessionTable.Put | src/kvraft/server.h:66-78 | Sets the client's number and brings it to the front, as a new session if need be |
| Sessions.SessionTable.Load | src/kvraft/server.h:82-94 | Puts a new client in front with the given time, or overwrites the one there without moving it |
| Sessions.SessionTable.Reap | src/kvraft/server.h:100-123 | What is left is the front of the list up to the first place that is overdue from the back or over capacity; the others went one by one, the oldest first, each into the tombstones |
| Sessions.SessionTable.Clear | src/kvraft/server.h:125-128 | Leaves no session, and buries nobody |
| Sessions.Fence.Bury | src/kvraft/server.cpp:555-570 | A new tombstone goes to the end and pushes out the first one when over capacity; a known one takes the number without moving |
| Sessions.KeptExactly | src/kvraft/server.h:100-123 | In a list ordered by last use, stopping at the first session that is not overdue is exact: kept are those used no longer than maxIdle before now, with fewer than cap used after them |
| ExactlyOnce.RunOrdered | src/kvraft/server.h:96-101 | In every run over a log of rising indexes the sessions stand in the order of their last use |
| ExactlyOnce.UsedAtLastOperation | src/kvraft/server.h:59-78 | In every run a session's time is the index of its client's last operation, executed or not |
| ExactlyOnce.ReapIsExact | src/kvraft/server.h:100-123 | So in every run the reap evicts exactly the sessions idle too long or over capacity |
| KvServer.Server.Execute | src/kvraft/server.cpp:531-550 | An operation is executed and recorded if its number exceeds the one remembered in session or tombstone, and otherwise only refreshes the session |
| KvServer.Server.Read | src/kvraft/server.cpp:277-288 | A read gives the key's value, or says that there is none |
| KvServer.Server.ApplyOp | src/kvraft/server.cpp:521-589 | One command changes store, sessions and tombstones, and evicts in order, as the state function says; the applied index only goes up |
| KvServer.Server.ApplyAll | src/kvraft/server.cpp:463-591 | A whole log of commands makes of the state the fold of the state function, evicting in order |
| ExactlyOnce.NewestIsLargest | src/kvraft/server.cpp:524-526 | The unbounded model's number for a client is the largest it sent so far, or 0 |
| ExactlyOnce.StoreIsDeduplicatedLog | src/kvraft/server.cpp:521-589 | For any log and any limits, as long as no forgotten client repeats an old number, the store is the deduplicated log applied in order; and the next operation is decided right if and only if it is not such a repetition |
| KvValues.ValueIsConcatenation | src/kvraft/server.cpp:542-547 | In every such run a key's value is the concatenation, in the order of the log, of what was last put and of what was appended since, each operation taken at its first sending; a key nobody wrote is absent |
| ExactlyOnce.DecidedWhileTombsLast | src/kvraft/server.cpp:524-570 | As long as no tombstone was pushed out, the store is the deduplicated log, and an operation executes if and only if its number exceeds all earlier ones of its client |
| ExactlyOnce.RoomForAll | src/kvraft/server.h:334-336 | With a tombstone capacity no smaller than the number of clients, no tombstone is ever pushed out |
| Idling.ForgettingAppendsTwice | src/kvraft/server.cpp:535-541 | For all limits that together stay below 2^31, and any allowed idle time, there is a run in which a client's session and then its tombstone are pushed out by others, and its repeated append is executed a second time |
| Forgetting.ForgetsFromThreshold | src/kvraft/server.cpp:555-570 | In logs too short for a session to idle out, as long as the idle limit admits one of sessions plus tombstones plus two entries: runs over n clients execute an old operation again if and only if n reaches the threshold: one more than the sessions without tombstones, else the larger of tombstones plus one and sessions plus two |
| Idling.ForgetsFromLateThreshold | src/kvraft/server.h:100-123 | In logs of any indexes that fit their 64 bits, the threshold is the number of tombstones plus one, whatever the number of sessions; only without tombstones, and with room for a session, it is two |
| KvSnapshot.EncodeSnapshot | src/kvraft/server.cpp:89-111 | The blob is the encoding of the store in the order of its keys, of the sessions from the oldest on and of the tombstones from the oldest on; any valid server whose parts fit the count fields can take one |
| KvSnapshot.ApplySnapshot | src/kvraft/server.cpp:115-172 | For every blob: accepted exactly if its three lists are readable with no byte left over, and then store, sessions and tombstones are those the lists stand for, whatever was there; otherwise nothing changes |
| SnapshotLayout.SnapshotRoundTrip | src/kvraft/server.cpp:89-172 | A snapshot of s is readable and stands for s: the same store, the same sessions in the same order with their times, the same tombstones in the same order |
| SnapshotLayout.OneSnapshot | src/kvraft/server.cpp:89-111 | Servers in the same state write the same bytes |
| SnapshotLayout.LastPairCounts | src/kvraft/server.cpp:115-172 | Of several pairs with one key in a blob the last one counts |
| SnapshotLayout.LastSessionCounts | src/kvraft/server.cpp:115-172 | Of several sessions of one client in a blob the last one counts |
| SnapshotLayout.FirstTombCounts | src/kvraft/server.cpp:115-172 | Of several tombstones of one client in a blob the first one counts |
| SnapshotLayout.SnapshotEndsThere | src/kvraft/server.cpp:115-160 | A readable blob with further bytes behind it is refused |
| KvSnapshot.CatchUp | src/kvraft/server.cpp:89-172 | A server in any state that restores the snapshot of one that applied a log holds what that log made of the other's state |
| KvSnapshot.Follow | src/kvraft/server.cpp:463-591 | Two servers that hold the same state go through the same log to equal states with equal evictions in equal order |
| KvSnapshot.Lockstep | src/kvraft/server.cpp:89-172 | A restored replica stays in lockstep: after every later log it holds what replaying the whole log gives, and evicted the same sessions in the same order as the one that replayed |
| SegmentLog.Store.Append | src/persist/log/segment_log_store.cpp:73-90 | Refuses exactly an index that does not follow; otherwise the entry is at the end of mirror, offsets and file, and a file whose mirror was empty is started anew |
| SegmentLog.Store.TruncateSuffix | src/persist/log/segment_log_store.cpp:94-114 | Keeps exactly the entries up to the index, in mirror, offsets and file; when none stays, the file is empty |
| SegmentLog.Store.DropPrefix | src/persist/log/segment_log_store.cpp:119-128 | Forgets exactly the entries up to the index; the file, and the offsets into it, stay right |
| SegmentLog.Store.TruncatePrefix | src/persist/log/segment_log_store.cpp:132-136 | Forgets them and rewrites the file, which then holds the mirror alone |
| SegmentLog.Store.RewriteFile | src/persist/log/segment_log_store.cpp:331-346 | From whatever was there, file and offsets become those of the mirror |
| SegmentLog.Store.ResetFromLogs | src/persist/log/segment_log_store.cpp:236-257 | For any log: the mirror becomes the log behind its first entry, or stays as it was where all encodings are the same, and file and offsets are those of the mirror |
| SegmentLog.Store.Rebuild | src/persist/log/segment_log_store.cpp:349-406 | With reads that may fail anywhere: reopening takes the whole records in front, cuts off a torn tail and whatever lies behind a failing read, and aborts exactly on a bad record that is not the tail or on a gap in the indexes |
| SegmentLog.Store.Replay | src/persist/log/segment_log_store.cpp:139-147 | The sentinel and exactly the entries behind the snapshot |
| SegmentRecovery.CutIsRestored | src/persist/log/segment_log_store.cpp:348-406 | On any byte prefix of the file of any contiguous entries, reopening aborts if and only if it reaches a record longer than a reader accepts, and otherwise finds exactly the whole records, with offsets and file that are theirs |
| SegmentFormat.RecordLayout | src/persist/log/segment_log_store.cpp:299-312 | A record is the length of its body, the checksum of its body and the body, in this order |
| SegmentRecovery.TailDecides | src/persist/log/segment_log_store.cpp:356-405 | Whatever follows intact records and is no further one: reopening aborts if and only if it is more than a record cut short, that is, a bad length or a bad checksum with more behind it; otherwise exactly the records stay |
| SegmentRecovery.KeptUpToFault | src/persist/log/segment_log_store.cpp:356-405 | Of an intact file with a read that fails, exactly the records before the first failing read are kept and the others are cut off for good, without aborting |
| SegmentRecovery.ReplayForgets | src/persist/log/segment_log_store.cpp:139-147 | Records the mirror had forgotten but the file still holds are left out again by the snapshot index |
| SegmentRecovery.RaftIsLawful | src/persist/log/segment_log_store.cpp:268-328 | The actual entry encoding and checksum meet what these results ask of a format, for all entries that fit the length fields |
| SegmentRecovery.OversizedIsFatal | src/persist/log/segment_log_store.cpp:362-374 | A file that holds one entry longer than a reader accepts cannot be reopened |
| SegmentRecovery.AppendOversized | src/persist/log/segment_log_store.cpp:73-90 | And nothing refuses such an entry: the store takes it, and reopening what it wrote aborts |
| SegmentRecovery.LongCommandIsOversized | src/persist/log/segment_log_store.cpp:268-277 | Every command longer than 2^28 bytes makes such an entry |
| Crc.RunIsSerial | src/raft/raft.cpp:36-52 | The table-driven checksum is the bit-serial shift register of CRC-32 (section 3.2.9 of IEEE Std 802.3), for any start value and data |
| Crc.UpdateSplits | src/raft/raft.cpp:54-58 | Summing piece by piece is summing the whole |
| Crc.UpdateShows | src/raft/raft.cpp:54-58 | Data that differs in exactly one byte never has the same sum |
| Crc.Residue | src/raft/raft.cpp:54-63 | Any data followed by its own checksum, lowest byte first, has the sum 0x2144DF1C, the residue of CRC-32 |
| Crc.MakeTable | src/raft/raft.cpp:39-48 | The 256 words of the table are eight steps of the register on each byte |
| Crc.Crc32Raw | src/raft/raft.cpp:36-52 | The loop over the table, with its index arithmetic on the word, computes the table-driven run |
| Registers.TableIsSerial | src/raft/raft.cpp:39-51 | For any register whose step splits into a table look-up and a shift, the table-driven run is the bit-serial one |
| Registers.LookupInjective | src/raft/raft.cpp:49-50 | From the new state, the old state and the byte determine each other |
| SnapshotBlob.BlobRoundTrip | src/raft/raft.cpp:1928-1994 | With any 32-bit check, what was stored is loaded if and only if its size fits the header's signed length field, and is reported corrupt otherwise |
| SnapshotBlob.OneByteIsNoticed | src/raft/raft.cpp:1950-1994 | In any readable version 2 or 3 blob, one changed byte behind the magic is reported as corruption, given a check that notices one changed byte |
| SnapshotBlob.OldFormatTrustsItsPayload | src/raft/raft.cpp:1979-1993 | The version 1 format notices no change of its payload |
| SnapshotBlob.OldVersionsLoad | src/raft/raft.cpp:1950-1994 | Blobs of versions 1 and 2 are loaded as they were written, with 32-bit index and term |
| SnapshotBlob.AbsentExactly | src/raft/raft.cpp:1950-1965 | A blob is taken for no snapshot exactly if it is shorter than 20 bytes or does not start with RAFTSNP1, RAFTSNP2 or RAFTSNP3 |
| SnapshotFile.SnapshotComesBack | src/raft/raft.cpp:1928-1994 | The round trip with the actual checksum |
| SnapshotFile.ChangedByteIsCorruption | src/raft/raft.cpp:1950-1994 | One changed byte of a stored snapshot at offset 8 or later is reported as corruption, with the actual checksum |
| SnapshotFile.DecodeSnapshotBlob | src/raft/raft.cpp:1950-1994 | The three-way answer is the specified one: loaded, no snapshot, or corrupt |
| SnapshotFile.EncodeSnapshotBlob | src/raft/raft.cpp:1928-1942 | Header first, checksum streamed over header and payload: the blob is the specified one |
| Codec.VarintRoundTrip | src/labrpc/codec.h:32-94 | For every 64-bit number, reading what was written gives it back and stops right behind it, wherever it stands |
| Codec.ZigzagRoundTrip | src/labrpc/codec.h:43-101 | The same for every signed 64-bit number |
| Codec.BytesRoundTrip | src/labrpc/codec.h:48-110 | The same for every byte string |
| Codec.SelfDelimiting | src/labrpc/codec.h:32-39 | No encoding is a proper prefix of another |
| Codec.VarintDigit | src/labrpc/codec.h:32-39 | Byte i is digit i in base 128, the least first, and all but the last are marked |
| Codec.VarintFails | src/labrpc/codec.h:80-94 | Reading fails exactly if none of the ten bytes that may be there ends the number |
| Codec.ZigzagOrder | src/labrpc/codec.h:43-46 | Signed numbers are numbered by size, each negative one right before its opposite |
| Codec.NarrowIs | src/labrpc/codec.h:112-117 | A 64-bit number read as an int keeps its low 32 bits |
| Codec.BytesAreThere | src/labrpc/codec.h:103-110 | A byte string is read exactly if all the bytes announced are there, and they are it |
| Codec.Encoder.Varint | src/labrpc/codec.h:32-39 | The shift loop appends exactly the field's digits |
| Codec.Decoder.Varint | src/labrpc/codec.h:80-94 | The accumulating loop, with its 64-bit overflow and its failures, reads what the recursive reader reads and stops where it stops |
| Codec.Decoder.Bytes | src/labrpc/codec.h:103-110 | Fails, or gives exactly the announced bytes |
| Messages.ArgsRoundTrip | src/raft/raft.cpp:118-153 | AppendEntries arguments with any number of entries that fits the count field are read back as they were, to the last byte |
| Messages.OpRoundTrip | src/kvraft/common.h:56-70 | A client's operation comes out of the log as it went in |
| Messages.ReplyRoundTrip | src/raft/raft.cpp:155-164 | Every reply to AppendEntries, flag and hint included, is read back as it was sent |
| Messages.ArgsEndThere | src/raft/raft.cpp:134-153 | No accepted request stays accepted with bytes behind it |
| Messages.OpEndsThere | src/kvraft/common.h:56-70 | Nor does an operation |
| Messages.ReplyEndsThere | src/raft/raft.cpp:161-164 | Nor a reply |
| Messages.SerializeArgs | src/raft/raft.cpp:118-132 | The encoder calls produce the fields of the request in order |
| Messages.DeserializeArgs | src/raft/raft.cpp:134-153 | Accepts exactly the buffers the reader accepts, with no byte left over, and gives its arguments |
| Frames.AnyChunking | src/labrpc/epoll/wire.h:171-225 | For any list of bodies and any cutting of their frames into arrivals, polls and limit changes: at every moment the bodies given out are the first ones sent and no byte is lost, and the reader is marked broken if and only if a poll met a body over the limit then in force |
| Frames.NothingHeldBack | src/labrpc/epoll/wire.h:182-203 | When a poll gives nothing, every body whose frame has arrived is out, up to one over the limit in force |
| Frames.AllDelivered | src/labrpc/epoll/wire.h:182-203 | Once all bytes are there and a poll gives nothing, exactly the bodies sent are out, provided no limit was below one of them |
| Frames.FrameLayout | src/labrpc/epoll/wire.h:96-99 | The length stands in front of the body, its bytes from the highest to the lowest |
| Frames.NeverBroken | src/labrpc/epoll/wire.h:182-203 | With limits that no body exceeds the reader is never marked broken |
| RpcBodies.RequestLayout | src/labrpc/epoll/wire.h:85-99 | Where number, lengths, service and arguments stand in a request |
| Frames.FrameReader.Next | src/labrpc/epoll/wire.h:182-203 | On buffer and cursor, takes the first frame of what is pending, waits for it, or marks the reader broken |
| Frames.FrameReader.CompactIfNeeded | src/labrpc/epoll/wire.h:214-219 | Moving the buffer changes nothing that is pending |
| RpcBodies.RequestRoundTrip | src/labrpc/epoll/wire.h:85-139 | A request that fits its length fields is decoded as it was sent |
| RpcBodies.ReplyRoundTrip | src/labrpc/epoll/wire.h:103-155 | So is a reply |

## Findings

Properties that the code does not have, each with an input and with the exact condition under which it holds.

- **Two leaders in one term.** A sitting leader that steps down inside its term clears its vote without raising the
  term (`src/raft/raft.cpp:477-489`), and may then vote for another candidate of that term.
  `RaftElectionSafety.SteppingDownElectsTwo` is a run for every odd number of voters from three on;
  `OneLeaderExactly` says that only an even number of voters, or one, excludes it. The logs stay safe all the same:
  a leader that wrote anything refuses such a vote, so `StateMachineSafety`, `LogMatching`, `LeaderCompleteness` and
  `ReadIsFresh` hold with step-downs.
- **A paused apply round can overtake a snapshot.** The pause for a configuration change checks only the install gate,
  not whether a snapshot waits (`src/raft/raft.cpp:1745-1763`), although the comment above the loop says that the order
  is kept. `ApplyOrder.PausedRoundOvertakes` is reachable; `ResumeInOrderOnlyIfSafe` gives the condition.
- **Entries lost by a second crash, and by an early append or rewrite (file mode).** Start-up adopts a snapshot newer
  than the state file and rewrites the segment behind it, but not the state file; the next start-up then counts from the
  old mark. `CrashRecovery.SecondCrashLosesEntries`, `EarlyAppendIsLost` and `EarlyRewriteLosesAnEntry` are runs;
  `CrashAfterRestart`, `AppendReadsBack` and `RewriteReadsBack` say exactly when it does not happen. The comment at
  `src/persist/log/segment_log_store.cpp:74-78` says that emptying the file loses nothing; it does while the state file
  is behind.
- **A lone voter never confirms a read.** A read round counts its opener when it opens, but asks for a majority only
  when somebody else answers (`src/raft/raft.cpp:2874-2896`), and with one voter nobody does: the read waits until it
  times out. `RaftService.ReadsNeedTwo`: a round is ever confirmed if and only if there are two voters or more.
- **A forgotten client's operation runs twice.** `Idling.ForgettingAppendsTwice`, for all limits;
  `ExactlyOnce.StoreIsDeduplicatedLog` gives the condition for the next operation, and
  `Forgetting.ForgetsFromThreshold` and `Idling.ForgetsFromLateThreshold` how many clients it takes: one more than there
  are tombstones, if sessions may idle out. The comment at `src/kvraft/server.cpp:535-541` calls it impossible in
  practice, on grounds of time that the log does not carry.
- **Equal times can mislead the checker.** Entries are sorted by time alone with an unstable sort, so a return may come
  before the call of an operation that overlaps it by one instant: `KvChecker.TiesCanMislead` is a history of two
  operations, `KvTies.TieMisleads` has one for every history with a tie on one key. `KvTies.RightExactlyWithoutTies` is
  the condition, in terms of times and keys alone: the answer is right for all histories with these if and only if no
  two operations on one key tie. Ties between different keys are harmless.
- **A failing read at start-up destroys entries.** Reopening the segment file takes any read that fails for the end of
  the file and truncates the file there, while a record that was damaged makes it abort:
  `SegmentRecovery.KeptUpToFault` says for every intact file which records stay.
- **Records that can be written but not read.** Append takes entries that Rebuild rejects:
  `SegmentRecovery.AppendOversized`, `OversizedIsFatal`, `LongCommandIsOversized`; `CutIsRestored` says exactly when a
  file is affected. Likewise a snapshot of 2^31 bytes or more is stored and then reported corrupt
  (`SnapshotFile.SnapshotComesBack`).

## Left out

- Timers, random timeouts, wall-clock windows, sockets, epoll, worker threads and the give-up of clients: a timeout is
  an event that may happen at any time. The lease read path is off in the source and not modelled.
- RaftService.ServiceIsPossible: asks for a member that has compacted nothing, because a follower that lacks compacted
  entries needs InstallSnapshot; the election itself (`ElectionIsPossible`) does not ask for it.
- InstallSnapshot inside the protocol runs: the suffix a node keeps is not checked against the snapshot's term, so log
  matching as stated here does not cover it. Nodes of a run compact their own logs; snapshots from a leader appear in the
  apply-order and crash-recovery models.
- Membership change: the voters of a run are fixed. Configuration entries appear in the apply-order model only, for the
  pause they cause; the step-down of a leader that lost its voter role is the step-down event.
- The release of the lock inside RPC handlers in file mode (persisting, waiting for the flusher): in the protocol runs a
  handler is one event. The release is modelled where order depends on it, in `ApplyOrder`, `GroupCommit` and
  `CrashRecovery`.
- Callers that join a read round already broadcast: an acknowledgement may be older than the join, so `ReadIsFresh`
  speaks of the round's opener.
- Early returns of a killed node, refusal of proposals by back-pressure or a full disk: a proposal that is refused is no
  event.
- 64-bit widths of Raft terms and indexes in the protocol (unbounded here); widths are explicit in codec, checksum,
  snapshot file, segment file and exactly-once results.
- Loss of power: a durable write is atomic and survives a process crash; the segment file alone is also studied for
  every torn byte prefix. fsync and its debouncing are not modelled.
- Waiters for applied commands (notification of RPC handlers, two waits sharing an index), the RPC entry check for
  evicted clients, and the trigger that decides when to snapshot.
- Threads of the checker: the parts are searched one after another, a kill flag may be raised at any time; exceptions
  and failure to start threads are not modelled. The bitset of taken operations is a set, and a hash any function of it.
- KvChecker.CheckOperations: does not cover operations whose call time is not below their return time;
  `src/kvraft/porcupine.h:42-44` demands of the caller that it is, and this is the precondition.
- The other RPC messages and the raft state blob use the same codec primitives as AppendEntries, its reply and
  operations; only these three are proved field by field.
- RaftNode.RaftNode.AppendEntries: does not cover a message whose indexes leave a gap. The source pushes such an entry
  to a place that is not its index, and then addresses its log out of bounds; `RaftSafety.EntriesFollow` shows that no
  message of a run leaves one.
- RaftNode.RaftNode.Overwrite: the same.
- Compaction in runs: the application asks for a snapshot of what was applied to it, as the comment at
  `src/raft/raft.cpp:2023-2025` demands; the class itself takes any index.
