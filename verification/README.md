# belcoin: the Raft engine, the ledger and what they stand on

belcoin is an experimental currency with micropayment channels whose nodes agree
on blocks by a modified Raft library. This project models both halves, and five
smaller parts they rely on, and proves what each of them is for.

* **Raft** (`Raft*.dfy`, `Cluster*.dfy`). `RaftProtocol` and `RaftClient` say what
  every handler does to the fields of a node; `RaftNode` is the node as an object
  whose methods and loops are proved to do exactly that. `RaftSystem` runs a fixed
  set of nodes over a network that may lose and reorder messages but does not
  duplicate them, with history variables for votes, elections, the log of every
  term's leader and what was applied. `RaftElection`, `RaftLog` and `RaftApply` hold
  the invariants and the theorems about all runs; `RaftBallot` says what wins an
  election, `RaftCommit` what stands behind a commit, `RaftRepair` when a follower
  catches up. `ClusterSystem`, `ClusterProofs` and `ClusterResults` add clients,
  forwarding and callbacks, `RaftCalls` and `ClusterCalls` who is told what,
  `RaftLoss` and `ClusterLoss` what becomes of a callback; and `RaftPair`,
  `RaftWitness`, `ClusterWitness`, `RaftScenes` and `RaftStuck` build three runs that
  show what goes wrong. The engine differs from
  the published algorithm (Ongaro and Ousterhout, 2014): votes are a bare counter, a
  follower drops everything behind prevLogIdx on every accepted append, it reports
  one index less than it holds, and the commit index is overwritten, not raised. The
  theorems are about this engine.
* **Ledger** (`Ledger*.dfy`). `LedgerRules` says when a transaction is accepted and
  what accepting, reserving, replacing, promoting and expiring do to the two tables
  and the two indexes; `LedgerStorage` is the storage as an object whose methods are
  proved to do that, and whose state is always the end of a run in the sense of
  `LedgerRuns`. The theorems about runs (one taker per outpoint, exact indexes,
  conservation, life cycle, signatures, promotion, order independence, balances) are in
  the remaining modules; `LedgerWitness` holds inputs on which two promises fail.
* **Journal** (`Bytes`, `JournalFormat`, `Journal`): the byte-level log file refines
  the list in memory, and can be reopened after a stop between any two writes.
* **Framing** (`FramingFormat`, `Framing`): length-prefixed messages over partial
  reads and writes.
* **Transfer** (`Transfer`, `TransferLatest`): snapshots sent chunk by chunk.
* **Membership**: cluster changes applied when logged and rolled back when cut.
* **Lease**: the replicated lock manager.

Where a promise does not hold of the code, the code is modelled as it is. A member
gives an input that shows it, and another says exactly when the promise holds:

| promise | input that breaks it | when it holds |
|---|---|---|
| every index is applied once, in order | `RaftWitness.AppliesTwice` | `RaftApply.AppliesConsecutively` |
| a leader brings every follower to its log | `RaftStuck.NeverCatchesUp` | `RaftRepair.CatchesUpIff` |
| a callback is kept until it is called | `ClusterWitness.AppliedAnswerLosesCallback` | `ClusterLoss.KnownUntilLost`, `RaftLoss` |
| transactions make no value | `LedgerWitness.RepeatedOutpointAddsValue` | `LedgerConservation.AdmitConservesIff`, `Conservation` |
| a block with all its transactions at hand finishes | `LedgerWitness.RepeatedIdStops` | `LedgerStorage.Storage.ProcessBlock` |
| a rollback restores the known addresses | `Membership.RollbackForgets` | `Membership.RollbackRestoresIff` |
| a journal entry that is to stay survives a stop | `Journal.FileJournal.DeleteEntriesTo`, first change | `Journal.SurvivesIff` for one operation, `Journal.FileJournal.RunBeside` for a run |
| a holder keeps its lock on every replica ahead | `Lease.BackwardClockBreaksLease`, `Lease.FutureCommandBreaksLease`, `Lease.ReleaseBreaksLease` | `Lease.HeldUntilEnded`, `Lease.HeldUntilReleased` |
| a lock has one holder | the same three | `Lease.OneHolderIff`, `Lease.LeaseIsExclusive` |

Times are integers in ticks of one nanosecond; the block time is such an integer.
Signature check, hash, the keys of an output and the body a transaction id commits to
are arbitrary functions. Addresses, keys and hashes are numbers that are only
compared.

## Model

| member | source | states |
|---|---|---|
| RaftElection.ElectionSafety | pysyncobjbc/syncobj.py:615-632 | in every run, two recorded elections of one term are the same election, though votes are a bare counter |
| RaftElection.OneLeaderPerTerm | pysyncobjbc/syncobj.py:842-868 | two nodes in office in the same term are the same node |
| RaftElection.ElectionRestriction | pysyncobjbc/syncobj.py:850-868 | every elected leader had the votes of a strict majority, each cast with a log no newer, by (last term, last index), than the leader's log at its election |
| RaftElection.SameTermSameLeader | pysyncobjbc/syncobj.py:631-632 | quorums of one term meet in a voter, and the voter voted once |
| RaftElection.RunKeeps | pysyncobjbc/syncobj.py:963-968 | the election invariant (one vote per voter and term, fair ballots, distinct supporters counted, granted and in-flight answers accounted for) holds after every step of every run |
| RaftElection.TimeoutKeeps | pysyncobjbc/syncobj.py:615-632 | starting an election, and winning it at once in a cluster of one, keeps the election invariant |
| RaftElection.GrantedRequestKeeps | pysyncobjbc/syncobj.py:842-868 | granting a vote keeps it |
| RaftElection.RefusedRequestKeeps | pysyncobjbc/syncobj.py:842-861 | every way of not granting keeps it |
| RaftElection.CountedResponseKeeps | pysyncobjbc/syncobj.py:963-968 | counting a vote, and winning with it, keeps it |
| RaftElection.IgnoredResponseKeeps | pysyncobjbc/syncobj.py:963-964 | an answer that comes too late or to no candidate changes nothing that matters |
| RaftElection.QuorumsMeet | pysyncobjbc/syncobj.py:631-631 | two majorities share a member |
| RaftBallot.VotesIff | pysyncobjbc/syncobj.py:842-868 | a node that is asked for its vote answers if and only if it is behind the term, or in it without leading it or having voted, and its own log ends in an earlier term or in the same term not behind the candidate's; it then remembers the vote |
| RaftBallot.ElectedIff | pysyncobjbc/syncobj.py:615-632 | a node that stands for election asks every peer once with the end of its log, and when it has heard from any given voters it leads if and only if those of them that are free and end no later are, with itself, more than half of the cluster |
| RaftLog.LogMatching | pysyncobjbc/syncobj.py:902-921 | entries of the same index and term in any two logs of a reachable state mean identical logs up to there |
| RaftLog.WholeLogIsPrefix | pysyncobjbc/syncobj.py:902-935 | after every accepted append of a term the whole log is a prefix of the log of that term's leader, whose own log is exactly it |
| RaftLog.InTermAgreement | pysyncobjbc/syncobj.py:670-684 | nodes that apply the same index while following, or being, the leader of one term apply the same entry |
| RaftLog.NoSnapshotMessages | pysyncobjbc/syncobj.py:1262-1281 | while compaction is off no snapshot message is ever sent: every next index stays above the first entry |
| RaftLog.RunKeepsLogs | pysyncobjbc/syncobj.py:1187-1189 | the log invariant (every entry of term t at index k sits behind a prefix of the log of term t) holds after every step of every run |
| RaftLog.AppendKeepsLogs | pysyncobjbc/syncobj.py:870-942 | accepting, refusing or ignoring an append keeps the log invariant, reordered stale appends included |
| RaftLog.CommandKeepsLogs | pysyncobjbc/syncobj.py:511-521 | a leader appending a command keeps it |
| RaftLog.TimeoutKeepsLogs | pysyncobjbc/syncobj.py:615-632 | starting and winning elections keeps it |
| RaftLog.ResponseKeepsLogs | pysyncobjbc/syncobj.py:963-968 | winning by a counted vote keeps it, since the term has no log yet |
| RaftLog.SendKeepsLogs | pysyncobjbc/syncobj.py:1226-1263 | a sent append is a stretch of the leader's log attached to the entry it follows |
| RaftLog.SplicedPiece | pysyncobjbc/syncobj.py:911-921 | cutting the log behind prevLogIdx and adding the entries leaves a prefix of the sender's log |
| RaftLog.FreshTerm | pysyncobjbc/syncobj.py:1173-1189 | a candidate with a majority wins a term that has no log yet |
| RaftLog.CommitInLog | pysyncobjbc/syncobj.py:648-657 | the commit loop never passes the end of the log |
| RaftRounds.CommitsToIff | pysyncobjbc/syncobj.py:648-657 | the commit loop passes exactly the indices that more than half of the cluster holds, the leader included, up to the first that it does not or the end of the log |
| RaftCommit.CommitIsBacked | pysyncobjbc/syncobj.py:648-657 | in any run, for every index that a leader commits there is a majority with it in which every other node took an append of that leader, after which its log reached the index, and said so in an answer that the leader received in its present term; about the index, not the entry, since answers carry no term |
| RaftRepair.RefusalLowersIff | pysyncobjbc/syncobj.py:902-910 | a refused append leaves the follower's log and takes the next index below the one it used if and only if the leader did not send from behind the end of its log to a follower whose log reaches as far |
| RaftRepair.RepairedIff | pysyncobjbc/syncobj.py:970-981 | a leader and a follower left to themselves: after twice the leader's log length in rounds and one more they have one log, and the leader has it as matched and the follower its commit index, if and only if the leader did not start behind the end of its log at a follower whose log is longer |
| RaftRepair.CatchesUpIff | pysyncobjbc/syncobj.py:970-981 | the same for any leader of any reachable state and any peer whose term is not ahead |
| RaftStuck.NeverCatchesUp | pysyncobjbc/syncobj.py:902-910 | a run of five nodes whose last state has a leader and a follower that never come to one log, however many rounds they go through: a late answer of an earlier term of office has raised the next index beyond the log |
| RaftApply.AppliesConsecutively | pysyncobjbc/syncobj.py:670-687 | along every run a node applies indices 2, 3, 4, ... without gap or repeat if and only if none of its passes applied an entry behind a command that raised |
| RaftApply.PassIsComplete | pysyncobjbc/syncobj.py:670-687 | one pass leaves nothing unapplied if and only if none of its commands raised; otherwise the next pass hands out the tail again |
| RaftWitness.AppliesTwice | pysyncobjbc/syncobj.py:684-687 | a run of two nodes whose leader applies the indices 2, 4, 4: the command of index 3 raises, is not counted, and so the command of index 4 is applied in two passes |
| RaftApply.ExecutedPrefix | pysyncobjbc/syncobj.py:673-687 | what one pass executes is a prefix of what it was handed if and only if nothing executed comes behind something skipped |
| RaftRounds.PeerCount | pysyncobjbc/syncobj.py:631-631 | the number of nodes in the list is the number of peers |
| RaftRounds.ExecutedNext | pysyncobjbc/syncobj.py:684-684 | the count of applied entries rises by one exactly for entries that do not raise |
| RaftNode.RaftNode.constructor | pysyncobjbc/syncobj.py:155-171 | a new node follows nobody in term 0 with a log of one no-op, next index 2 and match index 0 for every peer |
| RaftNode.RaftNode.OnElectionTimeout | pysyncobjbc/syncobj.py:615-632 | fields, vote requests and failed callbacks are exactly those of StartElection and OnLeaderChanged |
| RaftNode.RaftNode.OnBecomeLeader | pysyncobjbc/syncobj.py:1173-1189 | leader state, the no-op of the new term, and for every peer a next index behind the log as it was and nothing matched |
| RaftNode.RaftNode.SendToAll | pysyncobjbc/syncobj.py:623-629 | one copy of the message for each peer |
| RaftNode.RaftNode.OnRequestVoteMessage | pysyncobjbc/syncobj.py:842-868 | term adoption, the four refusals and the answer, as OnRequestVote says |
| RaftNode.RaftNode.OnResponseVoteMessage | pysyncobjbc/syncobj.py:963-968 | counting and winning, as OnResponseVote says |
| RaftNode.RaftNode.OnAppendEntriesMessage | pysyncobjbc/syncobj.py:870-942 | new fields, answer and failed callbacks of every branch, as OnAppendEntries says; an append of an earlier term changes nothing, any other makes its sender the leader and clears the vote if the term is new |
| RaftNode.RaftNode.Splice | pysyncobjbc/syncobj.py:911-921 | the log is cut behind prevLogIdx, whatever follows it, and the entries are added |
| RaftNode.RaftNode.OnNextNodeIdxMessage | pysyncobjbc/syncobj.py:970-981 | for a leader, the next index becomes the one of the answer if it asks for a reset, and the match index the one before it if it reports success; otherwise both stay |
| RaftNode.RaftNode.GetEntries | pysyncobjbc/syncobj.py:1103-1113 | the suffix of the log from an index on |
| RaftNode.RaftNode.GetBatch | pysyncobjbc/syncobj.py:1112-1120 | the shortest nonempty stretch that reaches the byte limit, or all that is left |
| RaftNode.RaftNode.GetPrev | pysyncobjbc/syncobj.py:1096-1101 | index and term of the entry before, if it is in the log |
| RaftNode.RaftNode.SendOne | pysyncobjbc/syncobj.py:1226-1281 | one round of the sending loop for one peer |
| RaftNode.RaftNode.SendAppendEntries | pysyncobjbc/syncobj.py:1221-1289 | the loop is a series of such rounds; unless its time runs out it ends with the whole log sent |
| RaftNode.RaftNode.CountAckers | pysyncobjbc/syncobj.py:650-653 | one more than the number of peers that hold the index |
| RaftNode.RaftNode.AdvanceCommit | pysyncobjbc/syncobj.py:648-657 | the commit index passes an index only if twice the nodes that hold it, the leader included, are more than the cluster, and stops at the first that fails this or at the end of the log |
| RaftNode.RaftNode.ApplyCommittedEntries | pysyncobjbc/syncobj.py:670-687 | the applied index rises by the number of commands that did not raise, and everyone who waits for an entry that is due is told: success if it waits for the term of the entry, discarded otherwise, in the order of the entries and of subscription |
| RaftNode.RaftNode.ApplyOne | pysyncobjbc/syncobj.py:673-687 | one entry: its subscribers leave the table, and unless the command raises each is told, in order, success if its term is that of the entry and discarded otherwise |
| RaftNode.RaftNode.FailWaiting | pysyncobjbc/syncobj.py:1203-1206 | every callback that waits for a reply is told once, in the order of the request ids, and the table is emptied |
| RaftNode.RaftNode.EnqueueRequest | pysyncobjbc/syncobj.py:485-494 | a command enters the queue, or whoever waits is told that it is full |
| RaftNode.RaftNode.CallErrCallback | pysyncobjbc/syncobj.py:983-994 | a local callback is called, a remote requester is sent the error |
| RaftNode.RaftNode.Send | pysyncobjbc/syncobj.py:1291-1295 | a known address gets the message once, an unknown one nothing |
| RaftNode.RaftNode.ProcessCommand | pysyncobjbc/syncobj.py:496-567 | one command of the queue is logged, forwarded or refused |
| RaftNode.RaftNode.LogCommand | pysyncobjbc/syncobj.py:511-531 | the log grows by the command, and whoever waits is subscribed to, or sent, its index and term |
| RaftNode.RaftNode.ForwardCommand | pysyncobjbc/syncobj.py:547-565 | a local command is forwarded under a new request id, a remote one refused |
| RaftNode.RaftNode.OnApplyResponseMessage | pysyncobjbc/syncobj.py:950-961 | the callback moves from the reply table to its index, is failed, or is lost where the assertion raises |
| RaftCalls.PassCalls | pysyncobjbc/syncobj.py:670-684 | a pass over entries tells exactly the callbacks that wait for those that do not raise, in the order of the entries and of subscription, success or discarded by the term |
| RaftCalls.LeaderPlaces | pysyncobjbc/syncobj.py:507-531 | a leader puts the command behind its log, and its own callback waits for that index and term behind those that wait already, or the node that asked is told both |
| RaftCalls.ForwardedIsPlaced | pysyncobjbc/syncobj.py:547-565 | the round trip of a forwarded command: the leader logs it, and once the answer is back the callback waits at the follower for the index and term of that entry and for no reply, unless the index was applied already |
| ClusterCalls.AppliedCalls | pysyncobjbc/syncobj.py:670-684 | in any session, a node that applies what is due tells exactly those that wait for it, as above |
| ClusterCalls.OwnCommandSucceeds | pysyncobjbc/syncobj.py:670-684 | in any session, a callback that waits for an index and term when its node applies the entry of that index and term is told SUCCESS with the command it was submitted with, unless the command raises |
| ClusterCalls.FailureHasReason | pysyncobjbc/syncobj.py:485-565 | in any session, a callback is told that it failed only if the queue was full, no leader was known, the leader changed, the node it was forwarded to refused it, or an entry of another term was applied at its index |
| RaftLoss.AnswerLosesIff | pysyncobjbc/syncobj.py:952-961 | for every callback that a node knows: handling an answer loses it if and only if it waits under the request id of the answer, which places the command at an index that was applied already |
| RaftLoss.EntryLosesIff | pysyncobjbc/syncobj.py:673-687 | applying an entry loses it if and only if it waits for that index and the command raises |
| RaftLoss.PassLosesIff | pysyncobjbc/syncobj.py:670-687 | a pass loses it if and only if it waits for one of the entries that raise |
| ClusterLoss.MoveLosesIff | pysyncobjbc/syncobj.py:496-565 | a move of a session loses a callback if and only if it is one of those two; forwarding, refusals, leader changes and full queues keep every one |
| ClusterLoss.KnownUntilLost | pysyncobjbc/syncobj.py:670-687 | over any stretch of any session a submitted callback stays queued, waiting or invoked on its node if and only if no move of the stretch is one of those two losses |
| ClusterLoss.SubmittedIsKnown | pysyncobjbc/syncobj.py:485-494 | a submission makes its callback known to its node, queue full or not |
| ClusterWitness.AppliedAnswerLosesCallback | pysyncobjbc/syncobj.py:950-961 | a session of two nodes in which a follower forwards a command and applies its entry before the answer arrives, and so loses the callback without ever calling it |
| ClusterResults.SuccessMeansThatCommand | pysyncobjbc/syncobj.py:507-565 | a callback that is told SUCCESS was submitted with the command that its node applied, locally or through the leader |
| ClusterResults.InvokedAtMostOnce | pysyncobjbc/syncobj.py:673-684 | no callback is invoked twice, on one node or on two |
| ClusterResults.SessionKeeps | pysyncobjbc/syncobj.py:950-961 | the invariant behind both holds after every move of every session |
| ClusterProofs.MoveKeeps | pysyncobjbc/syncobj.py:496-565 | every move keeps: an (index, term) on record names the command that the term's leader put there |
| ClusterSystem.ProcessIsProcess | pysyncobjbc/syncobj.py:507-565 | what a move of the command loop does to a node is RaftClient.Process |
| RaftCallbacks.ApplyEntriesKeep | pysyncobjbc/syncobj.py:673-684 | applying entries moves callbacks from the index table to the invoked ones, none twice |
| RaftCallbacks.LeaderChangedKeeps | pysyncobjbc/syncobj.py:1203-1206 | failing the waiting callbacks invokes each once |
| RaftCallbacks.ProcessKeeps | pysyncobjbc/syncobj.py:507-565 | processing a command keeps every callback at one spot |
| RaftCallbacks.ResponseKeepsCallbacks | pysyncobjbc/syncobj.py:950-961 | so does the leader's answer |
| Membership.RunKeepsStep | pysyncobjbc/syncobj.py:911-928 | along any run of leader appends and follower truncate-and-append steps whose logged changes had an effect where they were logged, the known addresses are the fold of the current log, without the node itself |
| Membership.LeadKeepsStep | pysyncobjbc/syncobj.py:514-521 | a leader only logs changes that have an effect in its cluster |
| Membership.UndoKeepsStep | pysyncobjbc/syncobj.py:913-919 | undoing the entries behind a prefix, last first, gives the fold of the prefix |
| Membership.ApplyKeepsStep | pysyncobjbc/syncobj.py:924-928 | applying new entries gives the fold of the longer log |
| Membership.RollbackRestoresIff | pysyncobjbc/syncobj.py:913-919 | a rollback restores the known addresses if and only if, for every address but the node's own, the first of the entries about it had an effect |
| Membership.RollbackForgets | pysyncobjbc/syncobj.py:1332-1374 | a concrete entry whose rollback forgets an address that was known before |
| Membership.Members.DoChangeCluster | pysyncobjbc/syncobj.py:1332-1374 | returns whether the change has an effect, and makes exactly that change; both lists and both index tables stay in step |
| Membership.Members.AddNode | pysyncobjbc/syncobj.py:1348-1358 | an unknown address that is not the node itself joins both lists, with the index behind the log as next and nothing matched |
| Membership.Members.RemoveNode | pysyncobjbc/syncobj.py:1361-1374 | the node leaves both lists and both tables |
| Membership.Members.LeadItem | pysyncobjbc/syncobj.py:514-521 | a change is logged only after the term's no-op was applied and only if it has an effect; a new address starts at the index of the change, the others keep their indexes |
| Membership.Members.FollowItems | pysyncobjbc/syncobj.py:911-928 | undo, cut, append, apply; every address keeps its indexes or starts behind the log, as it was before or is now |
| LedgerConservation.Conservation | belcoin_node/storage.py:569-676 | at every point of every run the unspent stored value, plus the outputs of pending transactions, plus those that expired unsound, is the genesis supply plus what repeated outpoints added, hence never less; and equal to it if and only if no outpoint that was taken had been listed again with a value |
| LedgerConservation.DistinctInputsConserve | belcoin_node/storage.py:569-676 | where every transaction lists distinct outpoints, that sum is the genesis supply |
| LedgerConservation.EventBalances | belcoin_node/storage.py:601-624 | every block transaction, replacement, promotion and expiry adds as much to the supply as to the excess of the repeated outpoints |
| LedgerConservation.AdmitConservesIff | belcoin_node/storage.py:588-624 | an accepted transaction, whether stored, reserved or replacing another, keeps the supply if and only if the outpoints it lists again are worth what those of the transaction it pushes out are worth, or else nothing |
| LedgerConservation.FirstRepeatAddsValue | belcoin_node/storage.py:588-624 | where the transaction pushed out repeated nothing of value, all branches alike: the supply stays if and only if the outpoints listed again are worth nothing |
| LedgerWitness.RepeatedOutpointAddsValue | belcoin_node/storage.py:707-717 | a run of one transaction that lists an output of 5 twice, pays 10, is accepted, and raises the supply by 5 |
| LedgerWitness.RepeatedIdStops | belcoin_node/storage.py:588-593 | a block that lists a waiting transaction twice is processed up to the first listing and no further, from any ledger and mempool |
| LedgerValue.TakenIsCounted | belcoin_node/storage.py:707-717 | what is taken is at most what is counted, and equal exactly then |
| LedgerValue.ReplaceValue | belcoin_node/storage.py:804-805 | a replacement changes the supply by the difference of what both transactions list again |
| LedgerValue.ScanValue | belcoin_node/storage.py:289-302 | promotion and expiry move value, never make it |
| LedgerLifecycle.Lifecycle | belcoin_node/storage.py:237-264 | over any stretch of any run an outpoint only moves from unspent to reserved, to reserved by a strictly larger sequence number, to consumed or burned, and then stays |
| LedgerLifecycle.EventMoves | belcoin_node/storage.py:588-624 | one event brings an unspent output, reserves or consumes one, hands a reserved one to a transaction with a larger sequence number, or consumes or burns it for the transaction that reserved it: nothing is burned that was not reserved |
| LedgerRuns.OneTaker | belcoin_node/storage.py:768-793 | an output is marked spent if and only if one stored, pending or burned transaction took it, and never two did |
| LedgerRuns.IndexesExact | belcoin_node/storage.py:90-129 | at every transaction boundary of every run pub_outs lists exactly the unspent stored outputs of a key and pub_outs_pend exactly the outputs of pending transactions |
| LedgerRuns.RunInv | belcoin_node/storage.py:569-649 | the ledger invariant holds after every event of every run |
| LedgerRuns.ProcessKeeps | belcoin_node/storage.py:588-624 | one transaction of a block keeps it |
| LedgerRuns.ScanKeeps | belcoin_node/storage.py:285-302 | one step of the pending scan keeps it |
| LedgerRuns.OneVerdict | belcoin_node/storage.py:248-264 | the search over the pending table has one outcome, whatever its order |
| LedgerPromotion.PromotionSucceedsIff | belcoin_node/storage.py:289-302 | an expired transaction is written, with its original timestamp and all outputs unspent, if and only if each of its inputs is signed for the branch that now applies: by both keys of the output from its timeout on, by preimage and third key before it; otherwise nothing is written |
| LedgerPromotion.SameBranchesPromote | belcoin_node/storage.py:734-766 | if no input has switched its HTLC branch since acceptance, promotion succeeds |
| LedgerPromotion.ScanOrderIrrelevant | belcoin_node/storage.py:278-302 | every order of the pending scan gives the same tables and indexes: those of promoting all sound expired transactions at once |
| LedgerSignatures.TakenIff | belcoin_node/storage.py:588-624 | at any point of any run, a transaction of a block is stored or reserved if and only if it is new, every input is signed as its timeout asks (by both keys of the output from the timeout on, by preimage and third key before it), it is balanced, and either nothing pending has its inputs and they are unspent or it has a larger sequence number than a pending one with the same inputs whose timelock still runs; otherwise nothing changes |
| LedgerSignatures.PromotedIff | belcoin_node/storage.py:278-302 | at any point of any run, visiting a pending transaction does something if and only if its timelock has passed; it is stored with its original time if and only if all inputs are signed as their timeouts ask now |
| LedgerSignatures.NewcomersSigned | belcoin_node/storage.py:710-766 | whatever a step of a run stores or reserves was signed like this at that moment, for every input, and balanced |
| LedgerSignatures.NotedIff | belcoin_node/storage.py:588-624 | a transaction of a block leaves the mempool, and is noted as invalid if and only if it was neither taken nor stored already |
| LedgerSignatures.ScanNotedIff | belcoin_node/storage.py:278-302 | a visit notes a pending transaction as invalid if and only if its timelock has passed and it is not signed as its timeouts ask now |
| LedgerBalances.BalancesByKind | belcoin_node/storage.py:165-204 | at any time of any run, for both indexes: the owned balances of all keys sum to the value of the unspent outputs from their timeout on with one key, the partial ones to twice that of those with two keys, the HTLC ones to that of the outputs before their timeout |
| LedgerBalances.BalanceKinds | belcoin_node/storage.py:190-202 | each of the three balances of a key is the sum over its listed outputs of just that kind |
| LedgerBalances.BalancesPartition | belcoin_node/storage.py:165-204 | at any time of any run, twice the owned, plus the partial, plus twice the HTLC balances of all keys is twice the unspent total, likewise for pending outputs, and together with what burned twice the genesis supply and the excess of repeated outpoints |
| LedgerBalances.ReportedTotal | belcoin_node/storage.py:185-204 | an exact index counts each output once in full or twice by half |
| LedgerBalances.SharesAddUp | belcoin_node/storage.py:190-202 | all keys together hold each output exactly once in full, or twice by half |
| LedgerTypes.AddOutputsLists | belcoin_node/storage.py:97-104 | adding a transaction lists exactly its outputs under exactly their keys |
| LedgerTypes.DelOutputsLists | belcoin_node/storage.py:304-314 | removing it takes exactly those away |
| LedgerBlocks.PassesIsAcceptable | belcoin_node/storage.py:699-806 | the checks, in the order they are made, accept exactly what the rules accept |
| LedgerBlocks.BlockLeavesPool | belcoin_node/storage.py:588-631 | a block takes its own transactions out of the mempool and no other |
| LedgerBlocks.ProcessedStuck | belcoin_node/storage.py:588-593 | a block stops early only at an id that is missing or listed twice |
| LedgerBlocks.ScanLeaves | belcoin_node/storage.py:278-302 | the tables after a whole scan, in closed form |
| Lists.WithoutFirstIsRemoval | belcoin_node/storage.py:832-835 | removing an id from the mempool list removes one occurrence |
| LedgerStorage.Storage.constructor | belcoin_node/storage.py:70-88 | the coinbase transactions are stored unspent, once per id, and indexed: a genesis state |
| LedgerStorage.Storage.AddTxnToBalanceIndex | belcoin_node/storage.py:90-104 | the named index becomes AddOutputs of it, the other stays |
| LedgerStorage.Storage.DelOutFromBalanceIndex | belcoin_node/storage.py:106-129 | the named index becomes DelKeys of it, missing keys and entries ignored |
| LedgerStorage.Storage.GetBalance | belcoin_node/storage.py:165-204 | the three balances of a key over the right table, although the table is chosen by comparing indexes by value: each the sum over the listed outputs of its kind, the time test written out |
| LedgerStorage.Storage.CheckPendReplacement | belcoin_node/storage.py:237-264 | the loop finds the one possible outcome |
| LedgerStorage.Storage.VerifyInput | belcoin_node/storage.py:710-766 | true if and only if the output exists and both signatures, or preimage and third signature, are there as its timeout asks |
| LedgerStorage.Storage.VerifyTxn | belcoin_node/storage.py:678-806 | true if and only if the transaction is takeable in the sense of LedgerSignatures, or, without the check of pending ones, new, signed and balanced; then the replaced transaction is gone, otherwise only the mempool changed |
| LedgerStorage.Storage.Verified | belcoin_node/storage.py:699-806 | the same, check by check; nothing unsigned passes |
| LedgerStorage.Storage.DelFromPending | belcoin_node/storage.py:304-314 | the transaction leaves the pending table and its outputs the pending index |
| LedgerStorage.Storage.SpendInputs | belcoin_node/storage.py:606-615 | every input is marked spent and leaves pub_outs |
| LedgerStorage.Storage.WriteTxnToDb | belcoin_node/storage.py:651-676 | inputs spent, transaction stored with the given time, outputs listed |
| LedgerStorage.Storage.AdmitTxn | belcoin_node/storage.py:599-624 | one transaction of a block: refused, filed as pending, or stored |
| LedgerStorage.Storage.ProcessTxn | belcoin_node/storage.py:588-631 | the same with mempool and counters; it extends the run the state belongs to |
| LedgerStorage.Storage.ProcessBlock | belcoin_node/storage.py:569-649 | the block is processed in order and finishes if and only if its ids are distinct and in the mempool; otherwise it stays queued and the node stays busy |
| LedgerStorage.Storage.ExpireTxn | belcoin_node/storage.py:289-302 | one expired transaction |
| LedgerStorage.Storage.UpdatePend | belcoin_node/storage.py:278-302 | the loop over a snapshot is a scan of all pending transactions |
| LedgerStorage.Storage.AddBlockToQueue | belcoin_node/storage.py:400-409 | the pending table catches up, then the block is queued |
| LedgerStorage.Storage.FindMissing | belcoin_node/storage.py:383-387 | the ids of a block that are not in the mempool |
| LedgerStorage.Storage.TryProcess | belcoin_node/storage.py:364-397 | idle, put off, asking for missing transactions, stuck on a repeated id, or finished: when each happens and what it leaves |
| LedgerStorage.Storage.AddToMempool | belcoin_node/storage.py:818-824 | the transaction is filed under its id and queued last |
| LedgerStorage.Storage.RemoveFromMempool | belcoin_node/storage.py:826-835 | the id leaves the mempool |
| LedgerStorage.Storage.RemoveInvalidTxnFromMempool | belcoin_node/storage.py:808-816 | and is noted as invalid |
| Journal.FileJournal.Open | pysyncobjbc/journal.py:128-140 | scanning a file that holds a list rebuilds it and the write offset; null exactly where the scan raises |
| Journal.FileJournal.Add | pysyncobjbc/journal.py:154-161 | succeeds if and only if the numbers fit their fields and doubling the file once is enough; the file then holds the longer list, otherwise still the old one; every content in between shows the old or the new list, and only the old one if it fails |
| Journal.FileJournal.Clear | pysyncobjbc/journal.py:163-166 | the file holds the empty list |
| Journal.FileJournal.DeleteEntriesFrom | pysyncobjbc/journal.py:174-186 | the file holds the prefix; every content in between shows a prefix of the old list no shorter than it |
| Journal.FileJournal.WalkBack | pysyncobjbc/journal.py:178-186 | the backward walk ends where the kept records end |
| Journal.FileJournal.DeleteEntriesTo | pysyncobjbc/journal.py:188-192 | the file holds the suffix, adding never fails, every content in between shows a prefix of the suffix, and the first of them the empty list, so that a stop there loses the kept entries |
| Journal.FileJournal.SetLastRecordOffset | pysyncobjbc/journal.py:151-152 | the header names the offset, if it fits |
| Journal.FileJournal.RunBeside | pysyncobjbc/journal.py:112-192 | any sequence of operations leaves the file journal with the list of the memory journal up to the first operation that raises, which is the first that does not fit; reopening rebuilds the list, and after a stop in between what the operation in progress allows; no stop anywhere in the run costs a record that was to stay if and only if no operation of it drops entries from the front while keeping some |
| Journal.FileJournal.StepBeside | pysyncobjbc/journal.py:154-192 | one operation on both journals: it raises exactly where the record does not fit, and every content of the file in between rebuilds the records that are to stay, if and only if it is not one that drops entries from the front while keeping some |
| Journal.SurvivesIff | pysyncobjbc/journal.py:188-192 | the same of the contents alone: what was shown in between, and that a deletion at the front starts from the empty list, decide it |
| Journal.MemoryJournal.Add | pysyncobjbc/journal.py:38-39 | appends |
| Journal.MemoryJournal.Clear | pysyncobjbc/journal.py:41-42 | empties |
| Journal.MemoryJournal.DeleteEntriesFrom | pysyncobjbc/journal.py:44-45 | keeps a prefix |
| Journal.MemoryJournal.DeleteEntriesTo | pysyncobjbc/journal.py:47-48 | keeps a suffix |
| Journal.ResizableFile.constructor | pysyncobjbc/journal.py:62-76 | existing or default content, padded to the initial size |
| Journal.ResizableFile.Write | pysyncobjbc/journal.py:78-86 | the values at the offset, the file doubled once if it is too short; raises if that is not enough |
| Journal.ResizableFile.Read | pysyncobjbc/journal.py:88-89 | a slice that stops at the end of the file |
| JournalFormat.ReopenHeld | pysyncobjbc/journal.py:128-140 | a file that holds a list parses to it |
| JournalFormat.HeldOnce | pysyncobjbc/journal.py:109-113 | a file holds at most one list |
| Bytes.PackDigit | pysyncobjbc/journal.py:152-157 | integers are written as their digits to the base 256, the lowest first |
| JournalFormat.RecordLayout | pysyncobjbc/journal.py:155-159 | where size, index, term, command and the second size of a record lie |
| JournalFormat.ReadEncoded | pysyncobjbc/journal.py:134-139 | reading a written record gives it back |
| JournalFormat.ReadBackwards | pysyncobjbc/journal.py:180-181 | the size behind a record leads back to where it starts |
| JournalFormat.CommitRecord | pysyncobjbc/journal.py:158-161 | moving the end over a written record adds it to the list |
| JournalFormat.CutRecords | pysyncobjbc/journal.py:181-186 | moving the end back cuts the list |
| JournalFormat.FreshHolds | pysyncobjbc/journal.py:142-146 | a new file holds the empty list |
| Bytes.UnpackPack | pysyncobjbc/journal.py:149-152 | unpacking what was packed gives the number |
| Bytes.PackUnpack | pysyncobjbc/journal.py:149-152 | packing what was unpacked gives the bytes |
| Framing.DeliveredIsPrefix | pysyncobjbc/tcp_connection.py:165-172 | under any interleaving of sends, partial writes, partial reads and parses the delivered messages are a prefix of the sent ones, no parse breaks, and a parse that finds everything arrived delivers all |
| Framing.RunInOrder | pysyncobjbc/tcp_connection.py:174-234 | the bytes in buffers and on the way are the frames of exactly the undelivered messages |
| FramingFormat.ParseArrived | pysyncobjbc/tcp_connection.py:216-234 | from any part of a stream the parse loop takes the complete messages and leaves the rest |
| FramingFormat.ParseFrame | pysyncobjbc/tcp_connection.py:216-234 | a complete frame parses to its message |
| FramingFormat.ParsePartial | pysyncobjbc/tcp_connection.py:217-221 | a cut frame stays in the buffer |
| FramingFormat.ParseShrinks | pysyncobjbc/tcp_connection.py:219-233 | every parsed message shortens the buffer, even behind a negative length |
| Framing.TcpConnection.Send | pysyncobjbc/tcp_connection.py:93-101 | fails exactly for messages whose length does not fit the signed field; otherwise what the socket took and what stays is the old buffer and the frame |
| Framing.TcpConnection.TrySendBuffer | pysyncobjbc/tcp_connection.py:174-176 | nothing is lost or repeated |
| Framing.TcpConnection.ProcessSend | pysyncobjbc/tcp_connection.py:178-193 | one write: what was taken leaves the front of the buffer |
| Framing.TcpConnection.TryReadBuffer | pysyncobjbc/tcp_connection.py:195-214 | the buffer grows by what arrived, in order, or the connection is dropped |
| Framing.TcpConnection.ProcessParseMessage | pysyncobjbc/tcp_connection.py:216-234 | incomplete, broken or one message, as ParseOne says |
| Framing.TcpConnection.OnReadable | pysyncobjbc/tcp_connection.py:157-172 | a read event delivers exactly the complete messages |
| Transfer.InstalledIsSnapshot | pysyncobjbc/serializer.py:115-171 | over a lossless first-in first-out link, under any interleaving of requests, cancellations, new snapshots and deliveries, whatever a receiver completes is one whole snapshot of the sender |
| Transfer.RunFaithful | pysyncobjbc/serializer.py:115-171 | once the link is drained the receiver holds what its transfer has sent so far |
| Transfer.UninterruptedTransfer | pysyncobjbc/serializer.py:115-153 | asking often enough completes exactly the snapshot, whatever was received before, in one call per batch and one for the end |
| Transfer.CallsToFinish | pysyncobjbc/serializer.py:139-153 | the number of calls |
| Transfer.TransferCompletes | pysyncobjbc/serializer.py:160-171 | the chunks of one transfer complete its snapshot at the last chunk and not before |
| Transfer.RequestsGiveChunks | pysyncobjbc/serializer.py:115-153 | consecutive requests hand out the chunks of one transfer |
| Transfer.Serializer.GetTransmissionData | pysyncobjbc/serializer.py:115-153 | nothing while a snapshot is unchecked or missing, otherwise the next chunk of the current transfer |
| Transfer.Serializer.SetTransmissionData | pysyncobjbc/serializer.py:155-171 | true exactly when a chunk completes a snapshot, which is then kept |
| Transfer.Serializer.Serialize | pysyncobjbc/serializer.py:60-73 | a snapshot is taken unless one is unchecked |
| Transfer.Serializer.CheckSerializing | pysyncobjbc/serializer.py:33-40 | reports the snapshot once and drops all transfers |
| Transfer.Serializer.CancelTransmission | pysyncobjbc/serializer.py:203-204 | the transfer of one peer is dropped |
| TransferLatest.LatestHeld | pysyncobjbc/serializer.py:60-73 | after any events the sender holds the last snapshot that was asked for while none was unchecked, and every transfer under way is of it |
| TransferLatest.LatestArrives | pysyncobjbc/serializer.py:115-171 | after any events, transfers broken off among them: a receiver that asks for the chunks that are left, one a batch and one for the end, has installed the latest checked snapshot, and installed it last, when they have arrived |
| Lease.StepKeepsIff | pysyncobjbc/batteries.py:204-242 | a command takes a lock that runs at time t from its holder if and only if it ends the holding: a release by the holder, an acquire by another or any prolongate that comes when it has run out, or a renewal by the holder whose lease is over by t |
| Lease.HeldUntilEnded | pysyncobjbc/batteries.py:204-242 | with any clocks: who holds a lock at t on one prefix of the log holds it on every longer one if and only if no later command ends the holding of that moment |
| Lease.HeldUntilReleased | pysyncobjbc/batteries.py:204-242 | with no command time past t and the owner's clock not running backwards: if and only if the owner does not release it there |
| Lease.OneHolderIff | pysyncobjbc/batteries.py:204-242 | with any clocks: while a client holds the lock at t on one prefix of the log, nobody else holds it at t on any longer one if and only if no later command hands it over, by an acquire that gets it or a renewal by another owner, with a lease that runs at t |
| Lease.LeaseIsExclusive | pysyncobjbc/batteries.py:204-242 | with no command time past t and the owner's clock not running backwards, if a client holds a lock at t on one prefix of the log, another holds it at t on a longer prefix only if the first released it in between |
| Lease.OwnerKeepsLock | pysyncobjbc/batteries.py:204-242 | the owner itself still holds it there |
| Lease.BackwardClockBreaksLease | pysyncobjbc/batteries.py:204-216 | a concrete log where a clock that runs backwards lets two clients hold the lock |
| Lease.FutureCommandBreaksLease | pysyncobjbc/batteries.py:204-216 | a concrete log where a command from the future does |
| Lease.ReleaseBreaksLease | pysyncobjbc/batteries.py:204-234 | a concrete log with clocks that behave where a release does, while it has not reached the replica of the first holder |
| Lease.ReplLockManagerImpl.DoAcquire | pysyncobjbc/batteries.py:204-216 | granted if and only if the lock is free, expired or the client's own |
| Lease.ReplLockManagerImpl.DoProlongate | pysyncobjbc/batteries.py:219-228 | expired locks go, the client's locks are renewed, others stay |
| Lease.ReplLockManagerImpl.DoRelease | pysyncobjbc/batteries.py:231-234 | only the owner's release counts |
| Lease.ReplLockManagerImpl.IsAcquired | pysyncobjbc/batteries.py:236-242 | true exactly for the owner of a running lease |

## Left out

- Leader completeness and agreement across terms: the commit loop has no test for the current term and next_node_idx carries no term, so agreement is stated within one term and the commit index is not claimed to be monotone.
- RaftRepair.CatchesUpIff: one leader and one follower that hear only each other, with no message lost and no older one arriving; a follower whose term is ahead makes the leader wait for an election.
- Crash and restart of Raft nodes: term and vote are not kept on disk.
- Duplicated messages: the counter of votes is only safe without them.
- Dynamic membership inside the elections: the cluster of RaftSystem is fixed, and Membership is about one node and its log; changeClusterIDx is never set, so one change at a time is not claimed.
- Log compaction and snapshot install inside Raft: compaction is switched off in the source; RaftLog.NoSnapshotMessages shows that no snapshot message is then sent, and Transfer models the chunks on their own.
- Entries too large for one message: every entry is taken to fit one batch, so the start/process/finish messages are not part of the model.
- Read-only nodes, utility messages, method versions and decorators, timers, pollers, threads: a deadline is an event that may happen, the time limit of the sending loop is a number of rounds.
- RaftNode.RaftNode.ApplyCommittedEntries: the state machine itself is not modelled; a command either runs or, asking for an unknown code version, raises. Other exceptions of commands are not modelled.
- LedgerRuns.RunInv: transactions are taken to have inputs, no dummy input, and an id that commits to outpoints, outputs, sequence number and timelock, and runs to start from a fresh genesis.
- LedgerStorage.Storage.VerifyTxn: called for transactions with inputs and without dummy inputs; the source skips the checks of dummy inputs and fails on a transaction without inputs.
- LedgerStorage.Storage.ProcessBlock: called for blocks whose transactions in the mempool are such transactions with an id that commits to their body; the mempool itself takes any transaction.
- LedgerStorage.Storage.TryProcess: where a transaction is missing for too long the source asks other nodes for it; the fetch and its callbacks are not part of this model, and neither are printing and time measurement.
- LedgerStorage.Storage.constructor: starts from an empty database; rebuilding the index of an existing one lists spent outputs too and is not modelled.
- LedgerStorage.Storage.GetBalance: utxos_for_pubkey and its variant, which only read, are not modelled.
- Equality of ledgers across replicas: update_pend runs at enqueue time with whatever time the node has reached.
- Journal.ResizableFile.Write: growing the file and writing into it are two changes, each atomic; a write torn in the middle, and the order in which the system flushes pages, are not modelled.
- Journal.ResizableFile.constructor: an existing but empty file, which cannot be mapped, is not told apart from a short one.
- RaftNode.RaftNode.ProcessCommand: one round of the command loop; where the source is set to wait for a leader, the rounds without one simply do not happen. Commands that change the cluster are left to Membership.
- RaftNode.RaftNode.LogCommand: the test that refuses a cluster change before it is logged, and the REQUEST_DENIED answer, are not part of the Raft node; Membership.Members.LeadItem models the test on its own.
- RaftNode.RaftNode.OnBecomeLeader: the times of the last responses, the index of the no-op and the sending round that follows at once are not fields or effects of the model; the round is RaftNode.RaftNode.SendAppendEntries.
- RaftNode.RaftNode.OnAppendEntriesMessage: pieces of an oversized entry and the install of a snapshot are not modelled; snapshot messages do not occur while compaction is off.
- RaftNode.RaftNode.Splice: cluster changes among the cut and added entries are undone and applied in Membership.Members.FollowItems.
- RaftNode.RaftNode.OnNextNodeIdxMessage: does not note the time of the response; losing contact with a majority is an event that may happen at any time.
- RaftNode.RaftNode.SendOne: no oversized entries, and no snapshot to send while compaction is off.
- RaftNode.RaftNode.SendAppendEntries: one peer; the source goes over all peers that are connected and over read-only nodes.
- RaftNode.RaftNode.ApplyOne: results of commands and exceptions other than the unsupported version are not modelled.
- Framing.TcpConnection.Send: the native byte order of the length is taken to be little-endian; compression, pickling and encryption are one codec that decodes what it encoded and rejects the empty string; connecting, time-outs and callbacks that disconnect are not modelled, and a message is never the value None.
- Transfer.Serializer.Serialize: the file case, forked processes and the custom serializer hooks are not modelled, nor a receiver that takes snapshots of its own.
- Transfer.Serializer.GetTransmissionData: the in-memory snapshot only, not the one in a file.
- Transfer.Serializer.SetTransmissionData: the same.
- Lease.ReplLockManagerImpl.DoProlongate: iterates over the paths as they were at the start; deleting while iterating over the live keys raises in Python 3.
- RPC and gRPC servers, clients, name resolution, key files and test generators.
