# RollingRaft in Dafny

A model of RollingRaft, a Raft implementation with its own write-ahead log and group commit,
and proofs of what its documentation promises: the safety of the protocol over whole runs, the
durability and recovery of the log, and the integrity of snapshots and of the apply queue.
`dafny verify dfyconfig.toml` checks everything.

## How it is organised

**Protocol.** `RaftNodes` gives each handler as a function from one node's state to the next.
`RaftServers` and `RaftLogs` hold the imperative code, with the loops and field updates of the
source, proved equal to those functions. `RaftCluster` is the step system: nodes run the handlers
over a bag of messages that may be lost, repeated and reordered, time out at any moment, and crash
and restart from the saved term and vote and any log that may be on their disk. `ElectionSafety`,
`LogMatching` and `LeaderCompleteness` prove the three theorems of sections 5.2, 5.3 and 5.4 of the
Raft extended paper for every run; `ReplicationLaws` adds the commit scan, the pipeline window and
follower commit. `Campaigns` says over runs who can and who cannot be elected, `CatchUp` and
`CatchUpRuns` that a leader brings its peers up to its log, `ProgressLaws` how positions, credit and
terms move, and `Compaction` that a compacted node behaves as before. `FlushGates` gives each node a disk, a flush queue and the callbacks it is owed, and
treats the durability gate over whole runs. `RaftScenarios`, `GateScenarios` and `StrayScenario` hold
three-node runs of the step system that break a promise. `Quorums` and `Memberships` cover voter lists and their changes.

**Durable log.** `WalFormat` is the byte format and its scan, `WalIndexes` the dense index as a map,
`WalRecovery` checkpoints against full replay, `WalDurability` what a power failure may take,
`WalPlacement` and `WalStores` the live log over real bytes. `WalReopening` scans bytes into an index,
`WalOpenings` is Open with checkpoint, scan and repair, `WalTears` what a flush leaves that stopped
after any octet. `GroupCommits` and `LogPersistence` are the epochs and the two background threads;
`PersisterLaws` says what becomes of entries and callbacks over their runs, and `AckDurability` runs them on top of the write-ahead log.

**Snapshots and apply.** `Sha256` and `Sha256Streams` are the streaming hash against FIPS 180-4,
`Sha256Standard` its constants and bit functions against the standard's text, `Sha256Example` the
standard's one-block example, `SnapshotStores` the stored snapshot, `SnapshotTransfers` the chunked transfer, `Appliers` the apply
queue step by step, `ApplyRuns` its runs, `Sessions` the client session cache.

## What is assumed

- Each handler is one atomic step, although the source splits it over two mutexes. Popping a batch of
  the apply queue, reading last_applied, each task and the publication are steps of their own, and so
  are the restore of a received snapshot and its install. A restore succeeds and is one step of the
  state machine; there is one at a time (`src/rpc_handlers.cpp:655-661`).
- In the cluster theorems the voter set is fixed and logs are not compacted; `Compaction` treats that
  handler by handler, with the exceptions that an emptied log makes, which reports (0, 0) as its last
  entry (`src/raft_log.cpp:73-76`).
- A round of `CatchUp` is a request that arrives, its answer that arrives, and, before the first one, a
  retry from the head of the pipeline. In the runs of `CatchUpRuns` that are timely, an accepting answer
  fits and a refusal with a hint is of the leader's own term.
- The text of a configuration change is parsed by a function given from outside.
- Leader Completeness takes two things on trust, and `RaftCluster.Trusted` states them: a restart
  keeps the entries a node has vouched for (they are persisted asynchronously,
  `src/rpc_handlers.cpp:493-496`), and an accepting answer fits, in the sense of
  `AnswerKeepsCreditIff`. Election Safety and Log Matching need neither: a restart may bring back any
  prefix of any log the node ever had. A truncation the disk did not take, with newer entries
  written over the old ones (`src/rpc_handlers.cpp:454-458`), is outside the runs when it leaves a
  mixture; `LostTruncationIff` says exactly when it does.
- A failed save of term and vote stops the program, except while granting a vote, where it refuses.
- In `FlushGates` entries reach the disk in append order and a truncation first drains the queue
  (`src/rpc_handlers.cpp:450-459`). Callbacks are owed from the write on and fire at any later time, in
  any order, or never.
- A process crash loses the write buffer; written bytes stay. A flush is whole or stops after some
  octet. A power failure, in `WalDurability` and `AckDurability`, may also take written records that
  were never forced out, each segment keeping a prefix.
- Payload parsing inverts payload printing; the checksum is any function. LevelDB is a map with
  atomic batches. File writes of the live log succeed.
- Snapshots are shorter than 2^32 octets and there is one octet string per index and term.
- The session clock never goes back.
- Answers from untracked peers are ignored (the source would create an entry for them).
- Integers are unbounded except where widths are written out: record fields, the trailer, and the
  words and length field of the hash. Timeouts are nondeterministic.

## What turned out false

For each of these the code is modelled as it is; a lemma exhibits the failure and an if-and-only-if
says when the promise holds.

- An answer to an older batch over-credits a peer, as answers are matched to batches by position
  only, and a commit may be lost: `AnswerKeepsCreditIff`, `StaleAnswerLosesCommit`.
- A follower may count an unverified entry as committed, since it caps the leader's commit index by
  its own last index: `FollowerCommitFollowsLeaderIff`, `FollowerCommitsUnverified`.
- flushed_index survives truncation, and a durable callback says an index but no term, so the
  durability gate lets an unflushed entry through: `GateHoldsIff`, `StaleFlushedIndexOpensGate`,
  `LateCallbackOpensGate`.
- A truncation that fails on disk may leave a log that breaks Log Matching after a restart:
  `LostTruncationIff`, `MixedLog`.
- The early exit of the commit scan needs ascending terms, which every reachable state has:
  `EarlyExitNeedsAscendingTerms`, `ReachableCommitIsLargest`.
- Neighbouring configurations may have disjoint election quorums when a new leader proposes a change
  before an earlier one is applied, `pending_config_change_` being known to its proposer only:
  `MajoritiesMeetIff`, `LogMeetsIff`, `UpToDateLogMeets`, `OverlappingChangesPart`.
- The joint commit count is not a joint majority while a member leaves an odd voter list:
  `RemovalCountsAreJointIff`, `OddRemovalIsNot`. Removing a learner has no effect:
  `RemovalTakesEffectIff`, `RemovedLearnerStays`.
- An entry acknowledged as durable may be lost to a power failure when its segment was closed by a
  rotation, which forces nothing out: `AcknowledgedSurvivesIff`, `AcknowledgedIsLost`,
  `SyncIsDurableIff`, `RotationLeavesRecordsBehind`. `include/rollingraft/log_persister.h:161-163`
  promises durability.
- After a power failure a checkpoint may point at records that are gone: `RecoversSurvivorsIff`,
  `CheckpointOutlivesRecord`.
- Open fails on a torn flush that ends exactly between two records: `OpenTornIff`,
  `CutBetweenRecordsFails`.
- A flush that stops within the first eight octets leaves a mixed trailer, which may hide records
  flushed before: `FlushedSurviveTearIff`, `TornTrailerHidesRecord`.
- A batch put back for lack of disk space or after a failed write lands behind newer entries:
  `BacklogInOrderIff`, `PutBackOvertaken`.
- The range the log index reports may end in holes, or hold nothing else: `TightThroughoutIff`,
  `RangeEndsInHoles`, `RangeOfHoles`.
- The commit index falls to 0 on a compacted, empty log: `CommitNeverFallsIff`,
  `CommitFallsAfterCompaction`, `CompactionCommutes`. A node whose log was emptied also votes for
  candidates whose log is behind its own, and as a leader sends nothing: `VoteCommutesIff`,
  `LeadingCommutesIff`.
- A refusal of an earlier term may move a leader's send position beyond its log, and then it never
  catches its peer up: `LeaderCatchesPeerUpIff`, `StaleRefusalStrays`.
- A received snapshot restores the state machine before anything is compared: a repeated or
  superseded one takes it back although last_applied stays, and the apply thread may be at work in
  between or have a batch in hand: `InStepIff`, `SnapshotUnharmedIff`, `RepeatedSnapshotRewinds`,
  `BatchDuringRestore`, `InstallUnderBatch`. A compaction may follow that makes the next commit advance
  abort the program: `MissingEntryIff`, `MissingEntryAborts`.
- A failed chunk write that is sent again, or a chunk lost when the file is closed, corrupts the
  snapshot unnoticed: `ReassemblyCompleteIff`, `FailedWriteGoesUnnoticed`, `LossAtCloseGoesUnnoticed`.

## Model

| member | source | states |
|---|---|---|
| `ElectionSafety.ElectionSafety` | src/election_manager.cpp:510-561 | Election Safety: nodes that lead one term at any two points of a run, crashes and restarts included, are the same node |
| `ElectionSafety.StepKeepsElectionInv` | src/rpc_handlers.cpp:206-294 | every step of every handler keeps the election invariant: ballots match the saved vote, counted votes are ballots, recorded leaders had a quorum |
| `ElectionSafety.GrantKeepsInv` | src/rpc_handlers.cpp:268-293 | a granted vote never contradicts an earlier ballot of that term by the same voter, also across a restart, because it is saved before the reply |
| `ElectionSafety.WinnerIsFirst` | src/election_manager.cpp:544-560 | a candidate holding a quorum of ballots for a term that already has a leader is that leader |
| `ElectionSafety.StepKeepsWinners` | src/election_manager.cpp:159-283 | once a term has a winner no later step changes who it was |
| `ElectionSafety.RunKeepsWinners` | src/election_manager.cpp:159-283 | the winner of a term is the same at every later point of a run |
| `ElectionSafety.RunRaisesTerms` | src/election_manager.cpp:18-97 | a node's term never falls along a run, restarts included |
| `Campaigns.NoLeaderAfter` | src/rpc_handlers.cpp:252-266 | leader stickiness over whole runs: while the members of a set that meets every election quorum each hear from their leader whenever they are asked for a vote, no node becomes leader of a term beyond the highest there was at the start |
| `Campaigns.StepKeepsUnmoved` | src/rpc_handlers.cpp:206-294 | every step keeps that none of these members has voted for another in a later term |
| `Campaigns.LeadersAreVoters` | src/rpc_handlers.cpp:206-240 | every leader of every run is a voter of the configuration |
| `Campaigns.GrantsUnheard` | src/rpc_handlers.cpp:206-294 | a node of an earlier term that has not heard from a leader grants its vote to a voter whose log is up to date, when the vote is saved |
| `Campaigns.OneVote` | src/election_manager.cpp:510-561 | delivering one such request and its answer adds exactly that vote, and the candidate leads exactly when the votes are then a quorum |
| `Campaigns.CandidateWins` | src/election_manager.cpp:510-561 | any run in which a candidate has asked up-to-date, unheard voters that together with its votes are a quorum extends to one in which it leads its term |
| `Campaigns.StandingWins` | src/election_manager.cpp:99-157 | from any point of any run, a voter whose log is up to date for a quorum of nodes that hear no leader can stand and lead the next term within one step per message |
| `Quorums.QuorumSatisfied` | src/election_manager.cpp:285-299 | the two counting loops decide exactly the election quorum: a majority of the new list and, in joint mode, of the old one |
| `Quorums.MajoritiesMeet` | include/rollingraft/raft_node.h:107-117 | two majorities of one voter list, which may repeat ids, share a listed voter |
| `Quorums.ElectionQuorumsMeet` | src/election_manager.cpp:285-304 | any two election quorums of a configuration, joint or not, share a voter |
| `Quorums.CommitMeetsElection` | src/log_replicator.cpp:720-772 | every commit quorum, with its more generous count in joint mode, still meets every election quorum |
| `LogMatching.LogMatching` | src/rpc_handlers.cpp:432-497 | Log Matching across nodes and across time: two logs seen anywhere in a run with one term at one index are identical up to that index, whatever earlier logs restarts brought back in between |
| `LogMatching.EarlierLogMayReturn` | src/rpc_handlers.cpp:445-462 | a restart may find any prefix of any log the node had before, as after a lost truncation record: the runs of the three theorems include it |
| `LogMatching.LostTruncationIff` | src/rpc_handlers.cpp:450-459 | a truncation the disk did not take, with the newer entries written over the old ones, leaves a log that matches and that a restart may find if and only if the newer log is at least as long |
| `LogMatching.MixedLog` | src/rpc_handlers.cpp:450-459 | such a mixture, entry 3 of term 1 behind entry 2 of term 2, contradicts the log it came from |
| `LogMatching.StepKeepsLogInv` | src/rpc_handlers.cpp:418-500 | every step keeps each log grounded: every entry sits in the log of the leader of its term with the same prefix; requests in flight are slices of leader logs |
| `LogMatching.StepGrowsLeaderLogs` | src/raft_log.cpp:20-32 | what a term's leader once held is never taken back within that term |
| `LogMatching.ConflictIsFirstDifference` | src/rpc_handlers.cpp:445-462 | the conflict loop stops exactly at the first request entry where follower and leader log part, or not at all |
| `LogMatching.MissingIsAppended` | src/rpc_handlers.cpp:464-497 | with no conflict left, the append loop yields the follower's log extended by exactly the missing leader entries and reports no gap |
| `LogMatching.MergeFollowsLeader` | src/rpc_handlers.cpp:443-500 | after both loops the log agrees with the leader through the batch; nothing is lost unless the leader contradicted it, and then exactly the contradicted suffix |
| `LogMatching.PrevCheckMeansAgreement` | src/rpc_handlers.cpp:432-441 | passing the previous-entry check means the whole prefix agrees with the leader |
| `LogMatching.ReplicateOutcome` | src/rpc_handlers.cpp:418-511 | against any leader log the replication half either refuses and leaves the log as it was, or ends in agreement through the request |
| `LeaderCompleteness.LeaderCompleteness` | src/log_replicator.cpp:705-786 | Leader Completeness: whatever a leader commits at any point of a trusted run is in the log of every leader of a later term, at every point of the run, earlier ones included |
| `LeaderCompleteness.CommittedPrefixesAgree` | src/log_replicator.cpp:705-786 | any two commits of a trusted run, by any leaders at any times, agree on their common prefix |
| `LeaderCompleteness.StepKeeps` | src/rpc_handlers.cpp:206-511 | every trusted step keeps the promise invariant: what may still be chosen is held by later leaders, by those who vouched for it and by the candidates they voted for |
| `LeaderCompleteness.UpToDateCandidateHolds` | src/rpc_handlers.cpp:241-250 | a candidate that passes the up-to-date check holds every choosable entry its voter holds |
| `LeaderCompleteness.VoucherHolds` | src/rpc_handlers.cpp:445-497 | a follower that truncates on a conflict never drops an entry it vouched for that can still be chosen |
| `LeaderCompleteness.VouchKeepsPromises` | src/rpc_handlers.cpp:443-500 | accepting a batch keeps every promise, those made to earlier leaders too |
| `LeaderCompleteness.WinnerHolds` | src/election_manager.cpp:544-560 | the winner of an election holds every entry of an earlier term that can still be chosen |
| `LeaderCompleteness.AnswerKeepsCredit` | src/log_replicator.cpp:463-565 | an answer that fits keeps match_index within what the peer vouched for in the present term: the credit it brings is not new, or it is of the present term and reaches back to the batch at the head |
| `LeaderCompleteness.AnswerKeepsCreditIff` | src/log_replicator.cpp:463-477 | counting an accepting answer keeps that in every history the leader cannot tell apart if and only if the answer fits |
| `LeaderCompleteness.MeagreIsConsistent` | src/log_replicator.cpp:463-477 | for any answer there is a consistent history in which the peers vouched for no more than match_index says and the sender for no more than its answer |
| `RaftScenarios.StaleAnswerLosesCommit` | src/log_replicator.cpp:463-477 | a run without crashes in which a late answer from an earlier term is counted, an entry is committed on its strength, and a later leader lacks it |
| `LeaderCompleteness.ScanFindsQuorum` | src/log_replicator.cpp:714-785 | an advanced commit index has the leader's own term and a commit quorum of holders |
| `LeaderCompleteness.CommitIsVouched` | src/log_replicator.cpp:705-786 | in reachable states everyone counted towards a commit has vouched for the leader's log up to it |
| `RaftNodes.CommitScanFindsLargest` | src/log_replicator.cpp:714-785 | with ascending terms the descending scan with its early exit returns the largest committable index at or below its start |
| `RaftNodes.TryCommitPicksLargest` | src/log_replicator.cpp:705-786 | TryCommit moves to exactly the largest index above commit_index, within min(last, flushed), of the current term and held by a quorum; otherwise it stays |
| `RaftNodes.EarlyExitNeedsAscendingTerms` | src/log_replicator.cpp:714-718 | a state with falling terms where the early exit misses a committable index |
| `ReplicationLaws.HeldTermsAscend` | src/rpc_handlers.cpp:443-500 | along every grounded log terms never fall and never exceed the node's own |
| `ReplicationLaws.ReachableCommitIsLargest` | src/log_replicator.cpp:705-786 | in every reachable state of every node the early exit is safe and TryCommit finds the largest committable index |
| `ReplicationLaws.NeverTracksItself` | src/election_manager.cpp:159-283 | no node ever has itself in its match_index, so the commit count takes nobody twice |
| `ReplicationLaws.PipelineBounded` | src/log_replicator.cpp:237-315 | over all sends, answers, rejections and retries the entries in flight to a peer never exceed window + max_entries - 1 |
| `CatchUp.CatchesUpIff` | src/log_replicator.cpp:422-565 | a leader and a follower of any logs that match, exchanging requests and answers: the follower comes to hold the whole leader log if and only if the send position is not beyond the end of the leader log plus one |
| `CatchUp.CatchesUp` | src/log_replicator.cpp:237-565 | then 2 * last + 2 rounds are enough, the leader log is untouched, the send position ends just behind it, and match_index is its last index as soon as a batch was sent or a request was refused |
| `CatchUp.RefusedIff` | src/rpc_handlers.cpp:432-511 | a request from the send position is refused if and only if the follower lacks the previous entry or has another term there; the refusal names that previous index, an acceptance counts the batch |
| `CatchUp.LeaderRewinds` | src/log_replicator.cpp:529-564 | a refusal moves the send position to exactly the index it names and match_index below it |
| `CatchUp.RefusalBacksOff` | src/log_replicator.cpp:529-564 | a refused round, by batch or by heartbeat, moves the send position one index back and leaves the follower's log alone |
| `CatchUp.AcceptanceMovesOn` | src/log_replicator.cpp:463-477 | an accepted round leaves the logs in agreement through the batch and credits exactly that |
| `CatchUp.TakenAgrees` | src/rpc_handlers.cpp:443-500 | what the follower makes of an accepted batch agrees with the leader log through it and still matches it |
| `CatchUpRuns.LeaderCatchesPeerUp` | src/log_replicator.cpp:219-565 | in every run whose answers are timely, any leader brings any peer that is not in a later term to its whole log within 2 * last + 2 rounds, whatever the two logs were |
| `CatchUpRuns.LeaderCatchesPeerUpIff` | src/log_replicator.cpp:422-565 | in every run, timely or not: if and only if the position it sends from is not beyond the end of its log plus one |
| `CatchUpRuns.RunKeepsPoise` | src/log_replicator.cpp:422-670 | in every timely run no leader's send position, credit or batch in flight goes beyond its log |
| `CatchUpRuns.StepKeepsAnswers` | src/rpc_handlers.cpp:356-511 | every step keeps that an answer in flight to a batch counts no more entries than the batch has and points no further than its previous index |
| `CatchUpRuns.RetryResendsHead` | src/log_replicator.cpp:358-376 | after a failed send the next request starts with the entries of the oldest unanswered batch |
| `StrayScenario.StaleRefusalStrays` | src/log_replicator.cpp:529-564 | a run without crashes in which a refusal of an earlier term reaches the leader of a later one: it then sends from 3 with a log that ends at 1, and no number of rounds brings its peer up |
| `ProgressLaws.PipelineDrains` | src/log_replicator.cpp:463-477 | accepting every batch in flight in order empties the pipeline and credits the peer with all that was sent |
| `ProgressLaws.AcceptanceTakesNothingBack` | src/log_replicator.cpp:463-477 | an acceptance, late or not, never lowers send position or credit |
| `ProgressLaws.RefusalKeepsCreditBelow` | src/log_replicator.cpp:529-564 | a refusal, of a batch or of a heartbeat, leaves the credit below the send position and nothing in flight |
| `ProgressLaws.LateFailuresStepDown` | src/log_replicator.cpp:447-461 | k failures with nothing in flight lower the send position by k, but never to what the peer is credited with |
| `ProgressLaws.ShunnedWalksBack` | src/log_replicator.cpp:529-564 | refusals without a hint, as a follower gives that does not count the leader among the voters, walk the send position down one index a round to 1 |
| `ProgressLaws.LaterTermIsJoined` | src/rpc_handlers.cpp:206-511 | whoever receives and heeds a message of a later term follows in that term; whoever does not heed it stays as it was |
| `ProgressLaws.OnlyLeadersHavePipelines` | src/election_manager.cpp:18-97 | in every run only leaders have batches in flight |
| `ProgressLaws.GapIsRefused` | src/rpc_handlers.cpp:464-497 | entries that would leave a gap behind the log are refused with the next index of the log, and nothing changes |
| `ProgressLaws.FlushedIsHighestTold` | src/raft_node_core.cpp:1024-1038 | after any durable callbacks flushed_index is the highest index told, or what it was |
| `ProgressLaws.RestartedMayCommitAll` | src/raft_node_core.cpp:140-185 | a restarted node follows with saved term and vote, and all of the log it found counts as flushed |
| `Compaction.CompactionCommutes` | src/rpc_handlers.cpp:356-511 | for every node and every index its log reaches: AppendEntries on the compacted node gives the same answer and the compacted result, for every request from 0 or from at or beyond the snapshot that does not contradict it; the commit index alone differs, by falling to 0, if and only if the log was emptied and the request raises the commit index without adding an entry |
| `Compaction.TermsSurvive` | src/raft_node_core.cpp:1615-1625 | compaction keeps the term at every index at or beyond the snapshot, the boundary included, and answers 0 inside it; the next index stays and the last one is lost exactly when the log is emptied |
| `Compaction.CompactedTwice` | src/snapshot_manager.cpp:162-222 | compacting twice is compacting once at the later index |
| `Compaction.ReplicateCommutes` | src/rpc_handlers.cpp:418-511 | the replication half alone commutes with compaction in the same sense |
| `Compaction.InsideSnapshotRefused` | src/rpc_handlers.cpp:432-441 | a request whose previous index lies inside the snapshot is refused, naming the first index held, and changes nothing but the term |
| `Compaction.SendingCommutes` | src/log_replicator.cpp:237-315 | a compacted leader sends the same request, unless the peer needs an entry that is gone, and then nothing |
| `Compaction.VoteCommutesIff` | src/rpc_handlers.cpp:241-250 | a compacted node votes as before if and only if it is not the case that its log was emptied and the candidate's log alone would have cost it the vote |
| `Compaction.CommittingCommutes` | src/log_replicator.cpp:705-786 | a leader that compacts what it has committed commits the same index |
| `Compaction.LeadingCommutesIff` | src/election_manager.cpp:159-283 | taking office commutes with compaction if and only if the log was not emptied or there are no peers; an emptied leader starts its peers at 1 and sends them nothing |
| `ReplicationLaws.FollowerCommitFollowsLeaderIff` | src/rpc_handlers.cpp:502-507 | an accepted request that raises the commit index raises it to min(leader_commit, own last index), and what the follower then counts as committed is the leader's log if and only if the request's entries covered that index or the follower already held the leader's term there |
| `RaftScenarios.FollowerCommitsUnverified` | src/rpc_handlers.cpp:502-507 | a run without crashes in which a heartbeat that verifies nothing makes a follower count an entry as committed where the cluster committed another |
| `FlushGates.GateHoldsIff` | src/log_replicator.cpp:708-712 | over every run of the cluster with its disks and owed callbacks: all along, every entry a node holds at or below its commit ceiling is on its own disk, if and only if no proposal or request ever put an entry at or below a flushed_index, as a truncation there does, and no leader was told of an index while an entry up to it was still on its way |
| `FlushGates.CommitIsOnDisk` | src/log_replicator.cpp:705-786 | until then, whatever TryCommit commits is on the committing leader's disk, entry by entry and with its term |
| `FlushGates.HandlerKeepsGateIff` | src/rpc_handlers.cpp:443-500 | one AppendEntries keeps the gate if and only if it puts no entry at or below flushed_index |
| `FlushGates.ProposalKeepsGateIff` | src/raft_node_core.cpp:779-870 | one proposal keeps it if and only if flushed_index is not ahead of the log |
| `FlushGates.TellKeepsGateIff` | src/raft_node_core.cpp:1024-1038 | one durable callback keeps it if and only if nothing up to its index is still on its way to the disk, or the node no longer leads |
| `FlushGates.AheadMeansCut` | src/log_persister.cpp:219-233 | a callback can run ahead of the disk only when a request cut the log below its index while the callback was owed |
| `FlushGates.GatedIff` | src/log_replicator.cpp:708-712 | in reachable states the gate holds at a node if and only if nothing is on its way to the disk, or nothing up to flushed_index is |
| `FlushGates.EventKeepsGateIff` | src/log_replicator.cpp:708-712 | any step, write, callback or crash keeps every gate if and only if it is none of these |
| `FlushGates.HandlerRewrites` | src/rpc_handlers.cpp:443-500 | in every reachable state the handler keeps exactly the part of the log before the conflict and appends the rest of the request |
| `FlushGates.TraceKeepsInv` | src/log_persister.cpp:478-646 | at every point the disk is the log without its unwritten tail, and the queue is that tail in order |
| `GateScenarios.StaleFlushedIndexOpensGate` | src/rpc_handlers.cpp:445-462 | a run in which a leader flushes two entries, loses both to a newer leader, leads again and commits an entry of which its disk has nothing |
| `GateScenarios.LateCallbackOpensGate` | src/raft_node_core.cpp:1024-1038 | a run in which the callbacks of two entries are owed while both are cut away, with flushed_index 0; in office again the node is told of the old index 2 and commits the entry there now, which its disk does not have |
| `RaftServers.FilledSendsTheGap` | src/log_replicator.cpp:219-235 | filling the pipeline sends exactly the log between the old and the new send position, in order and without gap, and stops only at the end of the log or at a full window |
| `RaftServers.SentSlice` | src/log_replicator.cpp:256-315 | a send that advances the position carries exactly the log slice it advanced over |
| `RaftServers.RaftServer.constructor` | src/raft_group.h:127-147 | a fresh node: follower of term 0, empty log, nothing tracked |
| `RaftServers.RaftServer.GetLogTerm` | src/raft_node_core.cpp:1615-1625 | the term at an index, the snapshot's own at its boundary, 0 when not held: the lookup whose answers TermsSurvive shows compaction to keep |
| `RaftServers.RaftServer.BecomeFollower` | src/election_manager.cpp:18-97 | new state as a function of the old: the vote is cleared only by a later term, the pair is saved unless the disk failed |
| `RaftServers.RaftServer.BecomeCandidate` | src/election_manager.cpp:99-157 | new term, own vote saved and counted; leads at once when that is a quorum |
| `RaftServers.RaftServer.BecomeLeader` | src/election_manager.cpp:159-283 | each peer starts at last index + 1, matched to 0, nothing in flight |
| `RaftServers.RaftServer.HandleRequestVote` | src/rpc_handlers.cpp:206-294 | state and reply are those of the step of ElectionSafety, NoLeaderAfter and CandidateWins, on every refusal path, under leader contact and on a failed save |
| `RaftServers.RaftServer.HandleRequestVoteResponse` | src/election_manager.cpp:510-561 | stale, repeated and refused answers change nothing; a quorum of distinct voters makes a leader |
| `RaftServers.RaftServer.TruncateConflict` | src/rpc_handlers.cpp:445-462 | the first loop cuts the log at the first contradiction and nowhere else |
| `RaftServers.RaftServer.AppendNew` | src/rpc_handlers.cpp:464-497 | the second loop appends what is missing or names the index where a gap begins |
| `RaftServers.RaftServer.HandleAppendEntries` | src/rpc_handlers.cpp:356-511 | state and reply are those of the step of LogMatching, CatchesUpIff and CompactionCommutes, on every branch |
| `RaftServers.RaftServer.Propose` | src/raft_node_core.cpp:779-870 | only a leader appends, in its own term at the next index |
| `RaftServers.RaftServer.SendAppendEntries` | src/log_replicator.cpp:237-315 | what is sent, queued and advanced, or nothing when the window is full, the peer is unknown or a snapshot is due |
| `RaftServers.RaftServer.BuildRequest` | src/log_replicator.cpp:256-274 | previous index and term, the slice and the commit index of a request |
| `RaftServers.RaftServer.Queued` | src/log_replicator.cpp:282-288 | the summing loop gives the number of entries in flight |
| `RaftServers.RaftServer.FillPipeline` | src/log_replicator.cpp:219-235 | the loop ends (the distance to the log's end falls) and is the pipeline fill of FilledSendsTheGap |
| `RaftServers.RaftServer.RetryFromHead` | src/log_replicator.cpp:358-376 | a failed send rewinds to the oldest unanswered batch and empties the queue |
| `RaftServers.RaftServer.HandleAppendEntriesResponse` | src/log_replicator.cpp:422-565 | the leader is that of the step of CatchesUpIff, PipelineDrains and LeaderCompleteness: a later term demotes it, any other answer settles the batch at the head |
| `RaftServers.RaftServer.AnswerHead` | src/log_replicator.cpp:447-565 | send position, credit and pipeline after an answer are those of the step that LeaderRewinds, AcceptanceTakesNothingBack and LateFailuresStepDown pin down |
| `RaftServers.RaftServer.HandleHeartbeatResponse` | src/log_replicator.cpp:567-670 | a refused heartbeat backs off or rewinds; an accepted one moves nothing |
| `RaftServers.RaftServer.OnLogEntryPersisted` | src/raft_node_core.cpp:1024-1038 | only a leader raises flushed_index, and never lowers it |
| `RaftServers.RaftServer.TryCommit` | src/log_replicator.cpp:705-786 | the loop commits what the scan function commits |
| `RaftServers.CountHolders` | src/log_replicator.cpp:720-766 | the peer-by-peer counts are the sizes of the holder sets on the voter list and on the old list |
| `RaftLogs.SliceSelectsByIndex` | src/raft_log.cpp:47-71 | GetEntries returns exactly the entries whose index lies in the range, consecutive and in order |
| `RaftLogs.TruncateUndoesAppend` | src/raft_log.cpp:20-32 | append then truncate at the new index is the identity, contiguity is kept, and the entry is found where it was put |
| `RaftLogs.RaftLog.constructor` | include/rollingraft/raft_log.h:154-156 | empty log starting at index 1 |
| `RaftLogs.RaftLog.Append` | src/raft_log.cpp:20-32 | appends at the next index and returns it; the byte estimate stays the sum over the entries |
| `RaftLogs.RaftLog.AppendLogEntry` | src/raft_log.cpp:34-38 | appends the entry as it is |
| `RaftLogs.RaftLog.GetLastLogInfo` | src/raft_log.cpp:73-79 | last index and term, (0, 0) for an emptied log |
| `RaftLogs.RaftLog.GetEntries` | src/raft_log.cpp:47-71 | the clamping loop returns the slice |
| `RaftLogs.RaftLog.TruncateSuffix` | src/raft_log.cpp:93-110 | the pop loop leaves exactly the entries below the cut, and the byte estimate with it |
| `RaftLogs.RaftLog.SetStartIndex` | src/raft_log.cpp:120-125 | an empty log at the new start |
| `WalIndexes.DenseIndex.constructor` | include/rollingraft/wal_persister.h:201-230 | the empty map |
| `WalIndexes.DenseIndex.LastIndex` | include/rollingraft/wal_persister.h:206-206 | an upper end for all live keys |
| `WalIndexes.DenseIndex.Get` | include/rollingraft/wal_persister.h:208-215 | lookup in the map; a hole is an absent key |
| `WalIndexes.DenseIndex.Put` | src/wal_persister.cpp:41-63 | map update, below, inside, at the end of or far beyond the dense range |
| `WalIndexes.DenseIndex.TruncatePrefix` | src/wal_persister.cpp:65-80 | exactly the keys below the bound are dropped |
| `WalIndexes.DenseIndex.TruncateSuffix` | src/wal_persister.cpp:82-92 | exactly the keys from the bound on are dropped |
| `WalIndexes.DenseIndex.Clear` | src/wal_persister.cpp:94-98 | the empty map |
| `WalIndexes.EditKeepsTightIff` | src/wal_persister.cpp:41-92 | from a range whose ends are live, an operation keeps it so if and only if a truncation does not stop at a hole: from - 1, or before, inside the range and not live |
| `WalIndexes.TightThroughoutIff` | src/wal_persister.cpp:703-706 | over any sequence of operations the reported range is that of the live keys throughout if and only if none of them stopped at a hole |
| `WalIndexes.EditIsApply` | src/wal_persister.cpp:41-92 | on the map of live keys each vector operation is the plain map update or truncation |
| `WalIndexes.RangeEndsInHoles` | src/wal_persister.cpp:82-92 | put 1, put 5, truncate from 4: the range reads 1 to 3 and only 1 is live |
| `WalIndexes.RangeOfHoles` | src/wal_persister.cpp:65-92 | put 1, put 5, truncate below 3 and from 5: the range reads 3 to 4 and nothing is live |
| `WalRecovery.LastTouchDecides` | src/wal_persister.cpp:1200-1226 | replay from two states agrees at an index as soon as some record touches it |
| `WalRecovery.ReplayAbsorbsPrefix` | src/wal_persister.cpp:329-333 | replaying a block over a state that already has any prefix of it changes nothing |
| `WalRecovery.CheckpointRescanIsFullReplay` | src/wal_persister.cpp:316-373 | a checkpoint taken anywhere in a segment plus a rescan of that segment from its first record equals full replay |
| `WalRecovery.StepKeepsInv` | src/wal_persister.cpp:1623-1670 | appends, truncations, flushes, rotations, syncs with or without checkpoint, and crashes keep index and checkpoints equal to replays |
| `WalRecovery.RecoveryEqualsFullReplay` | src/wal_persister.cpp:1463-1579 | in every history the index after each recovery is the replay of every flushed record from empty, whether or not the newest checkpoint loads |
| `WalRecovery.SyncedSurvivesCrash` | src/wal_persister.cpp:549-565 | a process crash right after a sync loses nothing |
| `WalDurability.SyncIsDurableIff` | src/wal_persister.cpp:1242-1268 | right after a sync a power failure takes nothing if and only if every rotation so far found an empty buffer and a forced-out segment: rotation closes a segment without forcing it out and Sync only reaches the active one |
| `WalDurability.RotationLeavesRecordsBehind` | src/wal_persister.cpp:1343-1364 | ten thousand appends, a rotation and a successful sync after which a power failure may take all ten thousand |
| `WalDurability.StepKeepsClosedSynced` | src/wal_persister.cpp:1242-1268 | a step keeps the closed segments forced out if and only if it does not rotate over pending records |
| `WalDurability.LosesNothingIffSynced` | src/wal_persister.cpp:1343-1364 | no power failure loses a record if and only if every segment was forced out in full |
| `WalDurability.HistoryGrows` | src/wal_persister.cpp:316-373 | across process crashes, segments and their forced-out prefixes only ever grow |
| `WalDurability.DurableStaysDurable` | src/wal_persister.cpp:1343-1364 | what no power failure could take at one time, none can take later |
| `WalDurability.RecoversSurvivorsIff` | src/wal_persister.cpp:316-373 | after a power failure, checkpoint plus rescan equals the full replay of what survived if and only if the checkpoint disagrees with the surviving older segments only at indices the rescan touches |
| `WalDurability.RecoversAfterPowerFailure` | src/wal_persister.cpp:1463-1579 | while every rotation found an empty buffer and a forced-out segment, recovery after any power failure is the full replay of what survived, whichever checkpoint loads |
| `WalDurability.HistoryKeepsSynced` | src/wal_persister.cpp:549-565 | a checkpoint never covers more of its own segment than was forced out |
| `WalDurability.CheckpointOutlivesRecord` | src/wal_persister.cpp:1242-1268 | an append, a rotation over it, a sync with a checkpoint and a power failure: the recovered index points at a record no file holds |
| `WalFormat.DecodeEncode` | src/wal_persister.cpp:1307-1341 | fixed-width integers decode to what was encoded |
| `WalFormat.LastOctetWeighsMost` | src/wal_persister.cpp:1307-1341 | integers are little-endian: an octet further on weighs more than all before it, and a width bounds its values |
| `WalFormat.FrameReadsBack` | src/wal_persister.cpp:1307-1341 | a framed record reads back from any place in a file |
| `WalFormat.ScanReadsArea` | src/wal_persister.cpp:1098-1240 | scanning a record area yields its records and stops exactly behind the last whole one |
| `WalFormat.TornTailScan` | src/wal_persister.cpp:1098-1240 | scanning any byte prefix of a record area yields exactly the records that fit whole and reports the end of the last one as the cut unless the prefix ends there |
| `WalFormat.WholeInIsMost` | src/wal_persister.cpp:1098-1240 | the count of whole records is exact: those fit and the next does not |
| `WalFormat.SealedScan` | src/wal_persister.cpp:1080-1096 | a flushed segment scans to its trailer's word and yields all its records without a cut |
| `WalFormat.RepairedRescan` | src/wal_persister.cpp:1407-1434 | truncating at the cut keeps the whole records, writes a readable trailer, and the rescan is clean |
| `WalFormat.OpenTornIff` | src/wal_persister.cpp:392-404 | opening a segment left by a torn flush succeeds if and only if the prefix is empty or ends inside a record; ending between two records nothing is repaired and Open fails |
| `WalFormat.CutBetweenRecordsFails` | src/wal_persister.cpp:392-404 | two records cut at the end of the first: the segment does not open |
| `WalFormat.ReadFrame` | src/wal_persister.cpp:1134-1198 | field by field reading with its bounds and checksum tests accepts exactly the frames the format allows |
| `WalFormat.ScanLoop` | src/wal_persister.cpp:1098-1240 | the loop over a file's bytes yields what the scan function yields |
| `WalPlacement.PlacedAppended` | src/wal_persister.cpp:1307-1341 | an appended record is placed at its segment's logical end, buffered bytes included |
| `WalPlacement.TypeOctets` | include/rollingraft/wal_persister.h:30-34 | the type field of each kind of record as its two octets stand in the file |
| `WalPlacement.ReplayPoints` | src/wal_persister.cpp:1200-1226 | replaying placements keeps the index pointing exactly at the live entries |
| `WalPlacement.AllSit` | src/wal_persister.cpp:1270-1303 | every record of every segment sits at its place in that segment's bytes |
| `WalPlacement.IndexPointsAtLive` | src/wal_persister.cpp:1200-1226 | the index rebuilt by replay points exactly at the live entries |
| `WalStores.LocationReads` | src/wal_persister.cpp:836-907 | in every valid store an index has a location if and only if it is live, and reading there gives the live entry |
| `WalStores.WalStore.constructor` | src/wal_persister.cpp:987-1015 | a fresh log has no entries |
| `WalStores.WalStore.Flush` | src/wal_persister.cpp:1270-1303 | the buffer reaches the file behind the old end, under a fresh trailer; live entries stay |
| `WalStores.WalStore.RotateIfNeeded` | src/wal_persister.cpp:1242-1268 | live entries survive a rotation, after which the segment has room |
| `WalStores.WalStore.Append` | src/wal_persister.cpp:459-547 | an entry or truncation record changes the live map by exactly that; an oversized one changes nothing and is refused |
| `WalStores.WalStore.AppendToBuffer` | src/wal_persister.cpp:1307-1341 | framing into the buffer, flushing at the watermark and indexing keep files, buffer and index in step |
| `WalStores.WalStore.WriteRecord` | src/wal_persister.cpp:1307-1341 | the record is framed behind what is buffered and indexed at that place |
| `WalStores.WalStore.UpdateIndex` | src/wal_persister.cpp:484-488 | the index changes as replay of that record would change it |
| `WalStores.WalStore.GetEntry` | src/wal_persister.cpp:708-722 | the latest appended, untruncated entry at the index, read from the files, or nothing |
| `WalStores.WalStore.ReadEntry` | src/wal_persister.cpp:836-907 | seek, read, check and parse give the live entry |
| `WalStores.WalStore.GetEntries` | src/wal_persister.cpp:724-761 | the live entries of the range in order, holes skipped |
| `WalStores.WalStore.ReadRange` | src/wal_persister.cpp:738-758 | clamping to the index range loses no live entry |
| `WalStores.WalStore.ReadSlots` | src/wal_persister.cpp:746-758 | the loop over slots returns the live entries of the range |
| `WalReopening.ScanReplays` | src/wal_persister.cpp:1098-1240 | scanning the bytes of a segment into an index is the replay of its records at their places, and stops behind them at the scan's end or at a bad frame |
| `WalReopening.ScanSegment` | src/wal_persister.cpp:1098-1240 | the scanning loop changes the index exactly as the scan function says, and reports unreadable payloads |
| `WalReopening.ApplyFrame` | src/wal_persister.cpp:1200-1226 | one record's effect on the index, or a report that its payload does not parse |
| `WalOpenings.Open` | src/wal_persister.cpp:316-425 | whatever whole records the files read as, from a checkpoint of any segment or from nothing: the rebuilt index is their full replay and points at the live entries in the repaired files, which scan clean from then on; it succeeds if and only if the active segment has a trailer, is a bare header or gets a trailer in its repair |
| `WalOpenings.OpenAll` | src/wal_persister.cpp:334-373 | the loop over the segments scans and repairs each from the covered one on |
| `WalOpenings.OpenOne` | src/wal_persister.cpp:352-372 | one segment: scanned into the index, cut and sealed at a bad frame |
| `WalOpenings.ReadsScan` | src/wal_persister.cpp:1098-1240 | a file that reads as some records scans to their replay with the cut behind them |
| `WalOpenings.RepairedReads` | src/wal_persister.cpp:1407-1434 | a repaired file reads as the same records, with no cut and a readable trailer |
| `WalOpenings.FilesPoint` | src/wal_persister.cpp:836-907 | the replayed index points exactly at the live entries in the files |
| `WalTears.TornFlushReads` | src/wal_persister.cpp:1270-1303 | a flush stopped after any octet, over an old trailer or not, leaves a file that reads as whole records from the segment's start |
| `WalTears.FlushedSurviveTearIff` | src/wal_persister.cpp:1270-1303 | the records flushed before are among them if and only if no trailer can be read that names an earlier end |
| `WalTears.TornTrailerHidesRecord` | src/wal_persister.cpp:1278-1303 | one octet of a flush over the old trailer makes it read as end 0: the record flushed before is gone and the segment opens all the same |
| `WalTears.TornLogReads` | src/wal_persister.cpp:316-425 | the files a torn flush leaves, closed segments included, read as the log with its last segment cut to whole records, so Open rebuilds exactly that |
| `WalTears.HeldReads` | src/wal_persister.cpp:1080-1096 | a finished segment reads as its records, needs no repair and is accepted |
| `WalTears.UntornIsFlushed` | src/wal_persister.cpp:1270-1303 | the flush that does not stop is the flush of the live log |
| `WalTears.MovesKeepBoundary` | src/wal_persister.cpp:1270-1341 | flushing, rotating and buffering keep the end of the last flush between two records |
| `GroupCommits.RegisterKeepsValid` | src/group_commit_controller.cpp:31-51 | epochs stay consecutive above the durable one; registration is refused exactly when unhealthy |
| `GroupCommits.AcquireCoversPending` | src/group_commit_controller.cpp:53-75 | an acquired range runs from the first waiting epoch to the last: all of them and nothing else |
| `GroupCommits.SucceedSettlesRange` | src/group_commit_controller.cpp:77-120 | a success settles exactly the epochs up to the acquired end, fires their callbacks in order and leaves the rest |
| `GroupCommits.LateEpochWaits` | src/group_commit_controller.cpp:31-51 | an epoch registered during a sync is not settled by it |
| `GroupCommits.FailKeepsValid` | src/group_commit_controller.cpp:122-157 | a failed sync leaves a consistent controller |
| `GroupCommits.GroupCommitController.constructor` | src/group_commit_controller.cpp:23-29 | a fresh controller |
| `GroupCommits.GroupCommitController.RegisterFlushedBatch` | src/group_commit_controller.cpp:31-51 | new state and epoch as functions of the old state |
| `GroupCommits.GroupCommitController.AcquireSyncRange` | src/group_commit_controller.cpp:53-75 | new state and range as functions of the old state |
| `GroupCommits.GroupCommitController.OnSyncSuccess` | src/group_commit_controller.cpp:77-120 | the popping loop settles what SucceedSettlesRange describes |
| `GroupCommits.GroupCommitController.OnSyncFailure` | src/group_commit_controller.cpp:122-157 | all waiting epochs are dropped with their callbacks to fire, and the controller stays unhealthy |
| `LogPersistence.AcknowledgedIsDurable` | src/log_persister.cpp:416-473 | in every interleaving of appender, flush thread and sync thread an OK callback means its entry was written before the start of a sync that returned OK |
| `LogPersistence.CallbackIsInOnePlace` | src/log_persister.cpp:478-646 | at every point each callback is in exactly one of buffer, batch in hand, waiting epoch or fired, so none fires twice, on the disk-full, write-failure, registration and sync-failure paths too |
| `LogPersistence.NoGoodNewsAfterFailure` | src/group_commit_controller.cpp:122-157 | after one failed sync no later step of the run acknowledges anything |
| `LogPersistence.StepConserves` | src/log_persister.cpp:478-646 | each step of either thread moves callbacks without losing or copying one |
| `LogPersistence.StepKeepsAcks` | src/log_persister.cpp:416-473 | each step keeps: fired OK implies durable, and the range in sync was written before it began |
| `LogPersistence.BacklogInOrderIff` | src/log_persister.cpp:500-552 | up to any point of a run the batch in hand and the buffer are in append order if and only if no batch was put back, for lack of space or after a failed write, while newer entries were in the buffer |
| `LogPersistence.StepKeepsOrderIff` | src/log_persister.cpp:478-646 | one step keeps that order if and only if it is no such put-back |
| `LogPersistence.PutBackOvertaken` | src/log_persister.cpp:500-517 | append, take, append, no space: the first entry now waits behind the second |
| `PersisterLaws.KeptIffAccepted` | src/log_persister.cpp:478-646 | in every run the entries buffered, in hand or written are exactly those whose append was not turned away: no failure loses one |
| `PersisterLaws.StepKeepsEntries` | src/log_persister.cpp:478-646 | every step keeps that set, and an append adds to it exactly when it is accepted |
| `PersisterLaws.FlushedIsWritten` | src/log_persister.cpp:178-199 | when nothing is buffered and no batch is in hand, what a flush waits for, exactly the accepted entries are in storage |
| `PersisterLaws.BadNewsHasCause` | src/log_persister.cpp:478-646 | as long as no write, no sync and no append failed, nobody is told of a failure, also when space was short |
| `PersisterLaws.UnhealthyIff` | src/log_persister.cpp:123-149 | the persister is unhealthy if and only if some failure was followed by no successful write and no append that found space |
| `PersisterLaws.NoneLeftWaiting` | src/group_commit_controller.cpp:122-157 | at no point of a run does a callback wait on a failed controller, or on any without group commit |
| `PersisterLaws.EveryoneIsAnswered` | src/log_persister.cpp:394-473 | from any point of any run, without further appends and failures the two threads come to rest with every callback told, OK if and only if no group sync had failed |
| `AckDurability.AcknowledgedSurvivesIff` | src/log_persister.cpp:416-473 | over every run of the persister on top of the write-ahead log, an entry acknowledged OK is in the log and survives every power failure if and only if no rotation closed its segment between its writing and the first sync after it |
| `AckDurability.LeftBehindIff` | src/wal_persister.cpp:1242-1268 | a record in the log is left behind, in a closed segment and not forced out, if and only if some rotation passed over it while it was pending |
| `AckDurability.EventKeepsInv` | src/log_persister.cpp:478-646 | every step keeps: whatever waits or was told OK is in the log, nothing on its way there was, and whoever is told OK has a record no longer pending |
| `AckDurability.FateOfRecord` | src/wal_persister.cpp:1242-1364 | what a step makes of a record: a sync forces out the active segment, a rotation leaves pending records behind, nothing else moves one |
| `AckDurability.AcknowledgedIsLost` | src/wal_persister.cpp:1242-1268 | a batch of one entry more than a segment takes: all are acknowledged and a power failure may take the first |
| `Sha256.WordsReorder` | src/state_persister.cpp:60-85 | the schedule and round sums in the code's order equal those of section 6.2 of FIPS 180-4 on 32-bit words |
| `Sha256.FillSchedule` | src/state_persister.cpp:61-71 | the two loops fill the message schedule of section 6.2 |
| `Sha256.CompressRound` | src/state_persister.cpp:32-50 | one round by shifting eight variables is the round function of section 6.2, whose parts the Bit lemmas fix bit by bit |
| `Sha256.ProcessChunk` | src/state_persister.cpp:60-85 | one block through schedule and sixty-four rounds is the compression function that CompressedAbc and DigestOfAbc pin to the standard |
| `Sha256Standard.ConstantsAreRoots` | src/state_persister.cpp:19-27 | each of the sixty-four round constants is the first 32 bits of the fractional part of the cube root of the next prime, section 4.2.2 |
| `Sha256Standard.InitialWordsAreRoots` | src/state_persister.cpp:53-54 | the eight initial words are those of the square roots of the first eight primes, section 5.3.3 |
| `Sha256Standard.PrimeIffSieved` | src/state_persister.cpp:19-27 | up to 311 a number is prime if and only if no prime up to 17 divides it |
| `Sha256Standard.RotatedBit` | src/state_persister.cpp:30-30 | bit i of a word rotated right by n is bit i + n of the word |
| `Sha256Standard.BigSigma0Bit` | src/state_persister.cpp:38-38 | each bit of the sum over a is the parity of three bits of a, section 4.1.2 |
| `Sha256Standard.BigSigma1Bit` | src/state_persister.cpp:35-35 | each bit of the sum over e is the parity of three bits of e |
| `Sha256Standard.SmallSigma0Bit` | src/state_persister.cpp:68-68 | each bit of the first schedule sum, its shifted part included |
| `Sha256Standard.SmallSigma1Bit` | src/state_persister.cpp:69-69 | each bit of the second schedule sum |
| `Sha256Standard.ChoiceBit` | src/state_persister.cpp:36-36 | each bit of Ch is chosen by the bit of e |
| `Sha256Standard.MajorityBit` | src/state_persister.cpp:39-39 | each bit of Maj is the majority of three |
| `Sha256Standard.OctetsOfWord` | src/state_persister.cpp:62-66 | a word read from four octets has the first as its most significant |
| `Sha256Standard.WordOfOctets` | src/state_persister.cpp:127-132 | writing a word out as octets and reading them back gives the word |
| `Sha256Example.CompressedAbc` | src/state_persister.cpp:60-85 | the compression of the padded block of abc is the hash value of the standard's one-block example |
| `Sha256Example.DigestOfAbc` | src/state_persister.cpp:135-140 | each octet of the digest of abc is that of the one-block example |
| `Sha256Streams.PaddingFillsBlocks` | src/state_persister.cpp:113-133 | the padding of section 5.1.1 fills whole blocks with fewer than 64 zero octets |
| `Sha256Streams.FoldInTwo` | src/state_persister.cpp:89-111 | hashing whole blocks in two goes is hashing them in one |
| `Sha256Streams.FinishInOne` | src/state_persister.cpp:113-133 | up to 55 buffered octets, one last block gives the padded message |
| `Sha256Streams.FinishInTwo` | src/state_persister.cpp:113-133 | from 56 on, two last blocks give it |
| `Sha256Streams.Sha256Context.constructor` | src/state_persister.cpp:87-87 | a context that has absorbed nothing |
| `Sha256Streams.Sha256Context.TopUp` | src/state_persister.cpp:92-101 | completing a begun block absorbs exactly what was copied |
| `Sha256Streams.Sha256Context.WholeBlocks` | src/state_persister.cpp:102-105 | whole blocks are absorbed straight from the data |
| `Sha256Streams.Sha256Context.Update` | src/state_persister.cpp:89-111 | any piece of any length is appended to the absorbed message |
| `Sha256Streams.Sha256Context.Final` | src/state_persister.cpp:113-133 | the digest of everything absorbed, length field wrapped at 64 bits |
| `Sha256Streams.Sha256Context.LengthOctets` | src/state_persister.cpp:122-125 | the bit length as eight octets, most significant first |
| `Sha256Streams.HashPieces` | src/state_persister.cpp:135-140 | any sequence of updates and a final equals hashing the concatenation |
| `Sha256Streams.ComputeSha256` | src/state_persister.cpp:135-140 | init, update and final on the real words give the digest |
| `SnapshotStores.SnapshotStore.constructor` | src/state_persister.cpp:166-189 | an empty store |
| `SnapshotStores.SnapshotStore.SaveSnapshot` | src/state_persister.cpp:241-276 | one batch replaces the committed snapshot or leaves it; chunk keys of an older one may stay behind unharmed |
| `SnapshotStores.SnapshotStore.SaveSnapshotStream` | src/state_persister.cpp:323-423 | the concatenated chunks become the committed snapshot; any fault, wherever it strikes, leaves the old one |
| `SnapshotStores.SnapshotStore.Stage` | src/state_persister.cpp:335-356 | the staging loop holds the concatenation under temporary keys and hashes it on the way |
| `SnapshotStores.SnapshotStore.Swap` | src/state_persister.cpp:383-409 | one batch drops the old snapshot and moves the staged chunks |
| `SnapshotStores.SnapshotStore.LoadSnapshotStream` | src/state_persister.cpp:425-502 | for any keys whatever, missing metadata or a hash that does not match is an error, otherwise the stored bytes, chunk by chunk up to the count or the first gap, with index and term; and after any saves exactly the committed snapshot |
| `SnapshotStores.SnapshotStore.ReadChunks` | src/state_persister.cpp:466-489 | the chunk loop reads exactly the leading chunks that are there, up to the stored count, and their digest |
| `SnapshotStores.SnapshotStore.LoadChunks` | src/state_persister.cpp:441-502 | the chunked format, for any keys |
| `SnapshotStores.SnapshotStore.LoadSnapshot` | src/state_persister.cpp:278-321 | the single-value format, for any keys |
| `SnapshotStores.LoadsCommitted` | src/state_persister.cpp:425-502 | where the keys represent a committed snapshot, any load that follows the rules returns it |
| `SnapshotStores.LoadedIsIntact` | src/state_persister.cpp:490-500 | a loaded snapshot with a stored hash has that hash as its digest |
| `SnapshotStores.Try` | src/state_persister.cpp:241-423 | one save, whole or streamed, commits its snapshot or leaves the last one |
| `SnapshotStores.SaveAllThenLoad` | src/state_persister.cpp:241-502 | with SHA-256 on 32-bit words, after any sequence of whole, streamed, failed and interrupted saves a load returns the last committed snapshot |
| `SnapshotTransfers.ReassemblyCompleteIff` | src/rpc_handlers.cpp:713-744 | for every sequence of chunks, write outcomes and restores: a file handed over is the complete snapshot, whatever its octets, if and only if each of its chunks since offset 0 went in exactly once, failed tries and losses at close included |
| `SnapshotTransfers.InOrderIff` | src/rpc_handlers.cpp:713-744 | consecutive chunks lay down the snapshot's octets in order if and only if each was laid down once |
| `SnapshotTransfers.LaidOnceIff` | src/rpc_handlers.cpp:713-727 | the tries of one chunk add up to that chunk if and only if one of them put all of it and the others nothing, or it is empty |
| `SnapshotTransfers.ShowsEveryIff` | src/rpc_handlers.cpp:713-744 | a layout shows every octet string of the size unchanged if and only if it is each position once in order |
| `SnapshotTransfers.WholeWritesComplete` | src/rpc_handlers.cpp:644-752 | when writes are whole, every drop, repetition, reordering and mixing of chunks leads to complete files only |
| `SnapshotTransfers.SignalsKeepOk` | src/rpc_handlers.cpp:644-752 | the expected offset is the sum of the accepted chunks in every state |
| `SnapshotTransfers.MisplacedEndsTransfer` | src/rpc_handlers.cpp:689-710 | a chunk no transfer awaits ends the one in progress: until a first chunk arrives nothing is received and no further file is handed over |
| `SnapshotTransfers.WriteKeeps` | src/rpc_handlers.cpp:713-727 | the file on disk keeps showing exactly what the tries put there, on all four outcomes of a write |
| `SnapshotTransfers.SnapshotReceiver.constructor` | src/raft_group.h:207-219 | no transfer in progress |
| `SnapshotTransfers.SnapshotReceiver.HandleChunk` | src/rpc_handlers.cpp:644-752 | new receive state as a function of the old one, the chunk and what its write did; a file being restored is not touched |
| `SnapshotTransfers.SnapshotReceiver.Begin` | src/rpc_handlers.cpp:662-683 | an offset-0 chunk starts the transfer over in a truncated file |
| `SnapshotTransfers.SnapshotReceiver.Open` | src/rpc_handlers.cpp:662-681 | the fresh temporary file, or one that cannot be created |
| `SnapshotTransfers.SnapshotReceiver.Continue` | src/rpc_handlers.cpp:713-744 | a chunk at the expected offset is appended |
| `SnapshotTransfers.SnapshotReceiver.Reset` | src/rpc_handlers.cpp:689-710 | an unexpected chunk drops the transfer but not a file being restored |
| `SnapshotTransfers.SnapshotReceiver.AppendChunk` | src/rpc_handlers.cpp:713-744 | appending and bookkeeping together |
| `SnapshotTransfers.SnapshotReceiver.PutOctets` | src/rpc_handlers.cpp:714-726 | the file grows by what the write put there |
| `SnapshotTransfers.SnapshotReceiver.MarkWritten` | src/rpc_handlers.cpp:727-744 | a write that reports success moves the expected offset, and the last chunk hands the file over |
| `SnapshotTransfers.SnapshotReceiver.FinishRestore` | src/rpc_handlers.cpp:747-760 | the restored file goes |
| `SnapshotTransfers.ReceiveAll` | src/rpc_handlers.cpp:644-752 | each file restored has exactly the octets its accepted chunks laid down, and is the snapshot of its index and term whenever each chunk went in once |
| `SnapshotTransfers.TransferWhole` | src/snapshot_manager.cpp:432-451 | the leader's chunks in order deliver the snapshot, the empty one and exact multiples of the chunk size included |
| `SnapshotTransfers.FailedWriteGoesUnnoticed` | src/rpc_handlers.cpp:713-727 | a continuation chunk whose write fails after one octet and is sent again: the file handed over is not the snapshot |
| `SnapshotTransfers.LossAtCloseGoesUnnoticed` | src/rpc_handlers.cpp:714-726 | a chunk lost when the stream closes, after its state was read: a short file is handed over |
| `ApplyRuns.MissingEntryIff` | src/state_machine_applier.cpp:10-21 | in every run, commit advance meets a missing entry, and aborts, if and only if there is something to enqueue and a compaction beyond last_enqueued was applied with no snapshot installed since |
| `ApplyRuns.ReachesIff` | src/snapshot_manager.cpp:162-191 | every index in (last_enqueued, commit_index] can still be looked up if and only if no compaction beyond last_enqueued was applied since the last install |
| `ApplyRuns.StepKeepsReachIff` | src/snapshot_manager.cpp:162-191 | one step keeps that if and only if it is no such compaction; an install restores it |
| `ApplyRuns.MissingEntryAborts` | src/state_machine_applier.cpp:14-21 | a run to the abort: a snapshot installed under a batch that ends beyond it, a compaction at the index then published, and one more commit |
| `ApplyRuns.NeverAborts` | src/state_machine_applier.cpp:10-21 | with snapshots taken at or below the applied index no run aborts, unless a snapshot was installed under a batch ending beyond it |
| `ApplyRuns.SnapshotUnharmedIff` | src/rpc_handlers.cpp:747-836 | a snapshot restored and later installed: once the thread has put down what it had in hand, the machine is the snapshot plus what it was given since the restore, and last_applied is where the batch ended; both are as the snapshot left them if and only if the thread handed over nothing between restore and install and what it still had held only configuration changes and ended at the snapshot |
| `ApplyRuns.UntouchedIff` | src/state_machine_applier.cpp:127-190 | a restored machine is as it was restored if and only if no task was handed over since |
| `ApplyRuns.InstallUnderBatch` | src/state_machine_applier.cpp:123-194 | a run with a batch in hand at the install: the machine restored at 5 is given entry 1 and last_applied falls to 1 |
| `ApplyRuns.BatchDuringRestore` | src/rpc_handlers.cpp:747-836 | a run with an idle thread at the install: the batch was applied and published after the restore, and the machine restored at 5 was given entry 1 |
| `ApplyRuns.RepeatedSnapshotRewinds` | src/rpc_handlers.cpp:754-796 | a run in which the snapshot at 5 arrives again after entry 6 was applied: the machine goes back to 5, the install is skipped, and last_applied stays 6 with nothing queued |
| `ApplyRuns.CourseHolds` | src/state_machine_applier.cpp:123-194 | while a batch is in hand and nothing is restored or installed, machine plus what is left of the batch, and the index it will publish, do not change |
| `ApplyRuns.InStepIff` | src/rpc_handlers.cpp:747-836 | in every run, whenever no snapshot is between its restore and its install, the machine has exactly what the node counts as processed, all along, if and only if every install was clean: applied with nothing handed over since the restore and nothing left in hand, or skipped with only configuration changes between the snapshot and where the thread stood at the restore |
| `ApplyRuns.StepKeepsGoodIff` | src/state_machine_applier.cpp:103-210 | one step keeps machine, batch and queue in step if and only if it is no unclean install |
| `ApplyRuns.CaughtUp` | src/state_machine_applier.cpp:103-210 | at rest after a clean install or a restart, with no unclean install since: the machine was given exactly the data of the committed log entries beyond its snapshot, in order and once each, save those that begin with CONFIG_CHANGE:, and last_applied is the last of them |
| `ApplyRuns.CaughtUpWithLog` | src/state_machine_applier.cpp:103-210 | with no compaction into what was enqueued, the machine was given exactly what the present log holds between its snapshot and last_applied, save configuration changes |
| `ApplyRuns.EnqueuedAreEntries` | src/state_machine_applier.cpp:10-101 | at every point of a run the tasks enqueued are those of the entries the log held when they were committed |
| `ApplyRuns.DeliveredIsHanded` | src/state_machine_applier.cpp:127-190 | of those tasks the machine receives exactly the data of the entries that do not begin with CONFIG_CHANGE: |
| `ApplyRuns.AllProcessed` | src/state_machine_applier.cpp:103-210 | at rest everything enqueued was processed |
| `ApplyRuns.EntriesStillHeld` | src/state_machine_applier.cpp:10-101 | what was enqueued beyond the log's start is still in the log, entry by entry, unless a truncation cut into it |
| `ApplyRuns.RunKeepsGood` | src/state_machine_applier.cpp:103-210 | under the same condition machine, rest of the batch and queue add up to everything enqueued at every point |
| `ApplyRuns.InstallStartsOver` | src/rpc_handlers.cpp:785-836 | an applied install leaves machine and indices in step if and only if nothing was handed over since the restore and the thread has nothing beyond the snapshot in hand and stands at it |
| `ApplyRuns.CommitFallsAfterCompaction` | src/rpc_handlers.cpp:502-507 | commit, apply, compact, then hear of a later commit: commit_index falls to 0 because an emptied log reports 0 |
| `Appliers.AdvanceAbortsIff` | src/state_machine_applier.cpp:10-21 | from any state in shape, commit advance aborts if and only if there is something to enqueue and the entry after last_enqueued is before the log's start |
| `Appliers.EnqueuesAll` | src/state_machine_applier.cpp:10-101 | otherwise the loop enqueues exactly the entries of (last_enqueued, commit_index], in order |
| `Appliers.TasksAreConsecutive` | src/state_machine_applier.cpp:87-99 | their indices are consecutive |
| `Appliers.StepKeepsShape` | src/state_machine_applier.cpp:10-210 | every step of raft thread and apply thread keeps log, queue and batch in index order |
| `Appliers.CommitNeverFallsIff` | src/rpc_handlers.cpp:502-507 | the commit rule never lowers commit_index if and only if the log still reaches it |
| `Appliers.Applier.constructor` | src/raft_node_core.cpp:110-135 | a restart: all indices at the restored snapshot, the persisted entries behind it in the log, the membership given |
| `Appliers.Applier.AdvanceCommit` | src/rpc_handlers.cpp:502-507 | queue and indices as the function of the run lemmas, the abort included, and the configuration after the configuration changes among exactly the entries enlisted |
| `Appliers.Applier.ApplyCommitted` | src/state_machine_applier.cpp:10-101 | the loop enqueues as the enqueue function does, the abort included, and leaves the configuration that applying the configuration changes of exactly the entries due, in order, makes of the old one |
| `Appliers.Applier.Enqueue` | src/state_machine_applier.cpp:22-99 | one entry: its task, a dummy for a configuration change, and that change applied |
| `Appliers.LoopReconfigures` | src/state_machine_applier.cpp:10-101 | going through the entries index by index is applying the configuration changes among them in order |
| `Appliers.Applier.PopBatch` | src/state_machine_applier.cpp:115-121 | the popping loop takes the first min(64, size) of the queue |
| `Appliers.Applier.LoadApplied` | src/state_machine_applier.cpp:123-125 | last_applied is read after the queue was unlocked |
| `Appliers.Applier.ApplyNext` | src/state_machine_applier.cpp:127-190 | one task reaches the state machine unless it is superseded or a configuration change |
| `Appliers.Applier.Publish` | src/state_machine_applier.cpp:192-194 | last_applied becomes where the batch got to |
| `Appliers.Applier.ApplySnapshot` | src/snapshot_manager.cpp:162-191 | compaction is applied exactly when the snapshot is newer and the log ends at or before it |
| `Appliers.Applier.RestoreSnapshot` | src/rpc_handlers.cpp:747-760 | the machine is restored from a complete transfer, whatever the guards will say |
| `Appliers.Applier.InstallSnapshot` | src/rpc_handlers.cpp:785-836 | only then: the snapshot is applied exactly when it is newer than the last one and not behind the commit index; all indices move to it and the queue is cleared, and the machine is not touched |
| `Memberships.Membership.constructor` | include/rollingraft/raft_node.h:57-62 | starts from a given configuration |
| `Memberships.Membership.EraseLearners` | src/membership_manager.cpp:62-68 | exactly the listed ids leave the learners |
| `Memberships.Membership.ApplyConfigChange` | src/membership_manager.cpp:22-280 | the configuration after each kind of command, a malformed one and a JOINT with an unreadable second list included; CommandDecidesMember and the history lemmas say who is then a learner or voter |
| `Memberships.CommandDecidesMember` | src/membership_manager.cpp:22-280 | for every command and every id: it is a learner, a listed voter or an old voter afterwards if and only if the command makes it one, or it was one and the command does not end that |
| `Memberships.LearnerIff` | src/membership_manager.cpp:22-280 | along every sequence of commands an id is a learner if and only if it was enrolled, or began so, and has not been made a voter since |
| `Memberships.SeatedIff` | src/membership_manager.cpp:22-280 | it is on the voter list if and only if it was seated, or began so, and not removed or left out since |
| `Memberships.OldVoterIff` | src/membership_manager.cpp:22-280 | it votes by the old list if and only if a JOINT named it there and no FINALIZE or other JOINT has followed |
| `Memberships.VoterIff` | src/membership_manager.cpp:22-280 | it is a voter if and only if one of the two holds |
| `Memberships.OthersUnchanged` | src/membership_manager.cpp:84-275 | outside JOINT and FINALIZE an id the command does not name keeps its place in every list |
| `Memberships.VersionTellsChange` | src/membership_manager.cpp:22-280 | the version rises by at most one; if it stays, voters and mode stay and no learner is added; if it rises, the command was JOINT, FINALIZE or a removal, or someone joined |
| `Memberships.ProposalInPlaceIff` | src/raft_node_core.cpp:1289-1296 | a command proposed from one configuration fits the one it is applied to if and only if what it was read from is still in force there |
| `Memberships.CommandKeepsConfigOkIff` | src/membership_manager.cpp:43-275 | a command keeps learners and voters apart and old_nodes empty outside joint mode if and only if it does not name a present learner as a leaving voter |
| `Memberships.CommandRaisesVersion` | src/membership_manager.cpp:43-275 | versions never fall, and a changed voter list or mode has a larger one |
| `Memberships.SequenceKeepsConfigOkIff` | src/membership_manager.cpp:43-275 | over any sequence of commands, the same if and only if for all of them |
| `Memberships.NeighbouringMajoritiesMeet` | include/rollingraft/raft_node.h:107-117 | majorities of two lists that differ by one member share a voter |
| `Memberships.MajoritiesMeetIff` | include/rollingraft/raft_node.h:107-117 | all majorities of two voter lists, repeated ids allowed, share a voter if and only if the two majorities together exceed the number of distinct voters, or one of them cannot be had at all |
| `Memberships.PlainMeetIff` | src/election_manager.cpp:285-299 | two configurations outside joint mode always share an elector if and only if all their majorities do |
| `Memberships.MeetIffNoSplit` | src/election_manager.cpp:285-304 | for any two configurations, joint or not: election quorums always meet if and only if no division of the voters gives one to each |
| `Memberships.InPlaceMeets` | src/election_manager.cpp:285-299 | whoever could elect before a command that fits and whoever could elect after it have a voter in common |
| `Memberships.UpToDateLogMeets` | src/raft_node_core.cpp:1279-1296 | along a log whose commands were each proposed against the configuration they are applied to, neighbouring configurations always share an elector |
| `Memberships.LogMeetsIff` | src/election_manager.cpp:285-304 | along any sequence of configurations, neighbours always share an elector if and only if no pair of them can be split by a division of the voters |
| `Memberships.OverlappingChangesPart` | src/raft_node_core.cpp:1284-1322 | two changes proposed by successive leaders against one configuration: the two FINALIZE commands behind both leave neighbouring configurations with disjoint election quorums |
| `Memberships.RemovalTakesEffectIff` | src/raft_node_core.cpp:1369-1380 | a removal, applied and finalized, removes the member if and only if it was a voter; a learner stays |
| `Memberships.RemovedLearnerStays` | src/raft_node_core.cpp:1369-1380 | voter 1 and learner 2: removing 2, applied and finalized, leaves it a learner |
| `Memberships.AddingCountsAreJoint` | src/log_replicator.cpp:720-772 | while a member is added every commit quorum is a majority of both lists |
| `Memberships.OddRemovalIsNot` | src/log_replicator.cpp:720-772 | while a member leaves an odd voter list there is a commit quorum that is no majority of the remaining list |
| `Memberships.RemovalCountsAreJointIff` | src/log_replicator.cpp:720-772 | while a member is removed every commit quorum is a majority of both lists if and only if the old list has an even number of voters |
| `Sessions.ClientSessionManager.constructor` | src/client_session_manager.cpp:7-8 | no sessions |
| `Sessions.ClientSessionManager.Touch` | src/client_session_manager.cpp:122-128 | the session moves to the front; list and map keep the same ids, without repetition, by recency |
| `Sessions.ClientSessionManager.IsDuplicate` | src/client_session_manager.cpp:10-37 | a duplicate exactly when the session is retained and the number is at most the last recorded, answered with its result |
| `Sessions.ClientSessionManager.RecordResult` | src/client_session_manager.cpp:39-69 | the result is recorded; at capacity a new session pushes out exactly the least recent one |
| `Sessions.ClientSessionManager.EvictLRU` | src/client_session_manager.cpp:130-138 | exactly the last session of the list leaves |
| `Sessions.ClientSessionManager.EvictExpired` | src/client_session_manager.cpp:71-109 | exactly the expired sessions leave, and they are a tail of the list |
| `Sessions.OlderAreExpired` | src/client_session_manager.cpp:71-109 | under a monotone clock everyone behind an expired session is expired |
| `Sessions.TrimOne` | src/client_session_manager.cpp:82-106 | the walk removes the last session of the list at each turn |
| `Sessions.TouchKeepsOrder` | src/client_session_manager.cpp:122-128 | moving the session active now to the front keeps the list free of repeats and ordered by recency |

## Left out

- BecomeLeader: the re-proposal of FINALIZE by a new leader in joint mode is not part of the step; it is a Propose that may follow.
- Propose: session deduplication and the proposal and byte limits that refuse a proposal are not modelled; the session cache is treated on its own.
- HandleAppendEntriesResponse: the source creates progress entries for peers it does not track, the model ignores their answers.
- AnswerHead: as HandleAppendEntriesResponse.
- HandleHeartbeatResponse: read acknowledgements are not modelled, nor are untracked peers.
- TryCommit: requires that the leader is not in its own match_index, which NeverTracksItself proves of every run; the source would count it twice.
- CountHolders: as TryCommit.
- UpToDateLogMeets: a sufficient condition a proposer can see; LogMeetsIff is the exact one.
- CaughtUp: after an unclean install nothing is claimed until the next clean one; InStepIff says that the machine is then out of step at once.
- InStepIff: a machine restored from a snapshot older than the one the indices were last set to counts as out of step, also when only configuration changes lie between; the node has no record of those.
- TraceKeepsInv: put-backs that reorder the queue, failed writes and failed drains are not part of these runs; LogPersistence has the first two, LostTruncationIff the last.
- EarlierLogMayReturn: the mixture a failed truncation may leave is not among the logs of a restart; see LostTruncationIff.
- WalOpenings.Open: segment headers, file listing and the octets of a checkpoint file are not modelled; a checkpoint that does not load is the empty index from the first segment.
- Pre-vote, check-quorum step-down, leader lease and ReadIndex: they rest on wall-clock timing; step-down may happen at any time in the step system, and read heartbeats are sent as messages but their reads are not modelled.
- ApplyConfigChange: the edits to peer addresses and progress maps are not modelled, nor is the text of a command.
- ApplyCommitted: which command a configuration entry holds is given by a parsing function; the follow-up FINALIZE a leader proposes is a Propose of its own.
- CompactionCommutes: of requests that start at 0, those whose entries contradict the snapshot are not covered; InsideSnapshotRefused has those that start inside it.
- CatchesUp: the rounds are batches; HeartbeatRound is covered for refusals only, as an accepted heartbeat moves nothing.
- Membership changes during cluster runs: configurations and their quorums are treated on their own, not inside the step system.
- Log compaction inside the cluster theorems: it is covered for one node, by Compaction and by the apply queue.
- WALPersister::Replay, GarbageCollect, Close and meta.json: not part of recovery as modelled.
- Legacy JSON records, Base64 and the protobuf payload layout: payload parsing is a function that inverts printing.
- WalStore: write failures of the live log files are not modelled; the batch layer above models them as failing flushes.
- RotateIfNeeded, SyncIsDurableIff: rotation thresholds are those of the source in the live log; in the record-level histories a rotation may happen before any append.
- SaveSnapshotStream: chunks are hashed after staging rather than interleaved with it; the digest is the same by HashPieces. The 32-bit chunk counter does not wrap.
- Leader-side snapshot progress: the response carries no acceptance flag, so nothing is claimed from it.
- Automatic removal of dead nodes, automatic learner promotion, retry backoff, quiescing, metrics and logging: policy around the modelled core.
- Transport, TLS, client authorization, JSON protocol, and the LevelDB, hybrid and multi-group persisters: plumbing that delegates to what is modelled.
- Mutexes and their order: each critical section, or each handler, is one step.
