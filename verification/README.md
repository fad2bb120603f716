# Sawtooth Raft: a verified model of the consensus node and its storage

Sawtooth Raft puts the Raft library between a blockchain validator and a durable log. This project
models two halves of it and what joins them.

**The node.** `NodeSpec.dfy` describes the consensus node as a state machine: leader and follower
states, commit queue and backlog, peer map, disk. What the validator, the clock and the Raft library
contribute to a step is part of the step's input (`Turn`, `Update`, `TickInput`, `Ready`). Every
atomic action of the node (a service call, a call into Raft, a delivered entry, a pop, one file
operation) is appended to a *trace*. A crash point is any earlier stage of the trace, and `DiskAfter`
replays the file operations up to it. `Ledger.dfy` adds a trace up to ghost sequences: entries handed
over, blocks popped, commits requested, blocks marked as applied, blocks checked, validated, finalized
and proposed, membership changes proposed. `Effects.dfy`, `Deliveries.dfy`, `Readies.dfy` and
`Turns.dfy` say from the inputs alone what each handler, and each whole run, does action by action.
`Node.dfy`, `BlockQueue.dfy` and `Engine.dfy` hold the imperative form: the classes whose methods are
the handlers, and the engine loop. Each method is proved to take exactly the step of `NodeSpec`, or,
if a file operation fails under it, to panic with its trace at a crash point of that step.

**The storage.** `Files.dfy` has the data directory as a map from file names to values, with one
write or removal as the atomic step. `FsStorage.dfy` has the readers, the sequence of file operations
each mutator plans, and the class that performs them one by one and stops at the first failure.
`LogModel.dfy` has the log in memory that the storage stands for, `CrashPoints.dfy` what a crash
leaves, `TornRuns.dfy` what holds when later calls go on from there, `CacheSpec.dfy`,
`CacheHits.dfy` and `CachedStorage.dfy` the caches in front.

**The join.** `Durability.dfy` and `Cluster.dfy` follow a node over all its lives (crash anywhere,
restart from the files) and clusters of such nodes over one agreed log, `Permanence.dfy` what stays
over all these lives, `Redelivery.dfy` what the entries handed over again do to the peer map.
`Drain.dfy` and `Leading.dfy` say how followers and leaders get through their commit queues. `Counterexamples.dfy` has inputs for the properties that
hold under a condition only.

## What the environment is held to

* There is one agreed log, and a node is handed successive pieces of it starting right after the
  stored `applied` index (State Machine Safety, section 5.4.3 of the Raft paper): `NextPiece`.
* A `Ready` carries contiguous entries that start above the stored commit index and at most one past
  the last index, a commit index that never falls and stays within the log, and committed entries
  within the commit index persisted with them. What it commits beyond the stored commit index are
  entries of the agreed log (`LegalReady`, `CommitsAgreed`).
* Raft's role changes only in `step` and `tick`, and `has_ready` says yes when it changed since the
  last `ready`: `RoleReported`.

The run theorems of `NodeRuns.dfy` about commits, blocks and proposals need none of these.

## What turned out not to hold, and exactly when

* A filled entry cache answers `Ok([])` for every empty range, also where the storage refuses it: for
  bounds the wrong way round, and on an empty log. Over a session the answers differ exactly for such a
  range after an earlier `entries()` has succeeded (`SessionsAgree`, `FilledByReading`; an input:
  `CacheHidesEmptyLog`). The comment at src/cached_storage.rs:85-89 wants the storage to be asked after
  a reset; `reset` empties the entry cache but leaves it in place.
* The entry cache serves only until its first reset. Once a successful `entries()` has filled it and any
  mutation but `set_applied` has reset it, it stays in place empty, nothing is ever inserted again, and
  every range is read from the storage (`ResetForGood`; before that a repeated range is served exactly
  if it fits, `FirstRangeHits`).
* An append that overlaps the log is not atomic unless it changes nothing it overlaps, or keeps the
  last index and changes at most one entry (`AppendAtomicity`; an input: `AppendTearsLog`). Every index
  in first..=last stays readable all the same (`AppendStaysReadable`).
* Adding a peer whose raft id another peer has replaces that peer (`AdditionConverges`; an input:
  `AdditionDropsPeer`).
* After a restart the entries behind the applied index are handed over again, but the peer map starts
  from the setting on chain. The node panics exactly when, before any entry that makes it leave, one of
  them cannot be parsed or removes another peer that is absent at that point: not listed in the setting,
  or removed since, and not added since. Changes of term 1 do not count (`DeliveryPanics`,
  `RestartPanics`; a legal run of a cluster that ends this way: `RemovalPanicsAfterRestart`).
* A follower with valid blocks, served without new validations, empties its queue if and only if all
  queued ids are distinct; otherwise it stops in front of the first block whose id occurs earlier,
  because popping a block takes its backlog entry away (`RepeatedBlockStalls`, `NoTurnPassesRepeat`; an
  input: `RepetitionStalls`).

* A leader that waits for the block it proposed, and finds another block in front of its queue, commits
  nothing for as long as it leads, whatever is validated and delivered. It has a way on exactly when its
  queue is empty or has its proposal in front; losing leadership gets it on (`LeaderGetsOn`,
  `DeposedLeaderGetsOn`; an input: `LeaderStarves`).

## Model

| member | source | states |
|---|---|---|
| NodeRuns.CommitsFollowTheLog | src/node.rs:141-413 | over every run, whatever the order of updates, ticks, readies and role changes: the commit requests are the popped blocks followed by the one in flight, and popped blocks followed by the queue are exactly the non-empty normal entries delivered, in order |
| NodeRuns.EveryCrashPointIsSafe | src/node.rs:99-413 | at every point of every run: commits are requested once each and in log order, initialize_block calls alternate with finalize/cancel, each proposal is the last finalized block, validated since, no finalization is proposed twice, and proposals are a subsequence of finalizations |
| NodeRuns.MachineInvariant | src/node.rs:265-413 | exactly one of the leader and follower states is set; a block in flight is the front of the queue and valid in the backlog, so confirming it never pops an empty queue; openings = finalizations + cancellations + one exactly while building |
| NodeRuns.ProposesOnlyAsLeader | src/engine.rs:86-105 | at the head of every turn the node has a leader state exactly when Raft's role is leader, and propose and propose_conf_change were only called in that role |
| Turns.RunInOrder | src/engine.rs:86-105 | every action of a node from its start, in order, as a function of the turns: calls of the validator and of Raft, messages, file operations; and its peer map, values included, is what the membership changes of all entries handed over make of the setting it started on |
| Turns.RecordFollowsTurns | src/node.rs:99-240 | over every run, panicking ones too: blocks popped and marked are the blocks in flight whose confirmations came, changes proposed those the setting asked for when a leader's block was confirmed, blocks checked those announced, validated those reported, proposed those validated while unproposed, finished those built for the period |
| Turns.OnlyConfirmedBlocksSettle | src/node.rs:141-182 | after any run a turn pops and marks the block in flight, and makes its index the applied one, if and only if it brings the confirmation of exactly that block; otherwise nothing is popped, marked or applied |
| NodeRuns.OtherConfirmation | src/node.rs:141-182 | the confirmation of any other block changes nothing, in either role |
| Turns.BacklogFollowsTurns | src/block_queue.rs:62-94 | over every run a block is valid in the backlog if and only if a BlockValid for it came after it was last popped, and known if a BlockNew or BlockValid did |
| Turns.RunIsLogged | src/node.rs:174-318 | over every run the disk of the node stands for the log in memory with the same calls made on it: applied indexes, snapshots, entries, hard states |
| Turns.UpdateInOrder | src/engine.rs:120-131 | every action of an update in order, and exactly when it panics or stops the node |
| Turns.TickInOrder | src/node.rs:200-240 | a block is finished if and only if one has been built for at least the period and both answers come; it panics exactly if an answer that is asked for fails |
| Turns.RoleAsTold | src/node.rs:257-339 | the role is the one Raft told last, and after a ready there is a leader state exactly as leader |
| Effects.LeaderConfirmed | src/node.rs:141-167 | a leader whose block is confirmed settles it; if setting and peer map agree it opens a block, if they differ in one peer it proposes exactly that addition or removal and waits, otherwise it panics with nothing opened or proposed |
| Effects.FollowerConfirmed | src/node.rs:169-181 | a follower whose block is confirmed settles it and is idle |
| Deliveries.EntriesTakenUp | src/node.rs:348-378 | entries delivered to a node in any role: the whole peer map, values included, is what the changes make of it, a leader waiting for a change opens a block after the first, every other leader state stays, blocks are queued in order; it panics or stops exactly when an entry breaks or makes it leave |
| Readies.MessagesAreSent | src/node.rs:242-255 | each message goes to the peer filed under its raft id, in order and up to the first failure, which is the only way to panic |
| Readies.ReadySends | src/node.rs:257-346 | a ready sends exactly its messages to their peers up to the first failure; a follower whose snapshot is refused sends none |
| Readies.ReadyEnds | src/node.rs:257-388 | a ready panics if and only if a message fails, the snapshot is refused or the entries break, and stops if an entry makes the node leave before |
| Readies.ReadyInOrder | src/node.rs:257-388 | disk, peer map, queue, role and block in flight after a ready, and all its actions in order: a leader sends before it writes, a follower writes before it replies |
| Readies.RepliesFollowWrites | src/node.rs:299-346 | at every crash point of a follower's ready at which a reply has left, its entries and hard state are on the disk |
| Readies.ReadyIsLogged | src/node.rs:299-318 | after a ready the disk stands for the log in memory with the snapshot applied, the entries appended and the hard state set; a refused snapshot panics |
| Engine.ShutdownEnds | src/engine.rs:88-95 | a Shutdown stops a running node where it stands, and nothing that comes later has an effect |
| NodeRuns.PopSettles | src/block_queue.rs:90-94 | popping the block in flight leaves no request open and keeps popped + queue = delivered |
| NodeRuns.CommitFits | src/node.rs:391-413 | the block requested next is the first delivered block not yet requested, in either role |
| NodeRuns.RoleChangeFits | src/node.rs:265-339 | gaining or losing leadership keeps block in flight, queue and block building consistent |
| Ledgers.OrderlyProposals | src/node.rs:222-229 | if every proposal is the pending validated block, the proposals are a subsequence of the finalizations |
| Ledgers.HandedBlocks | src/node.rs:348-358 | the blocks accounted for are those of the non-empty normal entries delivered |
| Durability.MarksGrow | src/node.rs:146-151 | popping a prefix of the delivered blocks and marking the last one's index gives exactly the blocks of the log up to that index, and the index rises |
| Durability.FinishBlockIsSound | src/node.rs:174-180 | popping and marking keeps every crash point resumable and the marks equal to the log up to applied |
| Durability.CommittedEntriesAreReadable | src/fs_storage.rs:59-84 | on a resumable disk any committed entries above applied are read back exactly as they stand in the agreed log |
| Durability.FreshIsResumable | src/fs_storage.rs:335-342 | a freshly initialized storage can be resumed from, with nothing applied |
| Cluster.AppendIsResumable | src/node.rs:307-313 | after any prefix of the writes of an append above the commit index: applied <= commit <= last, the stored log complete, and its committed entries those of the agreed log |
| Cluster.PersistIsCrashSafe | src/node.rs:307-318 | the same for entries and hard state of a ready, with the commit index it leaves |
| Cluster.HandedPieceIsStored | src/config.rs:42-54 | on the disk of every sound running node, what a ready hands over next is what entries() answers for the indexes after those handed over already, once the ready is persisted |
| Cluster.TakeIsSound | src/engine.rs:86-105 | a whole turn keeps every crash point resumable and the marks equal to the log up to applied |
| Cluster.CrashPointsResume | src/config.rs:42-54 | whenever a node of a cluster crashes, at any point of any turn and after any earlier crashes: applied <= commit <= last, the stored log is complete, entries applied+1..=commit read back as in the agreed log, applied rose at every mark, reopening changes nothing, and the blocks marked over all lives are exactly those of the agreed log up to applied |
| Cluster.AdvanceIsSound | src/config.rs:42-54 | a turn, or a crash anywhere inside one and a restart from the files, keeps a machine sound |
| Cluster.NoForks | docs/source/introduction.rst:20-24 | after any cluster run with any crashes each node has marked exactly the blocks of the agreed log up to its applied index, which rose at every mark of its present life, and of two nodes one has marked a prefix of the other |
| Permanence.MarksLast | src/node.rs:141-181 | between any two stages of a cluster run, whatever turns, crashes and restarts lie between, a node keeps the blocks it has marked, in order, and its applied index never falls |
| Drain.FollowerWorks | src/node.rs:169-181 | for a follower with any queue and no deliveries, 2 * queue - in flight falls by one with each commit request and each confirmation and never rises; the queue is what is left of it and applied the last index taken off |
| Drain.FollowerDrains | src/node.rs:169-181 | with distinct valid blocks every ready while idle requests the front, the measure reaches zero exactly when the queue is empty, and then applied is the last queued index |
| Drain.ServingProgresses | src/node.rs:380-413 | serving a follower lowers the measure by one exactly when a block is in flight or the front is committable |
| Drain.NoTurnPassesRepeat | src/block_queue.rs:90-108 | without validations and deliveries no run gets past the first queued block whose id occurs earlier, and before it there is always a step to take |
| Drain.RepeatedBlockStalls | src/block_queue.rs:90-108 | serving a follower with valid blocks ends in front of the first block whose id occurs earlier in the queue: it empties the queue if and only if all ids are distinct |
| Leading.LeaderCommitsItsOwn | src/node.rs:391-404 | over every run in which Raft stays leader, a commit is requested if and only if in some turn the valid front of the queue is the block the leader proposed itself; until then nothing is popped or marked and the queue only grows by what is delivered |
| Leading.LeaderGetsOn | src/node.rs:391-404 | a leader waiting for its proposal has a run as leader in which it requests a commit exactly when the queue is empty or has the proposal in front; behind another block every run as leader leaves it waiting |
| Leading.DeposedLeaderGetsOn | src/node.rs:321-413 | once Raft has deposed it, the next ready requests the valid front whoever proposed it, and the node goes on as a follower the drain theorems apply to |
| ValidationOrder.OrderDoesNotMatter | src/node.rs:99-138 | two lists with the same BlockNew and BlockValid messages, in any order and repeated any number of times, give the same backlog, next committable block, leader state and proposals |
| ValidationOrder.StatusAfter | src/block_queue.rs:62-81 | the status of a block afterwards, from which notices came and not from their order |
| ValidationOrder.LeaderAfter | src/node.rs:119-138 | the leader proposes its unproposed block once if BlockValid for it is among the notices, and nothing else |
| LogModel.FsStorageRefinesLog | src/fs_storage.rs:124-231 | over every crash-free run of storage calls the files stand for the log in memory, where an overlapping append truncates, and every call answers like it |
| LogModel.ReadersAgree | src/fs_storage.rs:54-122 | entries for all arguments, term up to last, first, last, applied, snapshot, hard state and initial state answer as the log does, whatever stale files lie above last; above last term answers from a stale file or with the right error |
| LogModel.AppendRefines | src/fs_storage.rs:211-222 | append, overlapping or not, is truncate-and-extend |
| LogModel.CompactRefines | src/fs_storage.rs:186-209 | compact drops the entries up to the index and keeps its term as the base term |
| LogModel.CreateSnapshotRefines | src/fs_storage.rs:129-169 | create_snapshot checks, takes the term from the entry, keeps the old conf state if none is given |
| LogModel.ApplySnapshotRefines | src/fs_storage.rs:171-184 | apply_snapshot within the log compacts to its index and stores it, or fails as the log does |
| LogModel.InitializedIsFresh | src/fs_storage.rs:335-342 | the six initial writes make a directory without entries the empty log |
| CrashPoints.CompactCrashPoint | src/fs_storage.rs:193-206 | after any prefix of compact's file operations the visible log is the old one or the compacted one, switching at the second operation |
| CrashPoints.AppendCrashPoint | src/fs_storage.rs:211-222 | after any prefix of an append's file operations: the old log with the entries written so far mixed in, and the new log after the last |
| CrashPoints.AppendStaysReadable | src/fs_storage.rs:211-222 | at every crash point of every append each index in first..=last has a file holding that index |
| CrashPoints.AppendAtomicity | src/fs_storage.rs:211-222 | an append is atomic if and only if it changes no entry it overlaps, or keeps the last index and changes at most one |
| CrashPoints.InitializationRecovers | src/fs_storage.rs:240-247 | however often and wherever the first initialization is interrupted, reopening ends in the full fresh state |
| CrashPoints.OpeningInitializes | src/fs_storage.rs:240-247 | opening initializes exactly if the hard state is missing, or readable without a snapshot |
| CrashPoints.ReopeningKeepsEverything | src/fs_storage.rs:39-51 | once initialized, reopening at any crash point of any later calls changes nothing |
| TornRuns.TornRunsStand | src/fs_storage.rs:124-231 | from a new directory, however often its initialization was interrupted: over every run in which any calls are cut short after any file operation and later calls go on, the files stand for the log in memory put through the same torn steps, every completed call answers like it, and reopening changes nothing |
| TornRuns.TornReadersAgree | src/fs_storage.rs:54-122 | on such files entries for all arguments, term up to last and all other readers, hard state and initial state included, answer as that log with its leftovers does, despite stale files above it; the base has its term exactly when nothing was compacted, its entry was left behind, or the compacted term on file is that of the base |
| TornRuns.TornCallAnswers | src/fs_storage.rs:124-231 | how many file operations each call takes on such files and how it answers; create_snapshot below the log makes a snapshot of a leftover entry if there is one and panics otherwise |
| TornRuns.TornCallStands | src/fs_storage.rs:124-231 | what each call cut short after each of its operations makes of such files |
| CacheSpec.CachedEntriesAgree | src/cached_storage.rs:147-173 | entries through the LRU cache, despite reordering, eviction and duplicates, answers what the storage answers except for empty ranges on a filled cache |
| CacheSpec.CachedEntriesDisagree | src/cached_storage.rs:150-160 | the answers differ if and only if the entry cache is filled and the range is empty with its bounds the wrong way round or the log empty |
| CacheSpec.FilledByReading | src/cached_storage.rs:107-117 | the entry cache is filled if and only if an earlier entries() of the session succeeded, whatever mutations came since |
| CacheHits.RepeatedReadHits | src/cached_storage.rs:134-221 | every successful read but entries() is answered from the cache when repeated, whatever the storage holds |
| CacheHits.FirstRangeHits | src/cached_storage.rs:147-173 | the first range read is served from the cache when repeated if and only if it fits |
| CacheHits.FoundStays | src/cached_storage.rs:31-46 | an entry just found survives as many insertions as the cache is large, less one |
| CacheHits.ResetForGood | src/cached_storage.rs:107-173 | once filled and reset, the entry cache never holds an entry again |
| CacheSpec.CachedTermAgrees | src/cached_storage.rs:175-185 | term through the cache is the storage's term, and the cache stays sound |
| CacheSpec.FindRangeSound | src/cached_storage.rs:48-58 | a range found in a sound cache lies within first..=last and is what the storage would read |
| CacheSpec.SetAppliedKeepsSound | src/cached_storage.rs:260-262 | set_applied, done or failed, leaves every cached answer right although nothing is reset |
| CacheSpec.RequestAgrees | src/cached_storage.rs:134-262 | every read or mutation, also one that fails part way, keeps the cache sound and answers like the storage unless it is a refused empty range |
| CacheSpec.SessionsAgree | src/cached_storage.rs:134-262 | over every session of reads and mutations from an empty cache the files are the same, and a response differs if and only if the request is an empty range the storage refuses and an earlier entries() succeeded |
| Membership.ChangeConverges | src/node.rs:415-489 | with distinct raft ids and one peer changed that is not this node leaving, applying the detected change makes the peers equal the setting, keeps every peer under its raft id, never fails the removal, and leaves nothing to detect |
| Membership.AdditionConverges | src/node.rs:466-489 | without distinct ids the check panics unless the new peer has at least eight bytes, and the addition reaches the setting if and only if its raft id is not taken |
| Redelivery.DeliveryPanics | src/node.rs:348-378 | entries delivered to a node started on a setting make it panic if and only if, before any that makes it leave, one cannot be parsed or removes another peer that is neither listed nor added since, or removed since; changes of term 1 are ignored |
| Redelivery.RestartPanics | src/node.rs:472-479 | so does the first ready of a machine that crashed anywhere and was restarted on a setting |
| Membership.CheckFinds | src/node.rs:428-459 | the check finds nothing, one change, a peer without a raft id or too many changes exactly by the peers in which setting and map differ |
| Membership.PeersOfLast | src/node.rs:77-97 | of several peers of the setting with one raft id the last is filed |
| Membership.SettingsConverge | src/node.rs:415-489 | over any sequence of such settings nothing panics or leaves, and the map ends at the last setting |
| Config.PeerIdToRaftId | src/config.rs:135-143 | the loop computes the big-endian value of the last eight bytes, staying below 256^i after i rounds and so within 64 bits |
| Config.RaftIdsCollide | src/config.rs:135-143 | two peers share a raft id exactly when their last eight bytes are equal |
| Counterexamples.CacheHidesEmptyLog | src/cached_storage.rs:147-173 | append, entries(1,2), compact(1), entries(2,2) on a new directory: the storage refuses, the cache answers Ok([]) |
| Counterexamples.AppendTearsLog | src/fs_storage.rs:211-222 | two entries replaced by two others: after the first write neither log is shown |
| Counterexamples.AdditionDropsPeer | src/node.rs:480-483 | adding a peer with the same last eight bytes drops the old one |
| Counterexamples.RemovalPanicsAfterRestart | src/node.rs:472-479 | a legal run of a cluster in which a node applies a removal, crashes, restarts on the setting without the peer, and panics |
| Counterexamples.LeaderStarves | src/node.rs:391-404 | an elected leader proposes a block that Raft commits behind an earlier leader's: both are valid and committed, and it requests neither over any run as leader |
| Counterexamples.RepetitionStalls | src/block_queue.rs:90-108 | blocks a, b, a committed by Raft: the follower serves the first two and stalls in front of the third |
| BlockQueues.PopForgetsOne | src/block_queue.rs:90-94 | popping the front forgets that block and leaves every other one as it was |
| BlockQueues.BlockQueue.BlockNew | src/block_queue.rs:62-70 | records the block and keeps its validity |
| BlockQueues.BlockQueue.BlockValid | src/block_queue.rs:74-81 | marks the block valid and keeps its contents, also before BlockNew |
| BlockQueues.BlockQueue.AddBlockCommit | src/block_queue.rs:84-86 | appends block and index to the commit queue |
| BlockQueues.BlockQueue.BlockCommitted | src/block_queue.rs:90-94 | pops the front, drops it and no other block from the backlog and returns its index; panics exactly on the empty queue |
| BlockQueues.BlockQueue.GetNextCommittable | src/block_queue.rs:97-108 | the front of the queue if it is valid in the backlog, else nothing; changes nothing |
| Nodes.SawtoothRaftNode.constructor | src/node.rs:77-97 | a follower that is idle, with an empty queue and the peers of the setting |
| Nodes.SawtoothRaftNode.OnBlockNew | src/node.rs:99-117 | takes the spec's step, whose runs the theorems above are about |
| Nodes.SawtoothRaftNode.OnBlockValid | src/node.rs:119-138 | takes the spec's step: valid in the backlog, and proposed if it is the unproposed block |
| Nodes.SawtoothRaftNode.OnBlockCommit | src/node.rs:141-182 | takes the spec's step for leader and follower, or panics at a crash point of it when the file system fails |
| Nodes.SawtoothRaftNode.OnPeerMessage | src/node.rs:184-193 | stepping a message changes at most Raft's role; bytes that are no message panic |
| Nodes.SawtoothRaftNode.Tick | src/node.rs:195-198 | Raft's tick, then check_publish |
| Nodes.SawtoothRaftNode.CheckPublish | src/node.rs:200-240 | finalizes a block built for at least a period if the validator is ready; other errors panic |
| Nodes.SawtoothRaftNode.SendMsg | src/node.rs:242-255 | sends to the peer filed under the id; unknown ids and disconnected peers are passed over, other failures panic |
| Nodes.SawtoothRaftNode.SendAll | src/node.rs:290-296 | the loop over the messages is the fold of the spec, stopping at a panic |
| Nodes.SawtoothRaftNode.StepUp | src/node.rs:268-288 | a new leader keeps the block it was committing or opens a block |
| Nodes.SawtoothRaftNode.StepDown | src/node.rs:322-338 | a former leader cancels the open block or keeps committing as a follower |
| Nodes.SawtoothRaftNode.Install | src/node.rs:299-305 | applies a snapshot, panicking on its errors |
| Nodes.SawtoothRaftNode.Persist | src/node.rs:307-318 | entries before hard state, every failure at a crash point of the spec's writes |
| Nodes.SawtoothRaftNode.Reconfigure | src/node.rs:362-375 | applies a membership change, shuts down on its own removal, resumes building |
| Nodes.SawtoothRaftNode.DeliverOne | src/node.rs:349-376 | empty entries are skipped, blocks queued with their index, changes of term 1 ignored |
| Nodes.SawtoothRaftNode.DeliverAll | src/node.rs:348-378 | the loop over committed entries is the fold of the spec, stopping at a shutdown |
| Nodes.SawtoothRaftNode.CommitBlock | src/node.rs:391-413 | a leader requests only the block it proposed, a follower the block it is idle for |
| Nodes.SawtoothRaftNode.StoreReady | src/node.rs:299-388 | snapshot, entries, hard state, role and deliveries in this order, or a panic at a crash point between the writes |
| Nodes.SawtoothRaftNode.ProcessReady | src/node.rs:257-388 | the stages in order, or a panic at a crash point between them |
| Engine.OpenStorage | src/config.rs:57-61 | opening initializes a missing state, and Raft resumes from the stored applied index |
| Engine.HandleUpdate | src/engine.rs:120-131 | dispatches the update; false exactly for Shutdown |
| Engine.Pass | src/engine.rs:86-105 | one iteration is update, tick, process_ready in that order, or stops at a crash point of it |
| Engine.Start | src/engine.rs:86-105 | the loop equals the run over its turns, or ends at a crash point of one of them |
| FsStorages.FsStorage.InitRaftStateIfMissing | src/fs_storage.rs:240-247 | initializes exactly when hard state or snapshot is missing |
| FsStorages.FsStorage.Append | src/fs_storage.rs:211-222 | performs the planned writes in order up to the first failure |
| FsStorages.FsStorage.Compact | src/fs_storage.rs:186-209 | performs the planned term, first index and removals in order up to the first failure |
| FsStorages.FsStorage.CreateSnapshot | src/fs_storage.rs:129-169 | checks, then one write; answers or errors as planned |
| FsStorages.FsStorage.ApplySnapshot | src/fs_storage.rs:171-184 | compact, then the snapshot file, up to the first failure |
| FsStorages.FsStorage.SetHardState | src/fs_storage.rs:125-127 | one write of the hard state, all or nothing |
| FsStorages.FsStorage.SetApplied | src/fs_storage.rs:228-231 | one write of the applied index, all or nothing |
| CachedStorages.EntryCache.Get | src/cached_storage.rs:36-38 | finds the first entry with the index and moves it to the front |
| CachedStorages.EntryCache.Range | src/cached_storage.rs:48-58 | the entries of the range if all are cached, with the reordering the lookups cause |
| CachedStorages.TermCache.Get | src/cached_storage.rs:65-69 | finds the first term for the index and moves it to the front |
| CachedStorages.StorageCache.Reset | src/cached_storage.rs:107-117 | empties everything, but a filled entry cache stays in place |
| CachedStorages.CachedStorage.InitialState | src/cached_storage.rs:135-145 | the storage's answer, read at most once between resets |
| CachedStorages.CachedStorage.Entries | src/cached_storage.rs:147-173 | the storage's answer, except Ok([]) for empty ranges on a filled cache |
| CachedStorages.CachedStorage.Term | src/cached_storage.rs:175-185 | the storage's answer |
| CachedStorages.CachedStorage.FirstIndex | src/cached_storage.rs:187-197 | the storage's answer |
| CachedStorages.CachedStorage.LastIndex | src/cached_storage.rs:199-209 | the storage's answer |
| CachedStorages.CachedStorage.Snapshot | src/cached_storage.rs:211-221 | the storage's answer |
| CachedStorages.CachedStorage.SetHardState | src/cached_storage.rs:225-228 | resets, then writes through |
| CachedStorages.CachedStorage.CreateSnapshot | src/cached_storage.rs:230-238 | resets, then has the outcome of the storage, also when it fails |
| CachedStorages.CachedStorage.ApplySnapshot | src/cached_storage.rs:240-243 | resets, then has the outcome of the storage, also part way |
| CachedStorages.CachedStorage.Compact | src/cached_storage.rs:245-248 | resets, then has the outcome of the storage, also part way |
| CachedStorages.CachedStorage.Append | src/cached_storage.rs:250-253 | resets, then has the outcome of the storage, also part way |
| CachedStorages.CachedStorage.SetApplied | src/cached_storage.rs:260-262 | writes through without a reset, and the cache stays sound |

## Left out

- NoForks: covers lives without snapshots in a ready; installing a snapshot ahead of the local log is not supported by the code (compact reads every entry up to the snapshot's index).
- CrashPointsResume: the same restriction on snapshots; the writes of the first initialization are covered by InitializationRecovers instead.
- CommitsFollowTheLog: a handler that panics half way leaves at most its own block unsettled, so the equalities are stated for runs that did not panic and the prefix relations for all runs.
- RunInOrder: runs that go on; how a ready ends that does not is ReadyEnds, and what such runs have settled and proposed is RecordFollowsTurns.
- RunIsLogged: readies whose calls the storage interface allows.
- FollowerDrains: followers only; what a leader does with its queue is LeaderCommitsItsOwn and LeaderGetsOn.
- TornReadersAgree: term above last is not claimed, since a stale file may be read there.
- FsStorageRefinesLog: calls the storage interface allows, that is contiguous appends in first..=last+1 with terms of at least 1, and compactions and snapshots up to last.
- ReadersAgree: term(first-1) between compact's first two writes is the subject of TornReadersAgree.
- PeerIdToRaftId: peer ids of fewer than eight bytes, on which the code's assertion panics, are excluded by the type PeerId, and with them a node that starts under such an id or on a setting with one. In a later setting and in a membership change they are modelled.
- Indexes and terms are unbounded: the overflow of an index at 2^64-1 is not modelled.
- The byte encoding of files and torn writes of a single file: a file holds a typed value and its write is atomic. Creating the directories and the entry directory listing are not modelled either.
- Raft itself (elections, replication, log matching, message contents, advance) is the environment described above; errors of propose and step are not modelled beyond the panic or the log line.
- The validator's services are trace entries; a failing check_blocks, initialize_block, cancel_block or commit_block is a panic at a crash point, and get_settings answers as an input. Parsing the settings and the other engine settings is not modelled.
- The node works on FsStorage; CachedStorage, which the program puts in between, has the same outcome contract for every mutator the node calls.
- The MemStorage wrapper, the ticker's timing (whether a tick is due is part of a turn), the size limit of entries(), logging, the command line and the driver.
- The engine loop is modelled over any finite list of turns.
