# A verified model of a Raft key-value node

The repository builds a replicated key-value server around raft-rs. Consensus is raft-rs's work; the
repository supplies everything around it: the persistent log, the ready loop that stores, sends and
applies, the callbacks that answer clients, the snapshot and command encodings, the TCP framing and
the terminal's mirror of the map. This project models that code in Dafny, with its branches, its error
exits and its gaps, and proves what a node guarantees over all of its runs.

## How it is organised

- **Bytes and encodings.** `Bytes`, `Utf8`, `Protobuf`, `KvCommand`, `Bincode`, `SnapshotCodec`: the Protocol
  Buffers wire format with its full merge rules, bincode 2's standard format, byte order of keys.
- **Storage.** `EntryRecord` is the stored form of an entry and its size; `DiskStorage` holds the class whose methods update three trees in place and flush them; `Disk`
  describes the trees as values, the abstract log they stand for and how a failing write is interrupted;
  `RangeRead` describes a bounded read without its loop; `LogHistory` says which log a whole history of writes
  leaves, and that every reachable disk has such a history.
- **The node.** `Node`, `RaftNode`, `EntryApplicator`, `CommandHandler`, `ReadyProcessor` and `RaftLoop` are
  methods on mutable objects. Each is proved equal to a step of `Replicas`, where a round is the ordered list
  of its effects and an error or a crash cuts the list short.
- **Rounds and the loop.** `RoundEffects` says field by field what a completed round has done, without that list;
  `Rounds` says the same in terms of the committed log for every run, `Configurations` which configuration is on disk
  after any of them, `LoopRuns` which inputs end the loop and which run it is until then.
- **Runs.** `World` states what raft-rs promises about each Ready, relative to one committed log that is fixed for
  the run but unknown to the node; `Licensing` and `Invariants` carry those promises through every effect; `Runs`
  quantifies over all interleavings of commands, rounds cut at any effect, failing writes and restarts;
  `Theorems`, `Callers` and `AppliedLag` state the results; `Server` connects start-up and the driver's loop to those runs and
  shows that they are not empty.
- **Edges.** `Framing` and `PeerSender` are the two ends of a TCP connection; `Terminal` is the screen's state.
- **Where the code falls short.** The exact conditions are in `Disk`, `Theorems` and `AppliedLag`; `Shortcomings` holds
  reachable instances.

The assumptions about raft-rs are the predicates `World.Sound`, `World.ReadyOk` and `Runs.Legal`: committed entries
are handed over in log order and each once per process, new entries start inside the stored log or right after
it and do not change a committed one, a hard state's commit index does not decrease and is within the stored log by
the time it is written, the stored entries up to it then being the committed ones, a snapshot is not older than what the node has and carries the map of a correct replica at its
index, committed entries are proposals as they were made, what raft-rs refused it never commits, and callers and
callback ids are unique: a new id is carried by nothing the process has consumed.

The assumption that the stored entries up to a written commit index are the committed ones is where the missing
truncation of the log (below) could hurt: after a restart raft-rs reads back a log that it never had, whose stale rest
it may then count as its own. `LogHistory.HistoryTruncatesIff` says exactly when what is read back is the log Raft asks
for; that raft-rs commits only what Raft allows even otherwise is assumed, not proved.

Where the code and its comments disagree the model follows the code:

- `crates/raft-core/src/disk_storage.rs:24-26` promises a restart without data loss. Start-up never reads the stored
  snapshot back (`crates/raft-server/src/main.rs:253-254`), so the map is rebuilt from the first index only:
  `Theorems.RestartedMapIff`, `Shortcomings.SnapshotIsForgotten`. A Get before replay has passed an acknowledged
  Put does not see it: `Theorems.AcknowledgedVisibleIff`, `Shortcomings.RestartForgetsAcknowledged`.
- `crates/raft-core/src/command_handler.rs:65-67` says that the caller of a refused proposal sees its channel closed.
  The callback was registered before (`crates/raft-core/src/raft_node.rs:117-122`) and stays:
  `Callers.RefusedPutStaysRegistered`.
- Raft (section 5.3 of the extended paper by Ongaro and Ousterhout) deletes a conflicting entry and all that
  follow it. `append` only overwrites by index: `Disk.AppendTruncatesIff`, and `LogHistory.HistoryTruncatesIff` for
  whole histories.
- Raft (section 7 of the same paper) keeps the entries after a snapshot only if the log has the snapshot's last entry.
  `apply_snapshot` keeps every entry above the index: `Disk.SnapshotTruncatesIff`.
- `crates/raft-core/src/disk_storage.rs:139-140` speaks of entries before the snapshot index; the loop removes the
  one at the index as well.

## Model

| member | source | states |
|---|---|---|
| `Disk.KeyRoundTrip` | crates/raft-core/src/disk_storage.rs:412-421 | keys and 64-bit indices are in bijection: each conversion undoes the other |
| `Disk.KeyOrder` | crates/raft-core/src/disk_storage.rs:409-414 | the byte order the store iterates in is the numeric order of indices |
| `Disk.LastIsMax` | crates/raft-core/src/disk_storage.rs:371-376 | the last key in byte order belongs to the largest stored index |
| `Disk.FirstIsMin` | crates/raft-core/src/disk_storage.rs:360-364 | without a snapshot the first key in byte order belongs to the smallest stored index |
| `Disk.ReadsAgree` | crates/raft-core/src/disk_storage.rs:335-384 | on trees that stand for a log, first index, last index and the term at every index (value, compacted, unavailable) are those of the log |
| `Disk.LogUnique` | crates/raft-core/src/disk_storage.rs:18-22 | the three trees determine the log they stand for |
| `Disk.AppendRefines` | crates/raft-core/src/disk_storage.rs:98-115 | an append that starts inside the log or right after it overwrites that range of the log, leaves no gap and never lowers the last index |
| `Disk.InsertAllWrites` | crates/raft-core/src/disk_storage.rs:98-107 | of the entries of a batch with one index the last is stored under it, and every other key keeps what it had |
| `Disk.SnapshotRefines` | crates/raft-core/src/disk_storage.rs:120-169 | a snapshot at or above the base drops exactly the prefix it covers and never lowers the last index |
| `Disk.AppendTruncatesIff` | crates/raft-core/src/disk_storage.rs:98-115 | append yields the log Raft requires, with nothing after the batch, if and only if the batch reaches the old last index; otherwise exactly the old entries past it remain |
| `Disk.SnapshotTruncatesIff` | crates/raft-core/src/disk_storage.rs:120-155 | a snapshot yields the log Raft requires, which keeps later entries only if the log has the snapshot's last entry, if and only if it matches the log in index and term or reaches the old last index |
| `Disk.AppendKeepsLogIff` | crates/raft-core/src/disk_storage.rs:98-115 | a non-empty append leaves a gap-free log if and only if it starts above the base and at most one past the end |
| `Disk.SnapshotKeepsLogIff` | crates/raft-core/src/disk_storage.rs:120-155 | since older snapshots are not rejected, a snapshot leaves a gap-free log if and only if it does not go backwards or no entry is stored |
| `Disk.InterruptedSnapshotIff` | crates/raft-core/src/disk_storage.rs:126-155 | after a snapshot write that fails anywhere past its record, first and last index are consistent if and only if the log was empty or reached the snapshot, or every removal was made |
| `LogHistory.HistoryRefines` | crates/raft-core/src/disk_storage.rs:98-169 | after every sequence of contiguous appends and non-decreasing snapshots from an empty disk, the trees hold the very log the same writes make of the empty log, and first index, last index and the term at every index are its own |
| `LogHistory.HistoryRead` | crates/raft-core/src/disk_storage.rs:298-333 | after any such history a bounded read is Compacted exactly at or below the last snapshot and otherwise a stretch of that log |
| `LogHistory.HistoryGrows` | crates/raft-core/src/disk_storage.rs:354-384 | over any such history neither the base nor the last index goes back |
| `LogHistory.StoredPastRaft` | crates/raft-core/src/disk_storage.rs:98-155 | over any history of writes that fit Raft's own log, that log is a prefix of the stored one, and the stored one is as long as Raft's ever was |
| `LogHistory.HistoryTruncatesIff` | crates/raft-core/src/disk_storage.rs:98-155 | after any such history the trees hold the log Raft asks for, so that a restart reads it back, if and only if that log is as long as it ever was |
| `LogHistory.ReachableLog` | crates/raft-core/src/ready_processor.rs:168-181 | at every crash point of every run the disk is what such a history left and holds its log, durable commit index included |
| `DiskStorage.DiskStorage.constructor` | crates/raft-core/src/disk_storage.rs:47-69 | opening shows what was flushed, with the persisted applied index or 0 |
| `DiskStorage.DiskStorage.SetAppliedIndex` | crates/raft-core/src/disk_storage.rs:77-93 | on success the index is flushed; on failure the cached index has changed although the durable one has not |
| `DiskStorage.DiskStorage.Append` | crates/raft-core/src/disk_storage.rs:98-115 | success means that the whole batch is flushed; a failure leaves any prefix of it unflushed |
| `DiskStorage.DiskStorage.ApplySnapshot` | crates/raft-core/src/disk_storage.rs:120-169 | success means that record, configuration and removals are flushed; a failure at any of its steps leaves exactly the changes made and the trees flushed by then |
| `DiskStorage.DiskStorage.CollectThrough` | crates/raft-core/src/disk_storage.rs:141-149 | the loop collects exactly the stored keys at or below the limit, in key order |
| `DiskStorage.DiskStorage.RemoveEntriesThrough` | crates/raft-core/src/disk_storage.rs:141-155 | collecting and then removing in place keeps exactly the entries above the limit; on a failing disk the first so many keys are gone and no others |
| `DiskStorage.DiskStorage.SetHardState` | crates/raft-core/src/disk_storage.rs:174-187 | on success the hard state is flushed and nothing else changed |
| `DiskStorage.DiskStorage.SetConfState` | crates/raft-core/src/disk_storage.rs:192-205 | on success the configuration is flushed and nothing else changed |
| `DiskStorage.DiskStorage.Compact` | crates/raft-core/src/disk_storage.rs:210-233 | exactly the entries at or below the limit go, or the first of them if the disk fails; once a snapshot is recorded the first index does not notice |
| `DiskStorage.DiskStorage.InitializeWithConfState` | crates/raft-core/src/storage.rs:62-87 | a storage that has voters is untouched; any other takes the configuration through an empty snapshot at index 0, and on success stores exactly the one given, with hard state and applied index as they were |
| `DiskStorage.DiskStorage.ReadFirstIndex` | crates/raft-core/src/disk_storage.rs:354-369 | the answer is one past the base of the log the trees stand for |
| `DiskStorage.DiskStorage.ReadLastIndex` | crates/raft-core/src/disk_storage.rs:371-384 | the answer is the last index of the log the trees stand for |
| `DiskStorage.DiskStorage.ReadTerm` | crates/raft-core/src/disk_storage.rs:335-352 | the answer is the term, compacted or unavailable as the log the trees stand for has it |
| `DiskStorage.DiskStorage.ReadSnapshot` | crates/raft-core/src/disk_storage.rs:386-394 | what a lagging follower is sent has the index and term of the log's base, whatever was asked for, and the log continues right after it; a follower whose log reaches that index ends up with this log's base |
| `DiskStorage.DiskStorage.ReadEntries` | crates/raft-core/src/disk_storage.rs:298-333 | the loop returns consecutive stored entries from `low`, and, if those read and the one after them stay below 2^64 bytes, the longest gap-free run within the size bound, a present first entry always counting, or Compacted: the records of two or more entries are at most that many bytes, and with the record of the next stored entry they would be more |
| `RangeRead.ReadUnique` | crates/raft-core/src/disk_storage.rs:298-333 | the description of a bounded read, which measures records in bytes, admits exactly one answer |
| `RangeRead.ReadOfLog` | crates/raft-core/src/disk_storage.rs:298-333 | on trees that stand for a log, Compacted is returned if and only if the range is not empty and starts at or below the snapshot; anything else is a stretch of the log, not empty when its first entry exists |
| `RangeRead.ReadWithinBound` | crates/raft-core/src/disk_storage.rs:312-316 | whatever is stored, the records of two or more returned entries stay within the bound in bytes, and appending the record of the next entry asked for would exceed it |
| `EntryRecord.EntryRoundTrip` | crates/raft-core/src/disk_storage.rs:423-435 | every entry, with any kind, term, index, data and context, is read back from its proto3 record |
| `EntryRecord.EncodedLenExact` | crates/raft-core/src/disk_storage.rs:312 | the size computed without encoding is the length of that record |
| `EntryRecord.EntryInjective` | crates/raft-core/src/disk_storage.rs:98-107 | two different entries never share a record |
| `Protobuf.VarintRoundTrip` | crates/raft-core/src/codec.rs:4-13 | every 64-bit number is read back from its base-128 varint, whatever follows |
| `Protobuf.CutPrefixed` | crates/raft-core/src/codec.rs:10-13 | a length-delimited field that is cut off anywhere does not decode |
| `KvCommand.PutCommandRoundTrip` | crates/raft-core/src/node.rs:16-26 | for every key and value, possibly empty, the encoded Put is not empty and decodes to the same pair under the decoder's merge rules |
| `KvCommand.PutCommandInjective` | crates/raft-core/src/node.rs:16-26 | two different Puts never share an encoding |
| `KvCommand.LaterPutMerges` | crates/raft-core/src/node.rs:94-100 | two encoded Puts after each other decode as one whose fields are the later ones where the later Put has them |
| `KvCommand.UnknownFieldSkipped` | crates/raft-core/src/node.rs:94-100 | an unknown length-delimited field does not change the decoded command, and alone decodes to no command |
| `KvCommand.CutPutFails` | crates/raft-core/src/node.rs:94-100 | a Put that is cut off anywhere does not decode |
| `Bincode.MapRoundTrip` | crates/raft-core/src/snapshot.rs:42-57 | a map written in key order is read back, together with the bytes after it |
| `Bincode.IntBytes` | crates/raft-core/src/snapshot.rs:42-48 | the layout of integers: one byte up to 250, else the mark 251 or 252 and two or four bytes, the least significant first |
| `Bincode.SortedKeysAscend` | crates/raft-core/src/node.rs:74-78 | the keys of a map are listed in strictly ascending byte order |
| `SnapshotCodec.RoundTrip` | crates/raft-core/src/snapshot.rs:41-58 | every map comes back from its snapshot, with or without trailing bytes; zero bytes give the empty map, which no encoded map can be mistaken for |
| `SnapshotCodec.CutFails` | crates/raft-core/src/snapshot.rs:50-57 | a snapshot that is cut off anywhere but at its start does not decode |
| `SnapshotCodec.Injective` | crates/raft-core/src/snapshot.rs:41-58 | a snapshot names exactly one map |
| `Node.KvNode.ApplyKvCommand` | crates/raft-core/src/node.rs:94-100 | a decoded Put is assigned; bytes that do not decode are reported and change nothing |
| `Node.KvNode.CreateSnapshot` | crates/raft-core/src/node.rs:116-118 | the bytes decode to the current map |
| `Node.KvNode.RestoreFromSnapshot` | crates/raft-core/src/node.rs:135-140 | the snapshot of any map replaces the whole state by it; zero bytes clear it; a failed decode leaves it unchanged |
| `Node.KvNode.ApplyUserCommand` | crates/raft-core/src/node.rs:62-90 | only Put changes the map; Get answers with the value or nothing, Keys with all keys in order |
| `StateMachine.FoldConcat` | crates/raft-core/src/entry_applicator.rs:175-192 | how entries are split into batches does not matter |
| `StateMachine.FoldLookup` | crates/raft-core/src/node.rs:94-100 | after any entries a key holds the value of its last Put, or else what it held before |
| `StateMachine.SameFoldIff` | crates/raft-core/src/node.rs:94-100 | two maps become equal under the same entries if and only if every key on which they differ is put by one of them |
| `StateMachine.FoldEmptyIff` | crates/raft-core/src/node.rs:94-100 | entries build an empty map if and only if none of them is a Put |
| `StateMachine.SuffixFoldIff` | crates/raft-server/src/main.rs:253-254 | applying only a suffix to an empty map gives the whole state if and only if every key put before is put again in it |
| `RaftNode.RaftNode.ProposeCommand` | crates/raft-core/src/raft_node.rs:98-125 | only a leader proposes, and what it proposes decodes to the command; the callback is registered before raft-rs answers and stays when it refuses |
| `RaftNode.RaftNode.TakeCallback` | crates/raft-core/src/raft_node.rs:169-171 | a callback is handed out once |
| `EntryApplicator.NotifyKvUpdate` | crates/raft-core/src/entry_applicator.rs:153-171 | a Put is announced, then logged, then its caller answered and forgotten; other entries notify nobody |
| `EntryApplicator.DeliverEntry` | crates/raft-core/src/entry_applicator.rs:50-61 | a Put is assigned, announced, logged and its caller answered with success and forgotten; a command that does not decode changes nothing and is answered with a failure; an empty command is answered by nothing |
| `EntryApplicator.ApplyNormalEntry` | crates/raft-core/src/entry_applicator.rs:45-71 | the entry takes effect, decoded or not, and then its index is the applied one, on disk if the write succeeds |
| `EntryApplicator.ApplyConfChange` | crates/raft-core/src/entry_applicator.rs:73-151 | a change that decodes and applies leaves its configuration and its index on disk; one that fails leaves the storage untouched; neither moves the map |
| `EntryApplicator.ApplyEntries` | crates/raft-core/src/entry_applicator.rs:175-192 | without an error the map is the fold of the entries over the old one, every caller waiting for one of them is told the outcome of the first that carries its id, and log and transport are untouched; the loop stops at the first storage error |
| `EntryApplicator.RestoreSnapshot` | crates/raft-core/src/entry_applicator.rs:194-198 | the map is the snapshot's, or unchanged with an error |
| `CommandHandler.HandleRpcCommand` | crates/raft-core/src/command_handler.rs:48-79 | a follower refuses a Put at once and names the leader it knows of; a leader registers the caller and answers nobody; a Get is answered with what the local map holds |
| `CommandHandler.HandleUserCommand` | crates/raft-core/src/command_handler.rs:81-157 | a terminal command queues the one message that its outcome calls for, or none for a failed campaign, and registers nobody |
| `CommandHandler.HandleCommand` | crates/raft-core/src/command_handler.rs:41-46 | each command has exactly its own effect on callbacks, replies and messages, and none changes the map |
| `ReadyProcessor.SendMessage` | crates/raft-core/src/ready_processor.rs:60-65 | what is recorded with a message is what was flushed at that moment |
| `ReadyProcessor.SendMessages` | crates/raft-core/src/ready_processor.rs:54-66 | every message is handed to the transport in order and nothing else changes |
| `ReadyProcessor.ApplySnapshot` | crates/raft-core/src/ready_processor.rs:68-102 | on success record, configuration, removals and applied index are on disk, the map is the snapshot's and the terminal is told; an error ends the sequence where it occurs |
| `ReadyProcessor.StoreReady` | crates/raft-core/src/ready_processor.rs:168-181 | snapshot, entries and hard state are flushed in that order, up to the first error |
| `ReadyProcessor.UpdateTuiState` | crates/raft-core/src/ready_processor.rs:128-151 | a leadership note appears only when a known leader is replaced by another, always followed by the state itself |
| `ReadyProcessor.ProcessReady` | crates/raft-core/src/ready_processor.rs:155-212 | a round without an error leaves the old map, or the snapshot's, with the committed entries of the Ready and then of the LightReady applied, their last index as position, log, snapshot, hard state and configuration as handed over, the waiting callers of those entries answered, and each of the three groups of messages sent once and in order; on every other exit path the objects are in the state that the effects performed so far lead to |
| `RoundEffects.EntriesApplied` | crates/raft-core/src/entry_applicator.rs:175-192 | a list of committed entries that is applied to its end: map, position, deliveries, answers, announcements, configuration and recorded indices are those of exactly these entries in order |
| `RoundEffects.RoundShown` | crates/raft-core/src/ready_processor.rs:165-209 | in a completed round the terminal is told of the snapshot, of the Ready's Puts, of a new leader, of the state and then of the LightReady's Puts, and the applied indices are recorded in that order |
| `RoundEffects.RoundAnswered` | crates/raft-core/src/entry_applicator.rs:45-71 | in a completed round each caller waiting for one of its entries is told the outcome of the first that carries its id, once, in their order, and forgotten |
| `RoundEffects.RepliesConcat` | crates/raft-core/src/entry_applicator.rs:175-192 | how entries are split into batches does not matter for who is answered |
| `Rounds.RoundOutcome` | crates/raft-core/src/ready_processor.rs:155-212 | in every run, a round that ends without an error consumes exactly the log from the old position, or from the snapshot, over all entries of the Ready and the LightReady, and the map is the old one, or the snapshot's, with all of them applied |
| `Rounds.RoundMessages` | crates/raft-core/src/ready_processor.rs:165-203 | in every run, such a round sends its three groups of messages once and in order, the first before anything is stored and the others when all of the Ready is on disk |
| `Rounds.RoundCallers` | crates/raft-core/src/entry_applicator.rs:45-71 | in every run, such a round delivers every entry handed over that has data for the map, and answers the callers that waited for them |
| `Configurations.ConfigurationStored` | crates/raft-core/src/entry_applicator.rs:73-151 | over every run, with failing writes, crashes and restarts, the configuration on disk is the last of the peers of the first start, each installed snapshot's and each configuration change's, in order; a round that does not complete contributes the first of its own and a restart none |
| `Configurations.LastOfConfs` | crates/raft-core/src/entry_applicator.rs:73-151 | of a list of entries the last configuration change with data and a result decides, and none of them does if there is none |
| `RaftLoop.RaftDriver.Run` | crates/raft-core/src/raft_loop.rs:141-192 | over any stretch of inputs the loop's state and way of ending are those of the turn-by-turn description: cleanly on a shutdown signal, with an error on a closed channel or a failed round, on nothing else |
| `LoopRuns.LoopOutcome` | crates/raft-core/src/raft_loop.rs:146-192 | if the first shutdown or closed channel arrives at turn k, or never, the loop takes all turns before it or up to the first whose round stops it, its state is that of the run of exactly the commands and rounds of those turns, and its exit names the reason; messages and quiet ticks do not end it |
| `LoopRuns.LoopFailsIff` | crates/raft-core/src/raft_loop.rs:188-191 | the loop ends in an error of processing if and only if some round before that turn stops it |
| `Server.Start` | crates/raft-core/src/raft_node.rs:52-87 | start-up succeeds if and only if the node id is not 0 and the stored commit index lies in the stored log, whether or not a first configuration could be stored; the node then has the stored configuration, or exactly the one given if there were no voters, an empty map and no callers, and delivery starts at the first index |
| `Server.LoopIsRun` | crates/raft-core/src/raft_loop.rs:146-192 | what the driver's loop leaves behind is the end of the run of its inputs and rounds |
| `Server.DriverReachable` | crates/raft-core/src/raft_loop.rs:146-192 | if those inputs and rounds are legal, what the loop leaves behind is a reachable state |
| `Server.Serve` | crates/raft-server/src/main.rs:249-284 | a driver started on stored state and run over legal inputs ends in a reachable state: its map is the fold of the committed entries it consumed, and whatever waited for storage was sent when all of it was flushed |
| `Server.CaughtUpReachable` | crates/raft-core/src/ready_processor.rs:155-212 | for every committed log some reachable node has consumed all of it and holds its fold: the assumptions can be met |
| `Server.PutAnswered` | crates/raft-core/src/entry_applicator.rs:153-171 | every Put can be received by a leader, committed, applied and answered: success to its caller is reachable, so the guarantees about answered Puts are not empty |
| `Invariants.WriteKeepsStorage` | crates/raft-core/src/disk_storage.rs:98-205 | a write in order leaves a gap-free log that contains the durable commit index and the committed entries up to it, complete or interrupted |
| `Invariants.ActionKeepsInv` | crates/raft-core/src/ready_processor.rs:155-212 | every single effect keeps storage, map, callbacks, terminal and transport sound |
| `Licensing.RoundLicensed` | crates/raft-core/src/ready_processor.rs:165-209 | the order of a round has every effect in order when its turn comes, in particular no persisted message before its data is stored |
| `Runs.ReachableInv` | crates/raft-core/src/raft_loop.rs:141-192 | the joint invariant holds at every crash point of every run |
| `Runs.LegalRunConcat` | crates/raft-core/src/raft_loop.rs:146-192 | a run is legal if and only if its first part is and the rest is legal where that part ends |
| `Runs.ReachableRun` | crates/raft-core/src/raft_loop.rs:146-192 | a legal run from a reachable state ends in a reachable state |
| `Theorems.MapIsFold` | crates/raft-core/src/entry_applicator.rs:175-199 | in every reachable state the map is the fold of the committed entries consumed since its origin, and no command moves it |
| `Theorems.MapFromScratch` | crates/raft-core/src/raft_node.rs:58-80 | without snapshots, after any crashes and restarts and whatever applied index was stored, the map at position p is the fold of the first p committed entries |
| `Theorems.CrashRecovery` | crates/raft-core/src/ready_processor.rs:155-212 | without snapshots, a run that crashed anywhere and replayed to position p has the same map as any other run at p |
| `Theorems.DurableReplay` | crates/raft-core/src/storage.rs:62-87 | at every crash point, with or without snapshots, the stored snapshot decodes to the map of its index and the disk holds the committed entries from there to the durable commit index, so that loading the one and replaying the others would give the map of each position |
| `Theorems.RestartedMapIff` | crates/raft-server/src/main.rs:253-254 | the map is right if and only if every key put in the part that is not replayed has been put again since |
| `Theorems.RestartLosesSnapshotIff` | crates/raft-server/src/main.rs:253-254 | right after a restart the map is right if and only if no committed entry up to the snapshot is a Put |
| `Theorems.ReplicasAgree` | crates/raft-core/src/ready_processor.rs:68-102 | of two nodes on one committed log, each possibly having jumped ahead by a snapshot, the further one's map is the other's with the entries between applied; at equal positions the maps are equal |
| `Theorems.PersistBeforeReply` | crates/raft-core/src/ready_processor.rs:165-203 | in every run and on every exit path, a persisted or LightReady message was sent when the snapshot, entries and hard state of its Ready were all flushed |
| `Theorems.CommitRecoverable` | crates/raft-core/src/ready_processor.rs:168-181 | at every crash point the durable commit index is at most the durable last index, so only a commit index below the snapshot can keep a node from starting; without snapshots it always starts |
| `Theorems.CrashAfterInstall` | crates/raft-core/src/ready_processor.rs:168-171 | a round cut right after storing its snapshot leaves exactly the snapshot's effect on disk |
| `Theorems.SnapshotCrashIff` | crates/raft-core/src/ready_processor.rs:168-181 | after such a crash the node starts again if and only if it had no hard state or the snapshot is not ahead of the stored commit index |
| `Theorems.CallsConserved` | crates/raft-core/src/raft_node.rs:98-125 | every Put received since the process started is either still registered or answered exactly once, and nobody else is answered; over all processes of the node every caller is waiting, was answered once, or was still waiting when its process ended, and exactly one of these |
| `Callers.UnansweredIff` | crates/raft-core/src/entry_applicator.rs:45-71 | in any run of a process, a Put it received on a follower is answered with the id of the leader it knew of, one taken by a leader with success if and only if an entry with its callback id was delivered since, and with nothing else; it is never answered twice |
| `Callers.RefusedPutStaysRegistered` | crates/raft-core/src/raft_node.rs:116-122 | a Put that raft-rs refuses on a leader leaves its caller registered and unanswered in every later state of the process |
| `Theorems.ReadYourWrites` | crates/raft-core/src/entry_applicator.rs:45-71 | a Put answered with success is a committed entry already applied, and every later Get that the same process answers returns its value or that of a later committed Put of the key |
| `Theorems.AcknowledgedVisibleIff` | crates/raft-core/src/command_handler.rs:72-76 | after any crashes and restarts an acknowledged Put is a committed entry, and a Get sees it or a later Put of its key if and only if the part of the log the map is built from reaches one; without snapshots, if and only if replay has passed the entry |
| `Theorems.TerminalMirror` | crates/raft-server/src/main.rs:98-106 | until a snapshot is restored, applying the updates still queued to what is shown gives the node's map, wherever the queue is cut |
| `Theorems.ScreenRightIff` | crates/raft-server/src/main.rs:98-106 | in every reachable state the screen, once the queue is drained, is right if and only if every key on which it differed from the map when a snapshot last replaced it has been put again since |
| `Theorems.RestoreShownIff` | crates/raft-core/src/ready_processor.rs:83-99 | since a restored snapshot queues no update, the screen stays right if and only if the snapshot does not change the map |
| `AppliedLag.RoundLag` | crates/raft-core/src/ready_processor.rs:155-212 | once the applied index is within the position with only silent entries between, a round, complete or failed, does not lower it and, unless it fails, keeps it so |
| `AppliedLag.AppliedIndexLag` | crates/raft-core/src/entry_applicator.rs:63-92 | in every running node, after any restarts, once anything but an empty entry or failed configuration change was consumed, the applied index does not pass the position, only such entries lie between, and the map is also the fold up to it |
| `AppliedLag.AppliedIndexMonotone` | crates/raft-core/src/disk_storage.rs:77-93 | in every reachable state, after any restarts, an applied index within the position is not lowered by whole, failing or crashed rounds and stays within it |
| `AppliedLag.AppliedIndexLoweredIff` | crates/raft-core/src/raft_node.rs:58-64 | of the applied index a process loads and those it then writes only the first written one can be lower than the one before; in a running process without a restored snapshot this is avoided if and only if the loaded index passes no consumed entry other than empty ones and failed configuration changes |
| `Terminal.App.AddSystemMessage` | crates/raft-server/src/main.rs:120-125 | up to a hundred lines are kept; one more drops the oldest |
| `Terminal.App.ApplyStateUpdate` | crates/raft-server/src/main.rs:98-117 | a key-value update is assigned and shown, a state replaces the state, any other update only adds its line |
| `Terminal.App.Drain` | crates/raft-server/src/main.rs:651-654 | draining the queue shows every update in order and keeps the last hundred of all lines |
| `Framing.FrameRoundTripIff` | crates/raft-core/src/tcp_transport.rs:280-337 | a written frame is read back, leaving exactly what follows it, if and only if its payload is at most 10 MiB, 32-bit truncation of the length included |
| `Framing.FrameBytes` | crates/raft-core/src/tcp_transport.rs:314-337 | a frame is the length in four bytes, the most significant first, and the payload |
| `Framing.BadFrameEndsStream` | crates/raft-core/src/tcp_transport.rs:282-309 | a length above 10 MiB or a payload that does not decode ends the connection with an error after exactly the messages before it, whatever follows |
| `Framing.CutStream` | crates/raft-core/src/tcp_transport.rs:280-311 | a stream of frames cut at any byte yields exactly the whole frames before the cut and then an end of file |
| `Framing.WholeFramesExact` | crates/raft-core/src/tcp_transport.rs:280-311 | that number of frames fits before the cut and one more does not |
| `Framing.StreamRoundTrip` | crates/raft-core/src/tcp_transport.rs:177-206 | reading the frames of any sequence of messages yields exactly that sequence |
| `Framing.InputStream.ReadExact` | crates/raft-core/src/tcp_transport.rs:282-296 | all the bytes asked for, or the end of the stream, which uses up the rest |
| `Framing.ReadMessage` | crates/raft-core/src/tcp_transport.rs:280-311 | the result and the remaining stream are those of one frame of the byte-level description |
| `Framing.HandleConnection` | crates/raft-core/src/tcp_transport.rs:167-207 | exactly the messages addressed to this node are forwarded, in order, until the stream or the receiver ends; it succeeds if and only if the stream ended with an end of file and the receiver did not end |
| `Framing.AddressedEach` | crates/raft-core/src/tcp_transport.rs:181-186 | each message is kept or dropped by its own address |
| `PeerSender.SendQueue` | crates/raft-core/src/tcp_transport.rs:219-274 | for every queue and network the attempts follow the retry rules, connections are kept and replaced as described, and each carries exactly the bytes of its attempts |
| `PeerSender.ConnectionRules` | crates/raft-core/src/tcp_transport.rs:232-266 | an attempt succeeds if and only if it has a connection that takes the whole write; after a success the connection is kept, otherwise there is one if and only if connecting anew succeeds |
| `PeerSender.AttemptsInOrder` | crates/raft-core/src/tcp_transport.rs:222-267 | all attempts for a message come before any for the next, at most three of them and none after a success |
| `PeerSender.EveryMessageSettled` | crates/raft-core/src/tcp_transport.rs:226-273 | every queued message is sent, or given up after exactly three failed attempts |
| `PeerSender.FailedConnectionNotReused` | crates/raft-core/src/tcp_transport.rs:248-266 | a connection on which a write failed carries no later attempt |
| `PeerSender.ConnectionContents` | crates/raft-core/src/tcp_transport.rs:248-266 | a connection carries the frames sent on it and then at most a part of the one that broke it |
| `PeerSender.PeerReadsSent` | crates/raft-core/src/tcp_transport.rs:177-277 | however many of a connection's bytes arrive, the peer reads exactly the whole frames among them: a prefix of the messages whose write succeeded, in order, and after all of them at most the one whose write failed |
| `PeerSender.PeerReadsAll` | crates/raft-core/src/tcp_transport.rs:177-277 | if no byte is lost the peer reads all messages reported as sent, followed at most by the one whose failed write got all of its bytes through |
| `Shortcomings.SnapshotIsForgotten` | crates/raft-server/src/main.rs:253-254 | for every committed log and snapshot position some reachable node has the right map and an empty screen, and its restart an empty map at the same position |
| `Shortcomings.RestartLosesKey` | crates/raft-server/src/main.rs:253-254 | an instance with one key: a restart after a snapshot loses it |
| `Shortcomings.RestartForgetsAcknowledged` | crates/raft-server/src/main.rs:253-254 | any Put can be acknowledged and, after a restart, be answered with nothing by a Get on the same node |
| `Shortcomings.CrashBlocksRestart` | crates/raft-core/src/ready_processor.rs:168-181 | a reachable node that voted and crashed right after storing a snapshot cannot start again |
| `Shortcomings.StaleSuffixStays` | crates/raft-core/src/disk_storage.rs:98-107 | any shorter batch written over the start of a log leaves the old rest in place, and the result is not the batch alone |
| `Shortcomings.AppendKeepsStaleEntry` | crates/raft-core/src/disk_storage.rs:98-107 | an instance: rewriting entry 1 of a log of two with a new term leaves the conflicting entry 2 |
| `Shortcomings.AppliedIndexFallsBack` | crates/raft-core/src/disk_storage.rs:77-93 | for every committed log a node that applied all of it restarts with an applied index ahead of what it consumed and lowers it with the first replayed entry |

## Left out

- AppliedLag.AppliedIndexMonotone: asks that the applied index lies within the position, which a restart can break (`Shortcomings.AppliedIndexFallsBack`); `AppliedLag.AppliedIndexLoweredIff` says when it then goes down.
- Theorems.ReadYourWrites: is about Gets answered by the process that acknowledged the Put; a Get after a restart need not see it, and `Theorems.AcknowledgedVisibleIff` says when it does.
- Theorems.TerminalMirror: ends at the first restored snapshot; `Theorems.ScreenRightIff` says when the screen is right after it.
- Theorems.ReplicasAgree: asks that neither map started above a snapshot that was not restored in the same process; for maps that did, `Theorems.RestartedMapIff` is the exact condition.
- DiskStorage.DiskStorage.ReadEntries: promises the size bound only if the entries read and the one after them stay below 2^64 bytes; beyond that the sum wraps in a release build and aborts in a debug build.
- DiskStorage.DiskStorage.ApplySnapshot: a write that fails between its first and its last change is left out of runs, with `Disk.InterruptedSnapshotIff` for the state it leaves.
- Server.Start: of raft-rs's validation of the fixed configuration only the check of the id can fail; errors from opening the store end start-up before anything modelled here, and runs begin where a first configuration was stored.
- raft-rs itself (elections, log matching, quorum commit, and the Ready it computes): replaced by the stated assumptions.
- The in-memory backend: it delegates to raft-rs's own storage, which is not part of this model.
- The bytes of hard states, configurations and snapshots in the trees: all records are stored as values, the encoding of those three being taken as injective (that of entries is in `EntryRecord`); decoding errors of stored records are not modelled.
- The encoding of consensus messages on the wire: a parameter of `Framing` and `PeerSender` whose decoder undoes its encoder.
- UUIDs, mutexes and channels: fresh callback ids, single-threaded objects and first-in-first-out sequences.
- The time of ticks, retry delays and connect timeouts: they do not affect what is stored, sent or applied.
- The text of system messages: kept as structured notes; the fields of the displayed Raft state are reduced to those the code branches on.
- The LightReady commit index: the source only logs it.
- Memory exhaustion on a huge length prefix inside snapshot bytes.
- `TcpTransport::send`, the accepting thread and the local test transport: channel plumbing; order across two connections of one peer is not claimed.
- Compaction inside runs: nothing in the repository calls it outside the storage delegation.
- The gRPC server, the client with its redirects, the driver's builder, command-line parsing, key handling and drawing: input and output.
- The JSON snapshot codec: a debugging wrapper around a library.
- Liveness: no reply and no leader is guaranteed by this code.
