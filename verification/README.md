# thinBT in Dafny

thinBT distributes large files over a LAN. A file is cut into chunks and described by a `.tseed`
file. A downloader asks its peers for 16 KB sub-blocks, several threads assemble them in a mapped
file, finished chunks are hashed, and a scheduler counts them off. This project models that pipeline
and proves what it keeps over whole runs. `dafny verify dfyconfig.toml` checks all of it.

The model has five parts.

- **Scheduler** (`SchedulerModel`, `SchedulerInvariant`, `SchedulerRuns`, `SchedulerEvents`,
  `SchedulerPolicy`, `SchedulerTransfers`, `SchedulerEndgame`, `SchedulerRecovery`,
  `SchedulerCounters`, `SchedulerFlags`, `SchedulerMessages`, `SchedulerProgress`,
  `SchedulerWitness`, `Scheduling`). Every handler is a function from state to state. The invariant is
  proved of each handler, and so of every reachable state. The class `Scheduling.Scheduler` has the
  source's fields and loops; each of its methods is proved to take its fields from the old state to what
  the function says. Calls the scheduler makes (requests, cancels, HAVE, NOT_INTERESTED) are recorded in
  order in a field `effects`.
- **Assembly and verification** (`Assembly`, `Pipeline*`, `ServedPieces`, `DownloadTasks`). The
  assembler is a class over an `array`. The pipeline is a machine whose steps are single atomic
  actions of the network thread, the workers, the verifiers and the tick: one byte copied, one
  `fetch_or`, one `fetch_sub`, one byte hashed. Its main theorems speak of every sequence of such
  steps. SHA-256 is an arbitrary function.
- **Chunking and reuse** (`FastCdc`, `GearTable`, `Reuse`, `EditReuse`).
- **Segment mapping** (`SegmentIo`); `PipelineDisk` joins it to the pipeline.
- **Session, wire format and seed file** (`PeerSessions`, `Protocol`, `SeedFile`, `ByteOrder`).

`Counting` and `Sorting` hold shared helpers.

Where code and documentation differ, the model follows the code:

- `design.md` (lines 24-27) promises boundaries that follow content. With the actual gear table
  and a maximum of three bytes or more, content has a say in some file exactly if the average is below
  2048 and the minimum below the maximum (`GearTable.FixedBlocksIff` has every configuration).
  Otherwise, the default included, every file is cut into fixed blocks of the maximum size. The
  edit-locality theorems hold for every table.
- A comment at `src/daemon/task_manager.cpp:662` says a chunk that fails verification is downloaded
  again. It is requested again (`SchedulerRecovery.FailedIsAskedAgain`), but can never complete
  (`PipelineRuns.FailedChunkNeverCompletes`). `PipelineWitness.ForgedPieceFails` is a run that gets
  there.
- A comment at `src/daemon/peer_session.cpp:33` says sendfile is on by default. The code turns it off,
  and the single-writer law needs it off (`PeerSessions.SingleWriterIff`).

Laws that one would expect and that hold only under a condition:

- Requests always ask for 16384 bytes, so a ragged chunk that is not the last one cannot complete
  (`ServedPieces.CompletableIff`, `ServedPieces.RaggedChunkNeverCompletes`), while the scheduler
  counts its tail as done.
- A COMPLETE chunk holds the bytes that were verified if its accepted pieces agree slot by slot
  (`PipelineDuplicates.CompleteChunkMatches`). A late duplicate that differs replaces them
  (`PipelineWitness.ForgedDuplicateReplaces`).
- With peers that serve the published file, a download that has not been given up can always still be
  finished, except for such ragged chunks (`PipelineFinish.DownloadCanFinishIff`).
- The request counter of an unfinished chunk is the number of its requested bits until rebalancing asks
  for a sub-block whose bit is clear (`SchedulerCounters.CounterSurvivesIff`). That takes a sub-block in
  flight whose bit was cleared before, by a timeout, by a failed hash, or by the loss of one of two peers
  that carry it (`SchedulerFlags.FlaggedSurvivesIff`, `SchedulerFlags.CounterExactOnCalmRuns`). Finishing
  the chunk forgets the count as well. `SchedulerWitness` has a run to a wrong counter by a timeout, by a
  failed hash and by a completion.
- Availability is exact until a BITFIELD overwrites an advertised bit
  (`SchedulerEvents.ExactnessSurvives`); `SchedulerWitness.RepeatedBitfieldCountsTwice` is a run that
  gets there.

## Model

| member | source | states |
|---|---|---|
| `PipelineRuns.EveryRunBalances` | src/daemon/task_manager.cpp:631-680 | Over every interleaving of network events, workers, verifiers and ticks from a started download in which pieces only answer requests: each chunk gets at most one verdict, `missing_count_` is the number of chunks that are not COMPLETE and never wraps, `bytes_done` is the total length of the COMPLETE chunks, and the download is "complete" only when every chunk is COMPLETE and the phase is DONE. |
| `PipelineRuns.ReportedExactlyOnce` | src/daemon/chunk_assembler.cpp:53-63 | Reports of a chunk on their way plus verdicts settled never exceed one, and are one exactly when every slot is marked and no marking worker still has to count down. |
| `PipelineRuns.FailedChunkNeverCompletes` | src/daemon/scheduler.cpp:529-544 | Once a chunk has failed verification, no continuation of the run makes it COMPLETE or the download "complete": nothing re-initialises its assembler. |
| `PipelineWitness.ForgedPieceFails` | src/daemon/verify_worker.cpp:80-101 | A run from the start of a download to a chunk that failed: a requested byte that does not hash to the seed entry. |
| `PipelineDuplicates.CompleteChunkMatches` | src/daemon/chunk_assembler.cpp:50-62 | Over every run, honest peers or not: if all accepted pieces of a chunk agree slot by slot, a COMPLETE chunk hashes to its seed entry. |
| `PipelineDuplicates.LateDuplicateReplaces` | src/daemon/chunk_assembler.cpp:50-62 | Where they do not agree: any second answer for a COMPLETE chunk, once its idle worker gets to it, replaces the verified bytes while the chunk stays COMPLETE. |
| `PipelineDuplicates.DuplicateChangesNothing` | src/daemon/chunk_assembler.cpp:50-62 | Once a chunk has been reported, copying an agreeing duplicate over it changes no byte. |
| `PipelineWitness.ForgedDuplicateReplaces` | src/daemon/chunk_assembler.cpp:50-62 | A run from the start of a download to a COMPLETE chunk that does not hash to its seed entry. |
| `PipelineRuns.TickNeverBlocked` | src/daemon/task_manager.cpp:631-668 | Every reachable state lets the tick settle: the drained results always name chunks of the file. |
| `PipelineRuns.StepKeeps` | src/daemon/io_worker.cpp:49-90 | Every atomic step of the network thread, a worker, a verifier or the tick keeps the pipeline invariant. |
| `PipelineRuns.RunKeeps` | src/daemon/io_worker.cpp:49-90 | The pipeline invariant holds along every run. |
| `PipelineRuns.StartHolds` | src/daemon/task_manager.cpp:264-336 | The state built for a new or resumed download satisfies the pipeline invariant. |
| `PipelineHonest.HonestRunsDeliverTheFile` | src/daemon/verify_worker.cpp:66-106 | If every piece handed over carries the published bytes, no chunk ever fails over any run, duplicates and byte-wise races included, and a complete download holds exactly the published file. |
| `PipelineFinish.DownloadCanFinishIff` | src/daemon/task_manager.cpp:631-680 | In every state that a download reaches with peers that serve the published file, and that is not "waiting": some further run of such peers makes it "complete" if and only if every chunk that was not on disk is a multiple of 16384 long or ends at the end of the file. No such state is a dead end. |
| `PipelineFinish.AnywhereCanFinish` | src/daemon/task_manager.cpp:631-680 | The constructive half: everybody leaves, workers and verifiers come to rest, peers come back one at a time and answer one request each, and the next tick completes the download. |
| `PipelineFinish.Visits` | src/daemon/scheduler.cpp:187-210 | As long as a sub-block of an unfinished chunk is not marked as requested, one more visit of a peer that has everything leaves fewer unmarked, until none is left. |
| `PipelineFinish.LastTick` | src/daemon/task_manager.cpp:641-680 | With every sub-block requested, nobody connected and everyone at rest, every verdict is waiting, and the tick completes the download. |
| `PipelineDrain.Drain` | src/daemon/io_worker.cpp:49-90 | From every state of a served run, workers and verifiers alone can reach a state in which all queues are empty and all of them idle; the scheduler does not change. |
| `PipelineDrain.StaysComplete` | src/daemon/scheduler.cpp:503-544 | While no chunk has failed and all waiting verdicts are good, as with honest peers, every step leaves a COMPLETE chunk COMPLETE. |
| `PipelineArrival.StepDone` | src/daemon/peer_session.cpp:331-361 | Every step keeps: a sub-block the scheduler takes for done was delivered. |
| `PipelineArrival.StepDropsNothing` | src/daemon/io_worker.cpp:49-90 | Every step keeps: a delivered piece that fits is queued or being copied at its worker, or its slot is marked. |
| `PipelineDisk.CompleteDownloadIsOnDisk` | src/daemon/task_manager.cpp:416-427 | Pipeline and mapping together: the flat file, written byte by byte by all workers through the bases of their chunks, is the published file once the download is "complete", over every run with honest pieces and intact restored chunks. |
| `PipelineDisk.RunMirrors` | src/daemon/chunk_assembler.cpp:50-51 | Over every run, whatever the pieces: each chunk memory reads as its range of the flat file, also while other chunks are written through overlapping views. |
| `PipelineDisk.MapChunks` | src/daemon/task_manager.cpp:416-427 | The loop gives every chunk a base that shows its own range, all at once; with room for the maps it fails only over a chunk the writer does not accept. |
| `PipelineMemory.WorkersWriteApart` | src/daemon/io_worker.cpp:41-47 | Two workers that copy at the same time write disjoint ranges, because the route depends on chunk and slot only. |
| `PipelineMemory.NothingTornAtMark` | src/daemon/chunk_assembler.cpp:50-54 | In every reachable state, when a worker marks a slot, the bytes of the slot are exactly the piece it was handed. |
| `PipelineMemory.EverySlotWrittenAtFinish` | src/daemon/chunk_assembler.cpp:53-61 | In every reachable state, when the countdown is about to reach zero every slot is marked, and a slot no worker is rewriting holds one delivered piece entire. |
| `PipelineMemory.ReachableIsSound` | src/daemon/chunk_assembler.cpp:29-64 | In every state of every download, whatever its peers delivered, a marked slot is a delivered piece, or the newest bytes of one copied over another delivered piece. |
| `PipelineMemory.StartMemory` | src/daemon/task_manager.cpp:264-336 | A download starts with nothing marked and nobody copying. |
| `PipelineMemory.WorkerAloneIsReceive` | src/daemon/chunk_assembler.cpp:29-64 | A worker that runs without interruption does to the assembler, and reports, exactly what one call of the sequential `on_piece` does. |
| `PipelineMemory.TurnIsStep` | src/daemon/io_worker.cpp:49-90 | Every turn of the uninterrupted worker is one of the interleaved steps. |
| `PipelineSteps.TakeKeeps` | src/daemon/io_worker.cpp:49-75 | Dequeuing a piece, accepted or refused, keeps the pipeline invariant. |
| `PipelineSteps.CopyKeeps` | src/daemon/chunk_assembler.cpp:50-51 | Copying one byte keeps the pipeline invariant. |
| `PipelineSteps.MarkKeeps` | src/daemon/chunk_assembler.cpp:53-56 | `fetch_or` on the mask keeps it: unmarked slots plus marks not yet counted down stay equal to the counter. |
| `PipelineSteps.CountDownKeeps` | src/daemon/chunk_assembler.cpp:56-61 | `fetch_sub` keeps it: a worker becomes the reporter exactly when the counter reaches zero. |
| `PipelineSteps.ReportKeeps` | src/daemon/io_worker.cpp:81-84 | Handing the completed chunk to the verifiers keeps the number of reports of it. |
| `PipelineSteps.FetchKeeps` | src/daemon/verify_worker.cpp:66-75 | Dequeuing a verify task keeps the pipeline invariant. |
| `PipelineSteps.ReadKeeps` | src/daemon/verify_worker.cpp:80 | Hashing reads the chunk byte by byte while workers may still write; the invariant is kept. |
| `PipelineSteps.PostKeeps` | src/daemon/verify_worker.cpp:83-101 | Posting the verdict keeps the number of reports of the chunk. |
| `PipelineSteps.NetKeeps` | src/daemon/peer_session.cpp:186-197 | Any scheduler event from the network keeps the pipeline invariant, and every request it sends is for a sub-block of the file. |
| `PipelineSteps.DeliverKeeps` | src/daemon/peer_session.cpp:331-361 | Handing over a piece and counting it in the scheduler keeps the pipeline invariant. |
| `PipelineSettle.SettleKeeps` | src/daemon/task_manager.cpp:631-680 | A tick that drains any mix of passed and failed chunks keeps the pipeline invariant. |
| `PipelineSettle.SettleFromKeeps` | src/daemon/task_manager.cpp:641-665 | The loop over the results keeps `bytes_done` equal to the COMPLETE chunks plus the chunks collected in `passed`. |
| `PipelineSettle.PassedAreFresh` | src/daemon/task_manager.cpp:641-667 | The chunks collected in one tick are distinct and none of them was COMPLETE before. |
| `PipelineSettle.TaskMoves` | src/daemon/task_manager.cpp:670-685 | Moving the state of the download on keeps the pipeline invariant: "complete" is entered only with every chunk COMPLETE. |
| `PipelineSettle.AllBytesMeansAll` | src/daemon/task_manager.cpp:670 | `bytes_done` reaching the file size means that every chunk is COMPLETE. |
| `PipelineInvariant.NotCompleteWhileReported` | src/daemon/chunk_assembler.cpp:53-63 | While a report of a chunk is on its way the chunk is not COMPLETE. |
| `PipelineInvariant.AllMarkedWhenReported` | src/daemon/chunk_assembler.cpp:53-61 | Whenever a report of a chunk is on its way or settled, all its slots are marked. |
| `ServedPieces.CompletableIff` | src/daemon/scheduler.cpp:297-298 | With a server that reads min(16384, bytes to end of file), some sequence of requestable pieces completes a non-empty chunk if and only if its length is a multiple of 16384 or it ends at the end of the file. |
| `ServedPieces.NeverFinishes` | src/daemon/chunk_assembler.cpp:39-43 | A ragged chunk that is not the last of the file is never completed, whatever is requested: its tail is refused every time. |
| `ServedPieces.InOrderFinishes` | src/daemon/peer_session.cpp:199-291 | Otherwise requesting every sub-block once completes it. |
| `ServedPieces.RaggedChunkNeverCompletes` | src/daemon/chunk_assembler.cpp:39-43 | Over every run with peers that serve the file: a ragged chunk that is not the last one and was not on disk is never COMPLETE, and the download never "complete". |
| `ServedPieces.DefaultChunksComplete` | src/cdc/fastcdc.cpp:100-118 | Every chunk the program cuts with an average from 2048 on and a maximum that is a multiple of 16384, as by default, can be completed. |
| `ServedPieces.ServedPieceIsHonest` | src/daemon/peer_session.cpp:210-213 | What a holder of the file serves for a requestable sub-block is long enough and carries the published bytes. |
| `DownloadTasks.DownloadTask.constructor` | src/daemon/task_manager.cpp:297-308 | A task starts as "downloading" with the bytes already on disk. |
| `DownloadTasks.DownloadTask.OnTick` | src/daemon/task_manager.cpp:631-685 | The tick leaves the scheduler, `bytes_done` and the state of the download as the settlement of the drained results says, and keeps the scheduler invariant. |
| `DownloadTasks.SettledIsSettleStep` | src/daemon/task_manager.cpp:631-685 | That settlement is the settle step of the pipeline machine: scheduler, byte counter and state agree. |
| `DownloadTasks.HistoriesDoNotMatter` | src/daemon/task_manager.cpp:641-665 | The histories the machine keeps do not influence the settlement. |
| `DownloadTasks.DownloadTask.SettleResults` | src/daemon/task_manager.cpp:641-665 | The result loop does one settlement per result, in order. |
| `DownloadTasks.DownloadTask.SettleResult` | src/daemon/task_manager.cpp:642-664 | A passed chunk is counted and collected; a failed one goes back to the scheduler. |
| `DownloadTasks.DownloadTask.UpdateState` | src/daemon/task_manager.cpp:670-685 | "complete" wins over "waiting"; a task that is not downloading does not change. |
| `SchedulerEvents.RunsFromInitAreSound` | src/daemon/scheduler.cpp:35-592 | In every state reachable by any sequence of scheduler events: no requested sub-block of an unfinished chunk is orphaned, the active list is duplicate-free and exactly the unfinished chunks, the request counter is a lower bound and the done counter exact, availability covers the advertisers, slots are unique, and before ENDGAME no peer has more than 128 requests pending. |
| `SchedulerEvents.ReachableStatesAreSound` | src/daemon/scheduler.cpp:84-592 | The same from any state that satisfies the invariant. |
| `SchedulerEvents.ApplyKeeps` | src/daemon/scheduler.cpp:84-592 | Every single event keeps the scheduler invariant. |
| `SchedulerEvents.DisciplinedRunsCount` | src/daemon/scheduler.cpp:503-592 | On runs in which no COMPLETE chunk is completed, failed or restored over again, `missing_count_` counts the unfinished chunks throughout and the phase is DONE exactly when there are none. |
| `SchedulerEvents.CompletionCountsOnce` | src/daemon/scheduler.cpp:503-520 | A completion keeps the count exact if and only if the chunk was not COMPLETE. |
| `SchedulerEvents.FailureCountsOnce` | src/daemon/scheduler.cpp:529-544 | A failed verification keeps the count exact if and only if the chunk was not COMPLETE. |
| `SchedulerEvents.RestoreCountsOnce` | src/daemon/scheduler.cpp:572-579 | Restoring a chunk keeps the count exact if and only if it was MISSING or already COMPLETE. |
| `SchedulerEvents.ExcessDrift` | src/daemon/scheduler.cpp:84-104 | Every event moves the gap between `availability_[c]` and the number of advertisers of c by exactly the set bits a repeated BITFIELD overwrites. |
| `SchedulerEvents.ExactnessSurvives` | src/daemon/scheduler.cpp:84-93 | Exact availability survives an event if and only if no advertised bit is overwritten by a BITFIELD. |
| `SchedulerEvents.FreshBitfieldsStayExact` | src/daemon/scheduler.cpp:84-146 | On runs where a BITFIELD only ever replaces an empty one, availability equals the number of advertisers. |
| `SchedulerWitness.RepeatedBitfieldCountsTwice` | src/daemon/peer_session.cpp:186-197 | A run to an availability of two with one peer there: it sent its BITFIELD twice. |
| `SchedulerMessages.BitfieldFirstMeansExact` | src/daemon/scheduler.cpp:84-146 | If every peer sends at most one BITFIELD, and no HAVE before it, availability equals the number of advertisers in every state of the run. |
| `SchedulerCounters.CounterSurvivesIff` | src/daemon/scheduler.cpp:275-564 | The request counter of an unfinished chunk, equal to its requested bits before an event, is equal after it if and only if the rebalancing of the event asked for no sub-block whose bit was clear; where the event finishes the chunk, if and only if no bit was set. |
| `SchedulerCounters.CounterSurvivesWhenFlagged` | src/daemon/scheduler.cpp:275-564 | In particular it is after every event that leaves the chunk unfinished, if before the event every sub-block of the chunk in flight has its bit set. |
| `SchedulerFlags.FlaggedSurvivesIff` | src/daemon/scheduler.cpp:84-592 | If every sub-block of a chunk in flight has its bit set, this is so after an event if and only if the event is none of three: a timeout of a sub-block of the unfinished chunk that some peer carries, a failed hash of the chunk while some of it is in flight, the loss of a peer that carries a sub-block of it together with another one. |
| `SchedulerFlags.CounterExactOnCalmRuns` | src/daemon/scheduler.cpp:35-592 | On every run from a fresh scheduler without such an event for a chunk that stays unfinished, its request counter is the number of its requested bits. |
| `SchedulerFlags.TimeoutFlaggedIff` | src/daemon/scheduler.cpp:546-564 | A timeout leaves something in flight unmarked if and only if the chunk is unfinished and some peer carries the sub-block: the in-flight entry stays. |
| `SchedulerFlags.FailureFlaggedIff` | src/daemon/scheduler.cpp:529-544 | A failed hash does if and only if some of the chunk is in flight. |
| `SchedulerFlags.RemovalFlaggedIff` | src/daemon/scheduler.cpp:148-174 | A disconnect does if and only if the lost peer shared a sub-block of the chunk with another. |
| `SchedulerCounters.MoveOneCounts` | src/daemon/scheduler.cpp:369-379 | One move keeps the counter exact if and only if the bit was set. |
| `SchedulerCounters.TimeoutCounts` | src/daemon/scheduler.cpp:546-564 | A timeout always keeps it exact. |
| `SchedulerCounters.CompletionCounts` | src/daemon/scheduler.cpp:503-518 | A completion makes it exact if and only if no bit is set: the count is forgotten, the bits stay. |
| `SchedulerWitness.RebalancingLeavesCounterBehind` | src/daemon/scheduler.cpp:369-379 | A run to a counter below its bits: a request times out and is then moved to a partial source. |
| `SchedulerWitness.FailureLeavesCounterBehind` | src/daemon/scheduler.cpp:529-544 | Another one, without a timeout: the chunk fails its hash while a request for it is in flight, which a partial source then takes over. |
| `SchedulerWitness.CompletionLeavesCounterBehind` | src/daemon/scheduler.cpp:503-518 | And one without rebalancing: the chunk is completed. |
| `SchedulerEvents.InitHolds` | src/daemon/scheduler.cpp:35-56 | A fresh scheduler satisfies the invariant and counts its chunks. |
| `SchedulerEvents.ShuffleKeeps` | src/daemon/scheduler.cpp:62-65 | Any permutation of the active list keeps the invariant. |
| `SchedulerEvents.ChunkSizesKeeps` | src/daemon/scheduler.cpp:71-82 | Setting the chunk sizes keeps the invariant. |
| `SchedulerRuns.OnBitfieldKeeps` | src/daemon/scheduler.cpp:84-93 | BITFIELD, with the rebalancing it triggers, keeps the invariant and finishes or reopens no chunk. |
| `SchedulerRuns.OnHaveKeeps` | src/daemon/scheduler.cpp:95-104 | HAVE, with the rebalancing it triggers, keeps it. |
| `SchedulerRuns.OnPeerAddedKeeps` | src/daemon/scheduler.cpp:123-130 | A new slot id keeps it. |
| `SchedulerRuns.PeerUpdateKeeps` | src/daemon/scheduler.cpp:132-137 | Changing a peer's speed, choke flag or tuning keeps it. |
| `SchedulerRuns.WithoutPeerKeeps` | src/daemon/scheduler.cpp:139-180 | A disconnect keeps it: everything the lost peer carried becomes requestable again and availability does not underflow. |
| `SchedulerRuns.RemovalLeavesNoOrphan` | src/daemon/scheduler.cpp:148-176 | After a disconnect every requested sub-block of an unfinished chunk is done or carried by a peer that stays. |
| `SchedulerRuns.LandedKeeps` | src/daemon/scheduler.cpp:187-202 | An arriving piece is marked done and leaves the in-flight set; the counters stay sound. |
| `SchedulerRuns.OnPieceKeeps` | src/daemon/scheduler.cpp:187-210 | A piece with the scheduling it triggers keeps the invariant, also when nobody asked for it. |
| `SchedulerRuns.OnTimeoutKeeps` | src/daemon/scheduler.cpp:546-564 | A timeout clears the request and keeps the invariant although the in-flight entry stays. |
| `SchedulerRuns.CancelKeeps` | src/daemon/scheduler.cpp:485-501 | Cancelling the losers of a COMPLETE chunk keeps it. |
| `SchedulerRuns.CompleteOneKeeps` | src/daemon/scheduler.cpp:503-520 | Completing a chunk keeps the invariant, sends no request, changes only that chunk and takes one, with 32-bit wrap-around, from the count. |
| `SchedulerRuns.CompleteFromMissing` | src/daemon/scheduler.cpp:503-520 | A batch of distinct unfinished chunks keeps the count exact. |
| `SchedulerRuns.ProcessCompletionsKeeps` | src/daemon/scheduler.cpp:503-527 | A batch of completions makes exactly the named chunks COMPLETE and keeps the invariant. |
| `SchedulerRuns.VerifyFailedKeeps` | src/daemon/scheduler.cpp:529-544 | Reopening a chunk keeps the invariant, also one that left the active list. |
| `SchedulerRuns.MarkFromKeeps` | src/daemon/scheduler.cpp:572-588 | Restoring makes exactly the marked chunks COMPLETE and keeps the invariant. |
| `SchedulerRuns.SwapRemoveExact` | src/daemon/scheduler.cpp:508-512 | Removal by swapping in the last element leaves exactly the unfinished chunks. |
| `SchedulerInvariant.ScheduleForPeerKeeps` | src/daemon/scheduler.cpp:307-341 | Scheduling keeps the invariant and asks only for existing sub-blocks of unfinished chunks. |
| `SchedulerInvariant.RebalanceKeeps` | src/daemon/scheduler.cpp:343-387 | Rebalancing keeps the invariant, choked receivers included. |
| `SchedulerInvariant.MoveOneKeeps` | src/daemon/scheduler.cpp:369-379 | Moving a request from one peer to another loses no sub-block. |
| `SchedulerInvariant.LaunchedKeeps` | src/daemon/scheduler.cpp:404-483 | Redundant requests outside the normal phase keep the invariant. |
| `SchedulerInvariant.EndgameListLaunches` | src/daemon/scheduler.cpp:424-482 | An endgame pass over the chunks in any order only adds requests for unfinished chunks. |
| `SchedulerInvariant.TickKeeps` | src/daemon/scheduler.cpp:389-402 | A tick, in any phase, keeps the invariant. |
| `SchedulerPolicy.SelectBestIsArgmax` | src/daemon/scheduler.cpp:219-249 | The selected slot is the first eligible peer that none outranks by score and then by fewer chunks; none is selected exactly when every eligible peer scores as low as the sentinel. |
| `SchedulerPolicy.SomebodyIsChosen` | src/daemon/scheduler.cpp:219-249 | With fewer than 2^28 requests pending, somebody is selected exactly when somebody is eligible. |
| `SchedulerPolicy.RequestsAreRarestFirst` | src/daemon/scheduler.cpp:307-341 | One scheduling call sends its requests in non-decreasing availability, ties in active-list order, sub-blocks of a chunk in order. |
| `SchedulerPolicy.SchedulingRespectsCap` | src/daemon/scheduler.cpp:307-313 | One call lifts only this peer and never above its effective window, which is at most 32 for a full source while a partial source exists. |
| `SchedulerPolicy.SkippedMeansRequested` | src/daemon/scheduler.cpp:275-288 | The counter test that skips a chunk never hides an unrequested sub-block. |
| `SchedulerPolicy.SoleSourceSaturates` | src/daemon/scheduler.cpp:275-341 | A sole eligible source ends scheduling at its window or with every sub-block it can serve requested. |
| `SchedulerProgress.LoneSourceIsAsked` | src/daemon/scheduler.cpp:275-341 | An idle unchoked peer that has every chunk and is the only one is asked for a sub-block that was not marked, whenever an unfinished chunk has one. |
| `SchedulerProgress.Visit` | src/daemon/scheduler.cpp:139-210 | After it was asked, answered and left, fewer sub-blocks than before are unmarked. |
| `SchedulerProgress.LoneTick` | src/daemon/scheduler.cpp:389-483 | While nothing that was asked for is overdue, the tick with that peer is one scheduling call, in the endgame too. |
| `SchedulerProgress.ScheduleRises` | src/daemon/scheduler.cpp:275-341 | One scheduling call unmarks nothing, and raises the pending count of its peer exactly when it marks something. |
| `SchedulerTransfers.RebalanceMovesBoundedly` | src/daemon/scheduler.cpp:343-387 | Rebalancing makes at most `max_moves` transfers, never lifts the receiver above its window, keeps the set of in-flight, not yet done sub-blocks, and moves each from a full source, which no longer has it in flight, to a peer that advertises the chunk. |
| `SchedulerTransfers.TickSparesSeeds` | src/daemon/scheduler.cpp:389-402 | While a partial source exists, a tick in the normal phase lifts no full source above 32 pending requests. |
| `SchedulerMessages.EventSparesSeeds` | src/daemon/scheduler.cpp:84-402 | Before ENDGAME, while a partial source exists, no event of any kind lifts a full source above 32 pending requests. |
| `SchedulerRecovery.SchedulingMarksWhatItSends` | src/daemon/scheduler.cpp:275-305 | For every sub-block of the file: one scheduling call marks it as newly requested exactly if it sends the request for it to this peer, who then has it in flight. |
| `SchedulerRecovery.TimedOutIsAskedAgain` | src/daemon/scheduler.cpp:546-564 | After a timeout the next scheduling of the sole source sends that sub-block again, or leaves the source at its window. |
| `SchedulerRecovery.LostIsAskedAgain` | src/daemon/scheduler.cpp:148-174 | After a disconnect the same holds of every sub-block the lost peer had in flight. |
| `SchedulerRecovery.FailedIsAskedAgain` | src/daemon/scheduler.cpp:529-544 | After a failed hash the same holds of every sub-block of the chunk. |
| `SchedulerRecovery.CompletionCallsOffLosers` | src/daemon/scheduler.cpp:485-518 | A completion cancels exactly the sub-blocks of the chunk that peers other than the winner had in flight, touches no other flight, and announces the chunk once, last. |
| `SchedulerEndgame.EndgamePassIsBounded` | src/daemon/scheduler.cpp:404-483 | One endgame pass sends requests for at most 32 chunks, at most two per overdue sub-block and one per peer and chunk, only to unchoked peers that advertise the chunk, have fewer than three timeouts, are not the primary and had nothing in flight for it. |
| `SchedulerEndgame.EndgameListBounded` | src/daemon/scheduler.cpp:424-482 | The same bounds for any duplicate-free order of the chunks. |
| `SchedulerEndgame.RedundantPeersSpec` | src/daemon/scheduler.cpp:251-273 | At most two different helpers, all eligible; an eligible peer that is passed over has at least as much pending as both. |
| `Scheduling.Scheduler.constructor` | src/daemon/scheduler.cpp:35-56 | A new scheduler is the initial state. |
| `Scheduling.Scheduler.SetCancelIssuer` | src/daemon/scheduler.cpp:58-60 | Cancels are possible from now on; nothing else changes. |
| `Scheduling.Scheduler.SetNotInterestedIssuer` | src/daemon/scheduler.cpp:67-69 | NOT_INTERESTED can be sent from now on. |
| `Scheduling.Scheduler.RandomizePieceOrder` | src/daemon/scheduler.cpp:62-65 | The active list becomes the given permutation of itself. |
| `Scheduling.Scheduler.SetSizes` | src/daemon/scheduler.cpp:71-82 | The loop gives every chunk a clear table of ceil(size / 16384) sub-blocks. |
| `Scheduling.Scheduler.PeerIndex` | src/daemon/scheduler.cpp:212-217 | The first peer with the slot id, if any. |
| `Scheduling.Scheduler.WantsPeerNow` | src/daemon/scheduler.cpp:106-121 | True exactly when the peer advertises an unfinished chunk. |
| `Scheduling.Scheduler.SelectBestPeer` | src/daemon/scheduler.cpp:219-249 | The loop computes the selection `SelectBestIsArgmax` characterises. |
| `Scheduling.Scheduler.IssueRequests` | src/daemon/scheduler.cpp:289-304 | The loop issues the unrequested sub-blocks up to the window. |
| `Scheduling.Scheduler.TryScheduleChunkOnPeer` | src/daemon/scheduler.cpp:275-305 | In-place form of one chunk's scheduling. |
| `Scheduling.Scheduler.CollectCandidates` | src/daemon/scheduler.cpp:315-330 | The wanted chunks of the active list, in its order, with their availability. |
| `Scheduling.Scheduler.TryScheduleForPeer` | src/daemon/scheduler.cpp:307-341 | In-place form of `ScheduleForPeer`, stable sort included. |
| `Scheduling.Scheduler.MoveOneRequest` | src/daemon/scheduler.cpp:349-384 | In-place form of one search for a request to move. |
| `Scheduling.Scheduler.RebalanceSeedRequestsForPeer` | src/daemon/scheduler.cpp:343-387 | In-place form of `Rebalance`. |
| `Scheduling.Scheduler.FindPrimary` | src/daemon/scheduler.cpp:431-439 | The first of the peers with the most of the chunk in flight. |
| `Scheduling.Scheduler.FindRedundantPeers` | src/daemon/scheduler.cpp:251-273 | The two least loaded eligible helpers. |
| `Scheduling.Scheduler.RescueChunk` | src/daemon/scheduler.cpp:449-477 | In-place form of the rescue of one chunk. |
| `Scheduling.Scheduler.TickEndgamePass` | src/daemon/scheduler.cpp:404-483 | In-place form of the endgame pass. |
| `Scheduling.Scheduler.OnTick` | src/daemon/scheduler.cpp:389-402 | In-place form of `Tick`; keeps the invariant. |
| `Scheduling.Scheduler.CheckPeerInterest` | src/daemon/scheduler.cpp:566-570 | Sends NOT_INTERESTED exactly to a peer with nothing wanted. |
| `Scheduling.Scheduler.OnBitfieldMessage` | src/daemon/scheduler.cpp:84-93 | In-place form of `OnBitfield`; keeps the invariant. |
| `Scheduling.Scheduler.OnHaveMessage` | src/daemon/scheduler.cpp:95-104 | In-place form of `OnHave`; keeps the invariant. |
| `Scheduling.Scheduler.AddPeer` | src/daemon/scheduler.cpp:123-130 | Appends an idle, choking peer with an empty bitfield. |
| `Scheduling.Scheduler.SetPeerSpeed` | src/daemon/scheduler.cpp:132-137 | Changes the speed of that peer only. |
| `Scheduling.Scheduler.SetChoking` | src/daemon/scheduler.cpp:182-185 | Changes the choke flag of that peer only. |
| `Scheduling.Scheduler.TunePeer` | src/daemon/peer_session.cpp:495-503 | Copies window, timeouts and latency to that peer only. |
| `Scheduling.Scheduler.ReleaseAll` | src/daemon/scheduler.cpp:150-174 | Releases exactly what the departing peer carried. |
| `Scheduling.Scheduler.RemovePeer` | src/daemon/scheduler.cpp:139-180 | In-place form of `OnPeerRemoved`; keeps the invariant. |
| `Scheduling.Scheduler.DecPeerPending` | src/daemon/scheduler.cpp:187-210 | In-place form of `OnPiece`; keeps the invariant. |
| `Scheduling.Scheduler.OnSubblockTimeout` | src/daemon/scheduler.cpp:546-564 | In-place form of `OnTimeout`; keeps the invariant. |
| `Scheduling.Scheduler.SendCancelForChunk` | src/daemon/scheduler.cpp:485-501 | In-place form of `SendCancel`. |
| `Scheduling.Scheduler.RemoveActive` | src/daemon/scheduler.cpp:508-512 | Removes the chunk by swapping in the last element. |
| `Scheduling.Scheduler.OnCompletions` | src/daemon/scheduler.cpp:503-527 | In-place form of `ProcessCompletions`; keeps the invariant. |
| `Scheduling.Scheduler.OnVerifyFailed` | src/daemon/scheduler.cpp:529-544 | In-place form of `VerifyFailed`; keeps the invariant. |
| `Scheduling.Scheduler.RestoreComplete` | src/daemon/scheduler.cpp:572-592 | In-place form of `MarkAllComplete`; keeps the invariant. |
| `Assembly.ReceiveFinishes` | src/daemon/chunk_assembler.cpp:29-64 | A call returns true exactly when it marks the last missing slot; the counter stays the number of unmarked slots. |
| `Assembly.SlotsTile` | src/daemon/chunk_assembler.cpp:16-26 | The slots are non-empty, at most one block long, and together as long as the chunk. |
| `Assembly.SlotStartsInside` | src/daemon/chunk_assembler.cpp:16 | A slot number is below the slot count exactly when the slot starts inside the chunk. |
| `Assembly.MarkOneMore` | src/daemon/chunk_assembler.cpp:30-32 | Setting bit slot % 32 of word slot / 32 adds exactly that slot to the marked set. |
| `Assembly.ChunkAssembler.constructor` | src/daemon/chunk_assembler.cpp:8-27 | Nothing is marked, the counter is the slot count, and the table lists every slot with its begin and length. |
| `Assembly.ChunkAssembler.OnPiece` | src/daemon/chunk_assembler.cpp:29-64 | The array, mask and counter become what `Receive` says; without a region nothing changes. |
| `Assembly.ChunkAssembler.Store` | src/daemon/chunk_assembler.cpp:50-63 | An accepted piece is copied, marked and counted down. |
| `Assembly.ChunkAssembler.FetchOr` | src/daemon/chunk_assembler.cpp:53-56 | Adds the slot to the marked set and tells whether it was new. |
| `Assembly.ChunkAssembler.Copy` | src/daemon/chunk_assembler.cpp:50-51 | Overwrites exactly the piece's range. |
| `Assembly.ChunkAssembler.IsComplete` | src/daemon/chunk_assembler.hpp:35-37 | True exactly when every slot is marked. |
| `FastCdc.ScanBuffer` | src/cdc/fastcdc.cpp:86-119 | The scan loop returns the recursive chunk list of the buffer. |
| `FastCdc.Scan` | src/cdc/fastcdc.cpp:96-118 | The same for any update and hit function. |
| `FastCdc.CountMaskBits` | src/cdc/fastcdc.cpp:36-39 | Floor of the binary logarithm, less two when it is above one. |
| `FastCdc.InitMask` | src/cdc/fastcdc.cpp:34-44 | That many low bits. |
| `FastCdc.MaskFits` | src/cdc/fastcdc.cpp:40 | A 32-bit average size asks for fewer than 32 mask bits, so the shift does not overflow. |
| `FastCdc.ChunksTile` | src/cdc/fastcdc.cpp:100-118 | The chunks tile the buffer without gap or overlap, none is empty or above the maximum, and all but the last reach the minimum. |
| `FastCdc.PrefixChunksSame` | src/cdc/fastcdc.cpp:100-118 | Every chunk up to a non-last chunk inside a common prefix of two files is the same in both. |
| `FastCdc.SuffixResyncs` | src/cdc/fastcdc.cpp:100-118 | Where a chunk of one file and a chunk of another are followed by the same bytes up to the ends of the files, the two chunk lists have equally many chunks left, and these correspond one by one up to the shift. |
| `FastCdc.TailIsRestart` | src/cdc/fastcdc.cpp:114-115 | From any of its chunks on, the chunk list of a file is the scan restarted there: the fingerprint and the start forget what was before a boundary. |
| `FastCdc.ContentCutNeedsZeros` | src/cdc/fastcdc.cpp:20-22 | A content cut forces the table entry of the byte j places back to be zero on bits 1 and up of the mask shifted right by j. |
| `FastCdc.NoZeroEntryMeansFixedBlocks` | src/cdc/fastcdc.cpp:100-118 | A table with no entry that is zero on the mask bits above bit 0 makes the scan cut fixed `max_size` blocks. |
| `GearTable.BuildGear` | src/cdc/fastcdc.cpp:9-17 | The loop fills the table with the 256 iterates of the generator. |
| `GearTable.GearIsLiveIff` | src/cdc/fastcdc.cpp:9-17 | The actual table has no entry that is zero above bit 0 of the mask if and only if the mask has at least nine bits. |
| `GearTable.DefaultScanIsFixedBlocks` | src/cdc/fastcdc.cpp:34-44 | With the actual table and an average size of 2048 or more, which includes the default, the scan of every buffer is fixed `max_size` blocking. |
| `GearTable.FixedBlocksIff` | src/cdc/fastcdc.cpp:34-44 | With the actual table, for every configuration: all files are cut into fixed blocks of the maximum size if and only if the average is at least 2048, or the minimum is not below the maximum, or the maximum is at most 1, or it is 2 and the average at least 1024. |
| `GearTable.ThirteensCut` | src/cdc/fastcdc.cpp:100-118 | Otherwise a byte 90 followed by bytes 13 is cut before the maximum, whatever the minimum below it. |
| `GearTable.TwoByteBlocks` | src/cdc/fastcdc.cpp:100-118 | A maximum of two bytes under eight mask bits: no single byte meets the mask, so all blocks but the last have two bytes. |
| `Reuse.ReuseBlocks` | src/daemon/task_manager.cpp:440-471 | Each old block is used at most once, marked chunks never exceed the multiset intersection of old and new (hash, length) pairs and equal it when every clone succeeds, every marked chunk of the new file hashes to its seed entry even if other clones failed half-way, and the matched bytes are the total length of the marked chunks. |
| `Reuse.ReuseOne` | src/daemon/task_manager.cpp:447-466 | One wanted chunk: matched, when clones succeed, exactly if a block of its key is left; then one such block leaves the index. |
| `Reuse.CloneFirst` | src/daemon/task_manager.cpp:452-464 | Finds the first candidate of the right length whose clone succeeds, without disturbing chunks already marked. |
| `Reuse.BuildIndex` | src/daemon/task_manager.cpp:386-403 | The index lists the old blocks by hash in scan order. |
| `Reuse.IntersectionOfBags` | src/daemon/task_manager.cpp:440-471 | Matching the least of the two counts for every key is equality with the multiset intersection. |
| `Reuse.IntersectionGrows` | src/daemon/task_manager.cpp:447-466 | The greedy step keeps the matched chunks the intersection with what has been read of the new file. |
| `Reuse.CloneStaysInside` | src/daemon/task_manager.cpp:454-457 | A clone, failed or not, leaves chunks outside its target intact. |
| `Reuse.ResumeMatch` | src/daemon/task_manager.cpp:274-292 | A chunk is resumed exactly when the local scan has the same hash, offset and length; the bytes are the total of the resumed chunks. |
| `Reuse.FindSame` | src/daemon/task_manager.cpp:285-291 | Finds a candidate with the same offset and length. |
| `Reuse.ResumeIsSound` | src/daemon/task_manager.cpp:266-297 | Every resumed chunk of the local file hashes to its seed entry, and a complete file is resumed entirely. |
| `Reuse.ScannedBlocksHold` | src/cdc/fastcdc.cpp:111-112 | The blocks of a scan lie in the file, apart from each other, and hash to their entries. |
| `Reuse.ScannedIsScan` | src/cdc/fastcdc.cpp:111-112 | Hashing does not change offsets and lengths. |
| `EditReuse.EditKeepsShared` | src/daemon/task_manager.cpp:440-471 | Edit and update together, with the same chunk sizes in both seeds: with every clone successful, the chunks that need no download include, key by key and in bytes, all chunks in front of the edit and all those behind the boundaries where old and new file agree again. |
| `EditReuse.PrefixSurvives` | src/cdc/fastcdc.cpp:100-118 | The chunks inside a common prefix, the last of the file apart, keep hash and length. |
| `EditReuse.TailSurvives` | src/cdc/fastcdc.cpp:100-118 | So do the chunks behind two boundaries that the same bytes follow. |
| `SegmentIo.SegmentWriter.constructor` | src/daemon/segment_io.hpp:62-70 | A writer starts closed with nothing mapped. |
| `SegmentIo.SegmentWriter.Open` | src/daemon/segment_io.cpp:57-123 | Opens exactly for a non-empty file that can be created; the segment size is at least 1 MB. |
| `SegmentIo.SegmentWriter.GetChunkBase` | src/daemon/segment_io.cpp:125-160 | A returned address shows exactly file bytes [offset, offset + size); for every chunk of at most 1 MB inside the file, mapping permitting, one is returned; earlier mappings are untouched and at most one is added. |
| `SegmentIo.SegmentWriter.Lookup` | src/daemon/segment_io.cpp:137-151 | The cached segment, the map entry and a new mapping agree. |
| `SegmentIo.SegmentWriter.Locate` | src/daemon/segment_io.cpp:153-159 | The guard check passes for every acceptable chunk. |
| `SegmentIo.SegmentWriter.MapSegment` | src/daemon/segment_io.cpp:181-234 | Adds one view that starts at the segment and covers its guard; removes none. |
| `SegmentIo.SegmentWriter.Close` | src/daemon/segment_io.cpp:162-177 | Nothing stays mapped or cached. |
| `SegmentIo.GuardCovers` | src/daemon/segment_io.cpp:153-154 | A chunk of at most 1 MB that starts in a segment lies inside the over-mapped segment, whatever the segment size. |
| `SegmentIo.ChunkInSegment` | src/daemon/segment_io.cpp:134-157 | The 32-bit segment index starts at or before the chunk; without truncation the guard check cannot fail. |
| `SegmentIo.OneByte` | src/daemon/segment_io.cpp:181-184 | An address shows at most one file byte, although a file byte may have several addresses. |
| `SegmentIo.BaseStaysValid` | src/daemon/segment_io.cpp:181-182 | A base stays good as long as views are only added. |
| `SegmentIo.StoreHits` | src/daemon/segment_io.cpp:153-159 | A store at base + k changes file byte offset + k and no other. |
| `SegmentIo.DisjointChunksStayApart` | src/daemon/segment_io.cpp:125-160 | Writes through one chunk's base never change a chunk disjoint in the file, even through overlapping views. |
| `PeerSessions.SingleWriterIff` | src/daemon/peer_session.cpp:255-265 | Over all interleavings at most one write is in flight if and only if sendfile is off. |
| `PeerSessions.SendfileRun` | src/daemon/peer_session.cpp:255-265 | With sendfile on, two given buffers can be in flight together. |
| `PeerSessions.StepKeeps` | src/daemon/peer_session.cpp:375-410 | Every step keeps: at most one writer, and completed writes, the write in flight and the queue are together the sent messages in order. |
| `PeerSessions.RunKeeps` | src/daemon/peer_session.cpp:375-410 | That law holds along every run. |
| `PeerSessions.QuietMeansWritten` | src/daemon/peer_session.cpp:388-410 | With no write in flight and none due, everything sent has been written. |
| `PeerSessions.WriteQueue.constructor` | src/daemon/peer_session.cpp:34 | A new queue is the fresh session without sendfile. |
| `PeerSessions.WriteQueue.SendMessage` | src/daemon/peer_session.cpp:375-386 | Queues the buffer; the caller must start a write exactly when nobody was writing. |
| `PeerSessions.WriteQueue.BeginWrite` | src/daemon/peer_session.cpp:388-396 | Moves the front of the queue into flight; with the queue law there always is one. |
| `PeerSessions.WriteQueue.WriteDone` | src/daemon/peer_session.cpp:400-408 | Completes the write and hands the token on, or gives it back when the queue is empty. |
| `PeerSessions.GrownCapIsCeil` | src/daemon/peer_session.cpp:488 | The grown window is the window times 1.5, rounded up. |
| `PeerSessions.RequestWindow.constructor` | src/daemon/peer_session.hpp:140-161 | The window starts at 128, the latency estimate at 500 microseconds. |
| `PeerSessions.RequestWindow.RecordRequest` | src/daemon/peer_session.cpp:435-437 | Stamps the request with the current time. |
| `PeerSessions.RequestWindow.PieceArrived` | src/daemon/peer_session.cpp:341-352 | A piece ends the run of timeouts and is no longer waited for; the latency estimate moves three tenths of the way to the time it took. |
| `PeerSessions.RequestWindow.Expire` | src/daemon/peer_session.cpp:461-477 | Forgets and reports exactly the requests that are three seconds old. |
| `PeerSessions.RequestWindow.Evaluate` | src/daemon/peer_session.cpp:459-493 | The window stays in [8, 128] and is in [8, 100] after an evaluation; it grows exactly on a fast cycle without timeouts; three timeouts in a row disconnect; exactly the requests three seconds old are given up. |
| `Protocol.DecodeEncoded` | src/daemon/protocol.cpp:43-51 | Decoding the concatenation of built messages yields them up to the first whose body exceeds 65536 bytes; all of them, with nothing left over, exactly when the session stays connected. |
| `Protocol.DecodeOne` | src/daemon/peer_session.cpp:118-151 | One built message in front of a stream is read first, or disconnects when too long. |
| `Protocol.DecodeInPieces` | src/daemon/peer_session.cpp:118-151 | It does not matter how the stream is cut on its way. |
| `Protocol.PeekIsStable` | src/daemon/protocol.cpp:121-128 | More bytes do not change a decision once made. |
| `Protocol.RequestRoundTrip` | src/daemon/protocol.cpp:66-73 | REQUEST fields come back. |
| `Protocol.PieceRoundTrip` | src/daemon/protocol.cpp:75-90 | PIECE is built in one buffer as a regular message, and its fields and data come back. |
| `Protocol.BuildBitfield` | src/daemon/protocol.cpp:58-64 | Bit i of the built bitfield is have[i]; padding bits are zero. |
| `Protocol.RecordBitfield` | src/daemon/peer_session.cpp:368-372 | Reads every bit of every byte, most significant first. |
| `Protocol.SendBitfield` | src/daemon/protocol.cpp:58-64 | Framed, sent and read, a bitfield reaches the peer if and only if it has at most 524288 bits; the peer then sees it padded with false to a multiple of eight. |
| `Protocol.HandshakeRoundTrip` | src/daemon/protocol.cpp:7-41 | Speed, listen port, info hash and peer id survive 67 bytes. |
| `Protocol.PexRoundTrip` | src/daemon/protocol.cpp:109-119 | Framed, sent and read, PEX records reach the peer if and only if there are at most 8191: the frame limit comes before the 16-bit count. |
| `Protocol.PexBodyRoundTrip` | src/daemon/peer_session.cpp:303-314 | The body alone is read back if and only if there are fewer than 65536 records. |
| `SeedFile.SeedRoundTrip` | src/seed/seed_reader.cpp:18-69 | Reading a written seed returns the same header, names and chunks, in network as in host byte order, whatever follows in the file. |
| `SeedFile.ReadFile` | src/seed/seed_reader.cpp:18-69 | The reader returns a seed exactly when the file starts with that seed, written in network or in host order; a short file and a wrong magic give their errors. |
| `SeedFile.ReadsWhatStandsThere` | src/seed/seed_reader.cpp:18-69 | Reading and writing are inverse: a seed is read exactly where it was written, and only well-formed seeds are read. |
| `SeedFile.ReadChunks` | src/seed/seed_reader.cpp:56-63 | The chunk loop reads every entry or fails on a short file. |
| `SeedFile.WriteSeed` | src/seed/seed_writer.cpp:9-62 | The appended bytes are the seed in network order, and the file size is the end of the last byte covered. |
| `SeedFile.AppendEntries` | src/seed/seed_writer.cpp:58-62 | Appends every entry in network order. |
| `SeedFile.TotalSize` | src/seed/seed_writer.cpp:18-23 | The greatest chunk end. |
| `SeedFile.MagicIsDetected` | src/seed/seed_reader.cpp:27-36 | The magic number tells the two byte orders apart. |
| `SeedFile.EntriesRoundTrip` | src/seed/tseed.hpp:62-78 | Chunk entries come back in either order. |
| `SeedFile.SwapReads` | src/seed/tseed.hpp:31-43 | Reading in host order and swapping is reading in network order. |
| `SeedFile.InfoHashBuffer` | src/seed/seed_reader.cpp:71-95 | The hash buffer is file hash and network-order entries, whatever the file name and tracker; the command line builds the same one (src/cli/cli_commands.cpp:154-170). |
| `SeedFile.PreimageInjective` | src/seed/seed_reader.cpp:71-95 | Two seeds have the same hash buffer if and only if file hash and chunk list are equal. |

## Left out

- Sockets, Asio callbacks, timers, accept and connect, the sendfile and file-read pools: a read of the served file is a function, completions are steps, the clock and random order are parameters.
- mmap, fallocate, msync and copy_file_range: operations on a byte sequence; the addresses mmap returns are parameters that do not overlap earlier views.
- SHA-256 and SHA-1 are arbitrary functions; xxHash64 is unused by the source.
- Queue internals and C++ memory orders: queues are atomic and first-in-first-out, steps sequentially consistent. That the verdict queue is atomic with several producers is an assumption of the model.
- Stopping the pools and the poison task that ends a verifier.
- Peers that send unrequested, unaligned, short or zero-length pieces, and 32-bit wrap-around of `begin + len`.
- 64-bit wrap-around of a chunk's offset plus size, and chunks longer than 0xFFFFC000 bytes, whose slot count wraps.
- 32-bit wrap-around of counters that count up (availability, requests, timeouts, pending); `missing_count_`, which counts down, does wrap in the model.
- Slot ids are never reused (src/daemon/peer_manager.cpp:181); wrap-around of the 32-bit id is not modelled.
- Failed socket writes and disconnects during a write; what is sent before `closed_` is set.
- The set of cancelled requests a server skips, and the default offset `index * 131072` for a missing offset table.
- Rounding of the latency average of a session, a float: it is a real number here.
- The previous and the new file of an update are distinct files; an update onto itself is not modelled.
- PEX messages of 2^29 records or more and bitfields of 2^32 bits or more, whose 32-bit lengths wrap.
- An empty file: it cannot be opened (src/daemon/segment_io.cpp:59-62), so no download of one starts.
- Integer scores below the range of `int`: scores are unbounded integers.
- IPC server, command-line handling, JSON scanning, tracker client, tracker server and swarm table, PEX peer lists, choke slots, logging, statistics and speed averages: easy members only.
- SchedulerEndgame.EndgamePassIsBounded: ties of the unstable sort are taken in active-list order; EndgameListBounded gives the bounds for any duplicate-free order.
- SchedulerMessages.EventSparesSeeds: for the normal phase; in ENDGAME the redundant requests do not look at the window.
- EditReuse.EditKeepsShared: both seeds use the same chunk sizes; the source scans the old file with the sizes of the old seed (src/daemon/task_manager.cpp:391-397), and chunks cut with other sizes need not correspond.
- PipelineFinish.DownloadCanFinishIff: a task that is "waiting" is not resumed; that some run completes a download is not a claim about every schedule of threads and peers.
- SegmentIo.SegmentWriter.MapSegment: mmap needs a start that is a multiple of the page size; a custom segment size that is not would fail from segment 1 on.
- PipelineDuplicates.CompleteChunkMatches: the condition is sufficient; pieces that differ may still hash alike, as the hash is any function.
- PipelineMemory.EverySlotWrittenAtFinish: a slot that a late duplicate is rewriting at that moment is a mixture of two delivered pieces, as in the source.
- SegmentIo.SegmentWriter.GetChunkBase: an address is promised where the file has fewer than 2^32 segments and the chunk is not empty; otherwise the truncated index may refuse.
- Scheduling.Scheduler.RandomizePieceOrder: the order is any permutation, not the one of a particular engine and seed.
- PeerSessions.WriteQueue.BeginWrite: models the mode without sendfile; the step machine beside it models both.
