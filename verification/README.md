# Asset updater: a verified model

The repository is a service that polls game regions, downloads asset bundles,
exports them and streams the results to a deduplicating gateway over a private
framed protocol, HIP/1. This project models the logic around its I/O — the
region attempt and its crash recovery, the executor's scheduler, the HIP
session, the pool of FFI workers and a few smaller kernels — and proves what
that logic guarantees, for every input, every interleaving and every point at
which the process may stop. `dafny verify dfyconfig.toml` checks all of it.

## How it is organised

| file | what it models |
|---|---|
| `Attempt.dfy` | executor, forwarder, bounded channel, uploader and attempt as one state machine with a crash between any two steps, and its invariants |
| `CrashConsistency.dfy`, `ExactlyOnce.dfy`, `Resume.dfy` | what follows: every snapshot entry is justified, every task is reported once, what a crash or an uploader error costs |
| `Batching.dfy` | how artefacts are cut into batches and COMMITs; the attempt's uploader steps refine the uploader program |
| `Uploader.dfy` | the streaming uploader as the sequential program it is |
| `BundleDiff.dfy`, `Decimal.dfy` | layer-1 diff, next snapshot, snapshot file |
| `Tasks.dfy`, `TaskPlan.dfy`, `CheckFiltering.dfy` | the planned task list and CHECK filtering in chunks |
| `Watermark.dfy` | the watermark file with crashes |
| `Executor.dfy`, `Scheduling.dfy`, `MemoryLimiter.dfy` | the scheduling loop, its four semaphores, and what it guarantees |
| `HipFrame.dfy`, `HipMux.dfy`, `HipUploads.dfy`, `HipRouting.dfy`, `HipReplies.dfy` | framing, multiplexed uploads against the mock server, routing of replies |
| `WorkerPipe.dfy`, `WorkerPool.dfy` | the worker's pipe protocol, leases, recycling and reaping |
| `CpuLimiter.dfy` | the condition-variable limiter |
| `ProcessTree.dfy`, `EnvOverride.dfy`, `AudioFifo.dfy` | process reachability, YAML overrides, audio re-chunking |
| `Common.dfy`, `Bytes.dfy` | shared datatypes, sums, fixed-width integers |

Sequential code that updates variables is a method or a class proved against a
specification; concurrent code is a state machine whose steps are its
indivisible actions, with theorems over all runs (`IsRun`).

## Assumptions

- msgpack, JSON and zstd are arbitrary codecs whose decoder inverts the
  encoder; SHA-256 is an arbitrary function, and hashing incrementally is
  hashing the concatenation. Compiled regular expressions are predicates.
- Renaming a file is atomic; a write to a temporary file may leave any bytes.
- Semaphores serve their waiters in order of arrival.
- Timeouts, I/O errors, heartbeats and cancellation are steps that may or may
  not be taken at any time. Clock readings are parameters.
- The bundle list the executor fetches again is the one the attempt fetched.
- The upload semaphore is not modelled, which only allows more interleavings.
- While HIP is enabled the layer-1 skip counter carried by a COMMIT is zero; it
  is left out of the message.
- A gateway may apply a COMMIT whose acknowledgement is then lost; "listed in a
  COMMIT" means listed in one the gateway applied.

## What the code does not guarantee

- The comments on the uploader promise that a crash loses only the last batch.
  That holds (`AttemptResume.CrashLosesOnlyTheLastBatch`) unless a merge was
  given up. After an uploader *error* the final save rebuilds the snapshot from
  the old one and drops merged batches
  (`AttemptResume.UploaderErrorDropsMergedBundle`);
  `AttemptResume.FinalSaveKeepsIff` says exactly which bundles it keeps.
- An ERROR frame purges all waiters. A COMMIT outstanding at that moment is
  then a stray, whose reply can reach the wrong caller
  (`HipReplies.ErrorFrameMisroutesCommit`); `HipReplies.CommitsRoutedIff` shows
  that strays are all there is to it, and `HipRoutingSteps.PurgeStraysIff` when they
  arise.
- A frame whose length does not fit 32 bits is written with a wrapped length;
  `HipFrame.FrameReadsBackIff` gives the exact bound.
- With CPU throttling on, a failing throttle call can strand a sleeping thread
  (`CpuLimiter.ThrottleErrorLosesWakeup`); `CpuLimiter.EveryRunIsSafeIff` and
  `CpuLimiter.ThrottleFailureStrandsIff` say exactly when.
- An exclusive lease always spawns, so the concurrency alone does not bound the
  workers (`WorkerPool.ExclusiveExceedsConcurrency`);
  `WorkerPool.WithinConcurrencyIff` says exactly when it does.
- An environment override can turn a sequence into a mapping and fills gaps
  with nulls; `EnvOverride.PutKeepsOtherReadsIff` says exactly when another path
  reads as before.
- A failed `WatermarkStore::set` leaves memory ahead of the file;
  `Watermark.FailedSetLeavesMemoryAheadIff` says when.

## Model

| member | source | states |
|---|---|---|
| `CrashConsistency.SnapshotIsAlwaysJustified` | src/service/poller.rs:341-656 | over any number of attempts and crashes the snapshot file is absent or decodes whole, and each (name, crc) in it was there at the start, was listed in an applied COMMIT or was answered SKIP |
| `AttemptSafety.StepKeepsInv` | src/service/poller.rs:510-633 | every step of executor, forwarder, uploader and attempt, and a crash, keeps disk, queues, pending merges and pending saves justified |
| `AttemptSafety.BatchIsCommitted` | src/service/poller.rs:889-925 | a batch COMMIT lists every bundle of the batch with the fingerprint of the attempt's own bundle list |
| `AttemptSafety.MergedIsKnown` | src/core/bundle_diff.rs:164-185 | merging a committed batch into a justified snapshot gives a justified snapshot, whether or not version and platform match |
| `AttemptSafety.NextIsKnown` | src/service/poller.rs:1098-1125 | the snapshot rebuilt at the end of an attempt is justified, also after an uploader error |
| `ExactlyOnce.CompletedAttemptReportsEachTaskOnce` | src/service/poller.rs:473-508 | in an uncancelled attempt that completes, the plan splits into skipped, produced and failed; over all its COMMITs each non-failed task is listed exactly once and each failed one never; the skip counters add up and only the first COMMIT carries any |
| `ExactlyOnce.CompletedAttemptLeavesOnlyTheRest` | src/service/poller.rs:1098-1153 | the snapshot such an attempt saves leaves for the next diff exactly the changed bundles neither produced nor skipped, nothing stale and nothing removed |
| `AttemptAccounting.StepKeepsInv` | src/service/poller.rs:690-788 | every step keeps the plan's split, the order and completeness of artefacts from executor to uploader, and the agreement of COMMITs with flushed batches |
| `AttemptAccounting.BatchReported` | src/service/poller.rs:825-849 | an acknowledged batch COMMIT adds exactly its batch to what was reported, and the skip report if and only if it was still due |
| `AttemptAccounting.MetaReported` | src/service/poller.rs:1002-1056 | the metadata-only COMMIT completes the report with the skipped bundles; without skips no COMMIT is due |
| `ExactlyOnce.SkipReportPaths` | src/service/poller.rs:837-848 | sorting the skip report by path loses and repeats no path |
| `ExactlyOnce.SkipReportSorted` | src/service/poller.rs:839-848 | the skip report is in strictly ascending order of path |
| `AttemptResume.CrashLosesOnlyTheLastBatch` | src/service/poller.rs:932-958 | a crash anywhere in an attempt in which no merge was given up: the next attempt on the same list sees no retired bundle as changed, and of the bundles its COMMITs listed as uploaded at most those of the batch in progress, and not even these once they are merged |
| `AttemptResume.FinalSaveKeepsIff` | src/service/poller.rs:577-633 | the final save keeps a retired bundle, or one of a batch left behind by an error, exactly if the uploader ended without an error or the bundle had not changed |
| `AttemptResume.UploaderErrorDropsMergedBundle` | src/service/poller.rs:600-608 | a run without a crash in which a committed, acknowledged and merged bundle leaves the snapshot file |
| `AttemptResume.FailedMergeGoesOn` | src/service/poller.rs:942-958 | a merge that fails is no error of the uploader, which goes on with the same batch |
| `AttemptResume.CancelFlushesTheRest` | src/service/poller.rs:692-696 | a cancelled uploader receives nothing more and flushes what it holds, or sends the skip report if that is still due |
| `AttemptResume.StepKeepsInv` | src/service/poller.rs:510-633 | every step keeps retired bundles in the file, pending merges and saves true to file and batch, and COMMITs within retired bundles and current batch |
| `AttemptResume.MergeMakesResumable` | src/core/bundle_diff.rs:164-185 | merging a batch adds its bundles to those that can be found in the file, and keeps the others |
| `ExactlyOnce.StepsCommitAsTheProgramDoes` | src/service/poller.rs:690-788 | refinement: an uncancelled uploader that ends without an error, however its steps interleave with the rest, has had logged exactly the COMMITs the uploader program sends for the one cut of the artefacts received, and these are the artefacts produced |
| `ExactlyOnce.Layer1WorksOnChanges` | src/service/poller.rs:1342-1380 | without HIP an attempt works on exactly the planned tasks whose bundle is new or changed since the snapshot |
| `AttemptBatching.StepKeepsInv` | src/service/poller.rs:690-788 | every step keeps the batch under way, its size and the logged COMMITs equal to the cut of the artefacts received so far |
| `Batching.BatchesFit` | src/service/poller.rs:711-720 | the cut of any stream loses and reorders nothing; every batch is within the bundle threshold and, without its last element, below the byte threshold; every batch but the last has reached the bundle threshold exactly or the byte threshold |
| `Batching.CutIsUnique` | src/service/poller.rs:711-720 | there is only one such cut of a stream, so the two thresholds decide every batch |
| `Batching.CommitSays` | src/service/poller.rs:889-925 | field by field: a COMMIT counts the bundles uploaded, the skips only if it is the first, and lists the skipped bundles as such and the uploaded ones in order with path and hash |
| `Uploader.Uploader.Run` | src/service/poller.rs:662-788 | a run that returns Ok flushed exactly the one cut of the artefacts received that the thresholds ask for; it uploaded those batches and sent their COMMITs, with the skip report on the first or alone; sessions upload, then commit at most once, then nothing; if no merge failed every processed bundle is found in the snapshot file |
| `Uploader.Uploader.Finish` | src/service/poller.rs:744-785 | the residual batch is flushed, or the skip report sent alone, or an idle session closed; after that the COMMITs are complete |
| `Uploader.Uploader.FlushBatch` | src/service/poller.rs:852-998 | a successful flush retires exactly the batch, keeps the whole invariant and empties the batch; a failed one still leaves sessions disciplined |
| `Uploader.Uploader.UploadAndCommit` | src/service/poller.rs:869-928 | the upload of the batch, its COMMIT and the goodbye are the last events, all on one session, which is given up whether or not the COMMIT succeeds; only the first COMMIT carries the skip report |
| `Uploader.Uploader.FlushMetadataOnly` | src/service/poller.rs:1002-1056 | with nothing uploaded the skip report goes alone, and no COMMIT is sent when there is none |
| `Uploader.Uploader.MergeBatch` | src/service/poller.rs:932-958 | after a merge that worked the committed bundles can be read back from the snapshot file; a batch with no known bundle needs no merge |
| `Uploader.UseKeepsDiscipline` | src/service/poller.rs:869-928 | using an open, uncommitted session keeps the rule that a session commits once and sees no upload afterwards |
| `Uploader.RetireBatch` | src/service/poller.rs:995-998 | retiring a batch appends its COMMIT and its names to those of the earlier batches |
| `BundleDiff.DiffInfo` | src/core/bundle_diff.rs:48-113 | the diff lists exactly the added and changed names, once each, with new fingerprint and size, and counts added, changed, unchanged and removed, although it compares decimal strings |
| `BundleDiff.EntrySays` | src/core/bundle_diff.rs:44-46 | a listed bundle carries the decimal checksum as fingerprint and its file size, or zero for a negative one |
| `BundleDiff.StatsAddUp` | src/core/bundle_diff.rs:48-113 | added + changed + unchanged is the size of the new list, removed + changed + unchanged that of the old |
| `BundleDiff.FingerprintsOf` | src/core/bundle_diff.rs:44-62 | the fingerprint map covers exactly the old names |
| `BundleDiff.CountRemoved` | src/core/bundle_diff.rs:104-113 | the removed counter is the number of old names missing from the new list |
| `BundleDiff.BuildNextSnapshot` | src/service/poller.rs:1098-1125 | the loop computes the next snapshot whatever order the map is visited in |
| `BundleDiff.NextTickSeesTheRemainder` | src/service/poller.rs:1098-1125 | diffing the same list against the kept snapshot gives exactly the changed names minus the processed, all as additions |
| `BundleDiff.SnapshotFile.Save` | src/core/bundle_diff.rs:120-147 | the file is replaced whole or not at all; no temporary file is left behind by a failed rename |
| `BundleDiff.SnapshotFile.Load` | src/core/bundle_diff.rs:187-205 | an absent file is no snapshot, an undecodable one an error |
| `BundleDiff.SnapshotFile.Merge` | src/core/bundle_diff.rs:164-185 | on success the file holds the entries over a snapshot of the same version and platform, else the entries alone; on any failure it is unchanged |
| `BundleDiff.MergedSays` | src/core/bundle_diff.rs:164-185 | entry by entry: new entries win, and old ones survive only within the same version and platform |
| `BundleDiff.EntryMapSays` | src/core/bundle_diff.rs:178-184 | of several entries for one bundle the last is merged |
| `Decimal.SameStringIffSame` | src/core/bundle_diff.rs:44-46 | decimal fingerprints are equal exactly when the checksums are |
| `Decimal.ParseToString` | src/core/bundle_diff.rs:44-46 | the decimal rendering of any integer reads back |
| `Decimal.NatDigits` | src/core/bundle_diff.rs:44-46 | the rendering digit by digit, the last one least significant, without leading zeros |
| `TaskPlan.BuildDownloadTasks` | src/core/asset_execution.rs:1536-1588 | the result is the plan: exactly the eligible bundles, once each, sorted by priority then path |
| `TaskPlan.PlanIsUnique` | src/core/asset_execution.rs:1547-1588 | there is only one plan, so hash-map order cannot show |
| `TaskPlan.PlanSays` | src/core/asset_execution.rs:1547-1580 | written out: a bundle is planned exactly if no skip pattern matches, the pattern list of its category does and its hash is not on record; its task carries the checksum as hash for one provider and the listed hash for the other, its file size, and its priority or the lowest |
| `TaskPlan.PlanOrder` | src/core/asset_execution.rs:1581-1588 | written out: by priority, then alphabetically by path |
| `Tasks.SortTasksSorted` | src/core/asset_execution.rs:1581-1588 | sorting permutes the tasks into order |
| `Tasks.SortedUnique` | src/core/asset_execution.rs:1581-1588 | two strictly sorted lists with the same members are equal |
| `Tasks.StrLessIff` | src/core/asset_execution.rs:1581-1588 | the string order is alphabetical: the first difference decides and a proper prefix comes first |
| `CheckFiltering.CheckFilter` | src/service/poller.rs:1396-1455 | every task of an answered request is skipped, counted and recorded exactly if the last answer for its path in that request's own answer list says skip, and kept otherwise; when a request fails, what was counted and recorded before it stays |
| `CheckFiltering.FilterDoesAsAnswered` | src/service/poller.rs:1428-1450 | the same for the filter as a function, whatever the gateway answers |
| `CheckFiltering.DecisionsSay` | src/service/poller.rs:1428-1435 | a path is to be skipped exactly if its last answer says so; no answer means keep |
| `CheckFiltering.RequestsCover` | src/service/poller.rs:1412-1422 | the requests together are the planned tasks in order, all of the batch size but maybe the last |
| `CheckFiltering.SoFarIsAnsweredPart` | src/service/poller.rs:1412-1428 | the filter stopped by a failure is the filter of the tasks answered before it, and it is complete exactly if all were answered |
| `CheckFiltering.ChunkingIsInvisible` | src/service/poller.rs:1412-1452 | for a gateway whose last answer for each item depends on the item alone, every chunk size gives the one-pass filter, order preserved |
| `CheckFiltering.FilterIff` | src/service/poller.rs:1434-1450 | kept are the tasks whose path is not to be skipped, skipped the others |
| `CheckFiltering.ChunkedFilterPartitions` | src/service/poller.rs:1412-1452 | whatever the gateway answers, kept and skipped together are the planned tasks |
| `CheckFiltering.FilterPartitions` | src/service/poller.rs:1428-1450 | one chunk splits into kept and skipped without loss |
| `CheckFiltering.SkipMapCounts` | src/service/poller.rs:1432-1438 | for distinct paths the map of skipped bundles has as many entries as the skip counter says |
| `Scheduling.ExecutorAlwaysProgresses` | src/core/asset_execution.rs:557-703 | every run is finite (at most ten steps per task and one), every non-final reachable state has an enabled step, permits are conserved, and at most `download_concurrency` downloads are in flight |
| `Scheduling.NeverStuck` | src/core/asset_execution.rs:770-835 | deadlock freedom: the four semaphores taken in order, with permits handed across stages, never block all tasks |
| `ExecutorSteps.StepKeepsInv` | src/core/asset_execution.rs:557-703 | every step keeps permits, queues, counters, iterator and record consistent and lowers the rank of the whole task list |
| `Scheduling.EmptyJoinSetMeansNothingPending` | src/core/asset_execution.rs:538-560 | an empty download join set means no pending task |
| `Scheduling.ExitAccountsForEveryTask` | src/core/asset_execution.rs:1008-1062 | at an uncancelled exit completed + failed = queued, each task is one of the two, and the record is the initial one overwritten by exactly the completed bundles |
| `Scheduling.MemoryIsBounded` | src/core/asset_execution.rs:791-815 | the file sizes of all bundles between the start of their download and the end of their post-processing add up to at most limit_units MiB, or a single such bundle alone exceeds the limit |
| `Scheduling.AsksForItsSize` | src/core/asset_execution.rs:791-815 | a memory request covers the bundle's file size with as few units as possible, or takes all there are |
| `Scheduling.ConcurrencyIsBounded` | src/core/asset_execution.rs:507-513 | at most `download_concurrency` tasks are downloading, at most the post-process concurrency are post-processed, and no more sit in between |
| `Scheduling.NothingStartsAfterCancel` | src/core/asset_execution.rs:770-784 | in every run, once the cancel flag is up no task gets past the download semaphore any more |
| `Scheduling.CancelledResultEndsTheLoop` | src/core/asset_execution.rs:557-703 | a cancelled result ends the loop, counts nothing and records nothing |
| `Executor.BacklogCapacity` | src/core/asset_execution.rs:2318-2324 | the backlog always has at least one slot |
| `MemoryLimiter.BytesToUnits` | src/core/asset_execution.rs:2182-2184 | the least number of units, at least one, that covers the bytes |
| `MemoryLimiter.FromConfig` | src/core/asset_execution.rs:2152-2167 | zero turns the limiter off; otherwise the units fit 32 bits and are the least that cover the limit, unless clamped |
| `MemoryLimiter.Need` | src/core/asset_execution.rs:2173-2179 | no request exceeds the units there are; a request that fits gets the least number that covers it, an oversized one takes them all |
| `HipFrame.Encode` | src/core/hip/frame.rs:75-89 | a frame over the maximum is refused; any other is, byte by byte, its length with the most significant byte first, its type and its payload |
| `HipFrame.ReadFrame` | src/core/hip/frame.rs:93-122 | a frame is read exactly if the number in the first four bytes, most significant first, is between one and the maximum, that many bytes follow and the type is known; it is those bytes, and the rest stays unread |
| `HipFrame.ParsedIsWire` | src/core/hip/frame.rs:75-122 | whatever is read as a frame is the encoding of that frame |
| `HipFrame.FrameTypeCodes` | src/core/hip/frame.rs:8-27 | the code of every frame type |
| `Bytes.BigEndianDigit` | src/core/hip/frame.rs:84-84 | byte `i` of a big-endian field is the digit of weight 256 to the power of the bytes after it |
| `Bytes.BigEndianSum` | src/core/hip/frame.rs:99-99 | reading a big-endian field is the sum of its bytes by weight |
| `HipFrame.ByteStream.ReadExact` | src/core/hip/frame.rs:93-122 | all the bytes asked for, or an error at end of file |
| `HipFrame.FrameTypeRoundTrip` | src/core/hip/frame.rs:30-52 | every frame type survives its byte |
| `HipFrame.FrameReadsBackIff` | src/core/hip/frame.rs:75-122 | an accepted frame reads back, the rest of the stream untouched, exactly when its length fits the 32-bit field |
| `HipFrame.FrameListReadsBack` | src/core/hip/frame.rs:75-135 | any list of frames written to one stream is read back as that list |
| `HipFrame.CutStreamReadsPrefix` | src/core/hip/frame.rs:93-122 | a stream cut at any byte reads as a prefix of the frames |
| `HipUploads.InterleavedUploadsArriveIntact` | src/core/hip/client.rs:215-302 | for every interleaving of up to 2^32 uploads, whose BEGIN frames may go out in any order of ids, other requests and pings, the peer parses exactly the frames sent, never rejects, acknowledges each finished stream once and OK for exactly its bytes, and has acknowledged all of them once the writer has drained |
| `HipUploads.CutConnectionStaysTrue` | examples/hip_mock_server.rs:107-218 | cutting the connection at any byte leaves every acknowledgement true |
| `HipMuxSteps.StepKeepsInv` | src/core/hip/client.rs:480-518 | every step of a caller or the writer keeps the server's future state in step with the client's uploads |
| `HipMux.UploadStream` | src/core/hip/client.rs:262-295 | the chunk loop sends BEGIN, one chunk per read and END with the hash of the whole, or no END when the size differs |
| `HipMux.MockServer.Handle` | examples/hip_mock_server.rs:116-268 | one frame changes the server's state by its step function |
| `HipMux.AcksAreJudged` | examples/hip_mock_server.rs:150-218 | whatever frames arrive, an upload is acknowledged OK exactly if the bytes received have the size its BEGIN announced and the hash its END announced |
| `HipMux.FramesSay` | src/core/hip/client.rs:241-291 | a chunk leads with its stream id, most significant byte first; END announces the length and hash of the whole |
| `HipMux.MockServer.ServeSession` | examples/hip_mock_server.rs:105-268 | the read loop over bytes serves exactly the frames the bytes parse to |
| `HipReplies.QuietSessionRoutesEverything` | src/core/hip/client.rs:543-569 | without ERROR frames and read failures every reply finds the waiter of its own caller, none is left without one, and at most one COMMIT is outstanding |
| `HipReplies.RepliesReachTheirOwnCaller` | src/core/hip/client.rs:180-195 | whatever fails, a CHECK or upload caller only ever gets the reply to its own request, and no reply reaches two callers |
| `HipReplies.ReplyFindsItsWaiterIff` | src/core/hip/client.rs:624-642 | a CHECK or upload reply finds its caller's waiter exactly when no purge came since it registered, and no waiter at all otherwise |
| `HipReplies.CommitsRoutedIff` | src/core/hip/client.rs:305-333 | in every continuation up to the next purge each COMMIT reply finds its own caller if and only if no outstanding COMMIT is outside the slot now |
| `HipRoutingSteps.NoStrayKept` | src/core/hip/client.rs:311-319 | only a purge makes a stray |
| `HipRoutingSteps.PurgeStraysIff` | src/core/hip/client.rs:624-642 | a purge leaves a stray exactly if a COMMIT is outstanding |
| `HipReplies.StrayReachesAnother` | src/core/hip/client.rs:563-569 | a stray's reply can be handed to another caller unless the slot is held for good by a caller that gave up before sending |
| `HipReplies.ErrorFrameMisroutesCommit` | src/core/hip/client.rs:578-589 | a non-fatal ERROR frame during a COMMIT can hand its late reply to the next caller |
| `HipRoutingSteps.StepKeepsInv` | src/core/hip/client.rs:451-471 | every step keeps ids distinct, waiters real and complete, the COMMIT slot exclusive and replies unshared |
| `HipRouting.SessionInner.RegisterCheck` | src/core/hip/client.rs:180-185 | the waiter is stored under the next batch id |
| `HipRouting.SessionInner.RegisterUpload` | src/core/hip/client.rs:234-239 | the waiter is stored under the next stream id, which wraps at 2^32 |
| `HipRouting.SessionInner.RegisterCommit` | src/core/hip/client.rs:311-319 | a second COMMIT is refused while the slot is taken |
| `HipRouting.SessionInner.ReadOne` | src/core/hip/client.rs:520-597 | one round of the reader is a step of the session: an acknowledgement is the dispatch of its call and takes the waiter its id names and no other; WINDOW, PONG and an answered PING leave all waiters and the reader as they were; an ERROR frame purges; an undecodable or unexpected frame, a failed read, a failed PONG or a fatal ERROR purges and stops the reader |
| `HipRouting.SessionInner.FailAllWaiters` | src/core/hip/client.rs:624-641 | every waiter is dropped, ids go on |
| `WorkerPipe.PooledWorker.Call` | crates/assetstudio-ffi/src/worker_pool.rs:464-565 | from empty pipes, a call returns Ok or a worker-reported error exactly when the worker is alive, request and response fit the limits of the end that reads them, and the worker does not die before its answer is out; then both pipes are empty again and status, response and payload are what the native library made of this very request, whether the payload was absent, inline or spilled; every other outcome is a protocol error |
| `WorkerPipe.PooledWorker.Receive` | crates/assetstudio-ffi/src/worker_pool.rs:481-537 | reading what the worker wrote, in whole or cut anywhere, gives the true answer exactly if all of it arrived, else a protocol error |
| `WorkerPipe.CutResponseFails` | crates/assetstudio-ffi/src/frame.rs:16-33 | of an answer cut short either the response or the announced payload cannot be read |
| `WorkerPipe.CallAll` | crates/assetstudio-ffi/src/worker_pool.rs:419-429 | any sequence of calls stays in lockstep up to the first call that breaks a limit or loses its worker, and earlier results stay true of their requests |
| `WorkerPipe.WorkerProcess.ServeOne` | crates/assetstudio-ffi/src/bin/assetstudio_ffi_worker.rs:102-198 | one round of the server loop answers one request, or exits with its code for end of input, an oversized frame or an unparsable request |
| `WorkerPipe.WorkerProcess.Respond` | crates/assetstudio-ffi/src/bin/assetstudio_ffi_worker.rs:214-243 | a payload over the threshold is spilled whole to a file, a failed spill becomes an error response, any other payload goes inline |
| `WorkerPipe.FrameReadsBackIff` | crates/assetstudio-ffi/src/frame.rs:5-33 | a frame reads back with what follows untouched exactly when it is within the reader's limit |
| `WorkerPipe.ReadWorkerFrame` | crates/assetstudio-ffi/src/frame.rs:16-33 | one frame is consumed, or the read reports a missing header, excess length or truncation |
| `WorkerPipe.ReadIsFramed` | crates/assetstudio-ffi/src/frame.rs:16-33 | a frame is read exactly if the weighted sum of the first eight bytes is within the limit and that many bytes follow, and it is then the encoding of what is read |
| `WorkerPipe.FrameLayout` | crates/assetstudio-ffi/src/frame.rs:5-14 | byte by byte: eight bytes of length, least significant first, then the payload |
| `WorkerPipe.AnswerSays` | crates/assetstudio-ffi/src/bin/assetstudio_ffi_worker.rs:214-243 | a payload over 128 MiB goes through a file, any other inline, and an inline payload is within the parent's limit |
| `Bytes.LittleEndianDigit` | crates/assetstudio-ffi/src/frame.rs:9-11 | byte `i` of a little-endian field is the digit of weight 256 to the power `i` |
| `Bytes.LittleEndianSum` | crates/assetstudio-ffi/src/frame.rs:23-23 | reading a little-endian field is the sum of its bytes by weight |
| `WorkerPipe.WriteWorkerFrame` | crates/assetstudio-ffi/src/frame.rs:5-14 | length then payload are appended |
| `WorkerPipe.RequestArrives` | crates/assetstudio-ffi/src/bin/assetstudio_ffi_worker.rs:310-327 | the worker decodes the very request that was written, or refuses its size |
| `WorkerPipe.ResponseArrives` | crates/assetstudio-ffi/src/worker_pool.rs:481-537 | the parent reads the very response and, after it, the very inline payload, which is always within its limit |
| `WorkerPool.PoolStaysBounded` | crates/assetstudio-ffi/src/worker_pool.rs:203-243 | in every run idle + leased workers are at most the concurrency plus the exclusive acquisitions; every idle worker has `idle_since` set and calls left; permits are conserved |
| `WorkerPool.EveryWorkerIsAccountedFor` | crates/assetstudio-ffi/src/worker_pool.rs:330-389 | every worker ever spawned is in exactly one place, once: idle, leased, being killed, killed or dropped |
| `WorkerPool.ExclusiveIsAlone` | crates/assetstudio-ffi/src/worker_pool.rs:226-243 | in every run, while an exclusive lease lives no other lease does |
| `WorkerPool.ExclusiveExceedsConcurrency` | crates/assetstudio-ffi/src/worker_pool.rs:226-243 | an exclusive lease beside an idle worker exceeds the concurrency |
| `WorkerPool.WithinConcurrencyIff` | crates/assetstudio-ffi/src/worker_pool.rs:203-243 | idle + leased workers stay within the concurrency throughout a run if and only if no exclusive lease is acquired while that many workers are idle |
| `WorkerPool.StepStaysWithinIff` | crates/assetstudio-ffi/src/worker_pool.rs:226-243 | the only step from within the concurrency to beyond it is that acquisition |
| `WorkerPool.StepKeepsCounts` | crates/assetstudio-ffi/src/worker_pool.rs:203-243 | every step keeps permits and the bound on workers |
| `WorkerPool.StepKeepsFit` | crates/assetstudio-ffi/src/worker_pool.rs:330-345 | every step keeps idle workers rested and unspent |
| `WorkerPool.StepKeepsConserved` | crates/assetstudio-ffi/src/worker_pool.rs:431-446 | every step keeps each worker in exactly one place |
| `WorkerPool.Idle.Reap` | crates/assetstudio-ffi/src/worker_pool.rs:352-389 | the in-place loop with removal, which reads the clock for every worker, equals two order-preserving filters, the expired and the rest |
| `WorkerPool.Idle.Pop` | crates/assetstudio-ffi/src/worker_pool.rs:212-217 | the worker returned last is taken, with `idle_since` cleared |
| `WorkerPool.Idle.ReturnOrRecycle` | crates/assetstudio-ffi/src/worker_pool.rs:330-345 | a worker goes back with a time stamp unless it has used up its calls |
| `WorkerPool.SelectPartitions` | crates/assetstudio-ffi/src/worker_pool.rs:356-372 | reaping loses and invents no worker |
| `WorkerPool.SelectIff` | crates/assetstudio-ffi/src/worker_pool.rs:360-372 | a worker is reaped exactly when the clock, read when it was looked at, was at least the idle timeout past `idle_since` |
| `WorkerPool.FinishReturnsIff` | crates/assetstudio-ffi/src/worker_pool.rs:330-345 | a finished lease returns its worker exactly if there is no call limit or the worker is below it |
| `WorkerPool.CountersAreTrue` | crates/assetstudio-ffi/src/worker_pool.rs:537-539 | in every run a worker's counter is the number of calls completed on it since it was spawned, wherever it has been in between |
| `CpuLimiter.EveryRunIsSafeIff` | src/core/export_pipeline/implementation/limits.rs:35-46 | in every state of a run the counter is the number of live active permits, is at most the maximum, and while anybody sleeps the threads awake past their first check are at least the free slots, if and only if every throttle failure came when nobody slept or a contender was to spare; with the throttle disabled there is none |
| `CpuLimiter.EveryRunIsSafe` | src/core/export_pipeline/implementation/limits.rs:35-76 | the same for each state of a run whose throttle failures are harmless |
| `CpuLimiter.SleepersAreNeverStranded` | src/core/export_pipeline/implementation/limits.rs:35-76 | in such a run, while a thread sleeps a permit holder or a woken thread can act |
| `CpuLimiter.StepKeepsInv` | src/core/export_pipeline/implementation/limits.rs:67-76 | every critical section, spurious wake-up and release keeps the counter true and loses no wake-up |
| `CpuLimiter.ChecksDecide` | src/core/export_pipeline/implementation/limits.rs:35-45 | both loops let a thread pass exactly if a slot is free, and only the second takes it |
| `CpuLimiter.CounterIsAlwaysTrue` | src/core/export_pipeline/implementation/limits.rs:35-76 | the counter is true and within the maximum even when throttle calls fail |
| `CpuLimiter.ThrottleFailureStrandsIff` | src/core/export_pipeline/implementation/limits.rs:39-46 | after a throttle failure beside sleepers nobody but a newcomer can act exactly if the failing thread was the last contender and no permit is held |
| `CpuLimiter.ActsIff` | src/core/export_pipeline/implementation/limits.rs:35-76 | beside sleepers somebody can act exactly if a permit is held or a contender is awake |
| `CpuLimiter.ThrottleErrorLosesWakeup` | src/core/export_pipeline/implementation/limits.rs:39-43 | one slot, three threads, one throttle error: a thread sleeps beside a free slot and nobody will wake it |
| `ProcessTree.SumProcessTreeCpuTicks` | src/core/export_pipeline/implementation/limits.rs:282-300 | for any table the walk ends, visits exactly the processes reachable from the root, and sums all their rows, saturating at the u64 maximum |
| `ProcessTree.Scan` | src/core/export_pipeline/implementation/limits.rs:290-297 | one pass adds all rows of a process and pushes exactly its children |
| `ProcessTree.Descendants` | src/service/memory_telemetry.rs:160-178 | the search ends and finds exactly the processes reachable over at least one parent link |
| `ProcessTree.ByParent` | src/service/memory_telemetry.rs:161-164 | the index lists every process's children in table order |
| `ProcessTree.WalksAgree` | src/service/memory_telemetry.rs:160-178 | the stack walk's visited set is the root plus the search's result |
| `ProcessTree.ReachableIffRootOrDescends` | src/core/export_pipeline/implementation/limits.rs:282-300 | reachable means the root or a descendant |
| `EnvOverride.ApplyEnvOverride` | src/core/config.rs:675-701 | the cursor walk stores the value at the path, creating what is missing; an empty path is an error |
| `EnvOverride.GetAfterPut` | src/core/config.rs:675-778 | on every tree and path, reading the path after the override gives the value |
| `EnvOverride.GetAtOrBelowPut` | src/core/config.rs:703-731 | a path that goes on below the override reads that part of the value, also when written with another spelling of the same index |
| `EnvOverride.PutKeepsOtherReadsIff` | src/core/config.rs:733-778 | a path that parts from the override's reads as before exactly when the node where they part is not a sequence turned into a mapping under an existing value and the path does not end on an index filled with null |
| `EnvOverride.GetBeside` | src/core/config.rs:733-778 | what a parting path reads after an override: nothing, null, or what it read before |
| `EnvOverride.GetAbovePut` | src/core/config.rs:675-701 | a path that ends above the override's reads the node there with the rest of the override put into it |
| `EnvOverride.EveryReadAfterPut` | src/core/config.rs:675-778 | for every tree and every two paths, what is read after the override: below, above and beside are all the cases |
| `EnvOverride.PutAtIndex` | src/core/config.rs:703-720 | an override at the decimal spelling of an index changes that item, keeps the others and fills with nulls up to it |
| `EnvOverride.RenderingParses` | src/core/config.rs:704-704 | the decimal spelling of a number below 2^64, with or without a plus sign, is that index |
| `EnvOverride.NamesAreNotIndices` | src/core/config.rs:704-704 | nothing but digits after at most one plus sign is an index, and none is beyond 64 bits |
| `EnvOverride.CreatedKind` | src/core/config.rs:738-741 | a child that has to be created is a sequence if the next segment is an index, else a mapping |
| `AudioFifo.Transcoder.Transcode` | src/core/media/ffi.rs:1400-1497 | for any blocks and a flush the frames concatenate to the samples plus silence only to fill up the last frame when padding is on; all frames but the last are full, none is empty, and each time stamp is the number of samples emitted before |
| `AudioFifo.Transcoder.EncodeAvailable` | src/core/media/ffi.rs:1422-1497 | without a flush less than a frame stays behind and nothing is lost; with a flush nothing stays behind; after an error what was emitted is a prefix of that |
| `AudioFifo.Transcoder.Emit` | src/core/media/ffi.rs:1442-1492 | one frame takes the oldest samples, pads them with silence and is stamped with the running index |
| `AudioFifo.Transcoder.Push` | src/core/media/ffi.rs:1400-1420 | a block is appended; a short write is an error and leaves the part it wrote |
| `AudioFifo.PaddingFillsUp` | src/core/media/ffi.rs:1435-1441 | padding is less than a frame, absent when off, and fills the last frame exactly when on |
| `Watermark.AcknowledgedSetSurvives` | src/service/watermark.rs:66-95 | a `set` that succeeded is on disk, and in memory while the process is up, through crashes, reopening and other regions' sets, until that region is set again |
| `Watermark.FileAlwaysLoads` | src/service/watermark.rs:81-95 | in every reachable state the file loads whole and holds only marks that were there or were set |
| `Watermark.WatermarkStore.Set` | src/service/watermark.rs:66-74 | memory always takes the mark; on success the file holds all of memory, on failure it is unchanged |
| `Watermark.OpenSays` | src/service/watermark.rs:38-60 | an absent and an empty file open as an empty store, and only a file that does not parse is an error |
| `Watermark.InStepUntilFailure` | src/service/watermark.rs:66-95 | since the last open or successful set, and until a set fails, memory is ahead of the file by at most the set under way |
| `Watermark.FailedSetLeavesMemoryAheadIff` | src/service/watermark.rs:66-95 | a failing set leaves memory and file apart exactly if its mark was not already there |

## Left out

- HTTP fetching, cookies, URL templates, TLS, decryption, zstd, msgpack and JSON bodies: library calls and plumbing.
- FFmpeg outside the audio FIFO, the native AssetStudio library and its payload-bundle writer, image and audio decoders: foreign code.
- CPU throttle sampling and budget ratios: floating point and `/proc` readings; only whether a throttle call fails is modelled.
- Logging, progress reporting, the HTTP endpoints, git synchronisation, storage operators and exporter commands: thin wrappers.
- Retry helpers, configuration validation, format de-duplication and path helpers: true but easy.
- Saving the download record to disk in batches: only the in-memory record is modelled.
- The upload of one batch's files: a batch's uploads are one event of the uploader; how streams interleave is the subject of `HipMux`. `validate_upload_ack` is left out.
- A gateway that rejects an upload at UPLOAD_BEGIN because the asset is already present: the peer of `HipMux` is the mock server, which never does; in `HipRouting` the server may answer at any time.
- The handshake of a HIP session: the agreed maximum frame size is a parameter.
- Wake-up order among condition-variable waiters, and fairness in general: liveness is stated as progress (some step is always enabled and runs of the executor are finite).
- EnvOverride.ApplyEnvOverride: the borrow that leads from the cursor back to the root is a trail of containers, so update in place is not captured; neither is running out of memory on a huge index, nor the overflow at index 2^64 - 1.
- AudioFifo.Transcoder.Emit: sample formats and channel layouts are not modelled; a sample stands for one instant on all channels.
- WorkerPipe.PooledWorker.Call: a spilled file is taken to stay in place until the parent has looked at it, and the half-written spill file of a dying worker is not modelled.
