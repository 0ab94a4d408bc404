# Annotation pipeline: verified model

A Dafny model of the stateful and arithmetic cores of a video annotation pipeline, with proofs over every
input, run or reachable state.  `dafny verify dfyconfig.toml` checks the whole project.

| files | subject |
|---|---|
| `spool_*.dfy`, `spool.dfy` | The durable outbox: SQLite tables, publication ledger, in-memory mirror with a lazy heap, group commit, cloud workers, crashes and restarts. `spool_runs.dfy` is the transition system between lock releases, `spool_guarantees.dfy` the results, `spool.dfy` the program on fields and tables. |
| `frame_cache.dfy` | A byte-bounded LRU over disk with optional write-back. |
| `contact_journal.dfy` | A crash-replayable file journal around paid submissions. |
| `admission.dfy`, `pacer.dfy` | A resizable semaphore with a sticky burst controller, and a FIFO start pacer with directed handoff. |
| `file_leases.dfy` | Two file locks that guard deletion of shared remote files. |
| `numeric.dfy`, `timeline.dfy`, `timeline_sources.dfy` | Subtask timelines: validation, conversion, chunking, merging. |
| `frame_grids.dfy`, `contact_sampling.dfy` | The 2 FPS anchor grid, the 5 Hz history, and the sampling window before a contact. |
| `json_text.dfy`, `checkpoint_log.dfy` | An append-only JSON-lines log with tail repair and replay. |
| `fleet.dfy` | Lease allocation over a fleet of workers. |
| `pair_gate.dfy` | The hand/object pair gate and the review that feeds it. |
| `text_lines.dfy` | A chunked line reader. |

Times are exact reals, SHA-256 is injective, clocks do not run backwards. A protocol is a datatype of states and a
datatype of steps; a run is any finite sequence of steps, of which those that are not enabled do nothing. Where the
program changes fields, a class does, and each of its methods is proved equal to the value function that the run proofs
use (or, for the two file protocols, returns as a ghost the steps it took).

## What the code does not promise

The proofs found these limits; each has an exact condition or a concrete case in the table below.

- The frame cache stores bytes, not types: a value read back from disk is `image/jpeg` whatever was stored.
- The three-submission bound of the contact journal rests on fresh task ids.
- A second validation of a timeline can fail: two equal steps within the 1e-4 tolerance can merge into one that ends before it starts.
- Chunks can be longer than the chunk length: a video between 295 and 300 seconds is a single chunk. The 300-second limit always holds.
- The guard of the checkpoint log cannot tell a stored null from a missing unit, so a null is overwritten silently.
- A write error that the process survives can leave half a line in the checkpoint log; the next acknowledged put then makes the log unreadable.
- A remote delete whose answer is lost (the client gives up after 20 seconds) can still arrive after its lease ended.
- The fleet controller records only the workers its launch probe sees. A cycle that dies before saving, or that returns normally although the launch probe timed out or failed, leaves a running lease that the files do not show, and its UIDs can be leased a second time. The liveness probe errs on the safe side, the launch probe does not.
- A fleet cycle that fails after saving the attempts counts an ended lease again. One cycle can count a UID twice after a failure between its two saves, or when an unreachable node brings an old slot back.
- The gap check behind the sampler can fail below 0.1 FPS.

## Model

| member | source | states |
|---|---|---|
| `SpoolGuarantees.AcknowledgedNeverLost` | scripts/checkpoint_spool.py:266-354 | Durability over every run with crashes and restarts: a row whose `enqueue_many` returned is still in `jobs` with its payload, or was written by the cloud writer; a final record is also in `accepted` with its digest. Covers duplicate callers, failed cloud writes, and a crash between cloud write, COMMIT and the in-memory update. |
| `SpoolGuarantees.LedgerIsExact` | scripts/checkpoint_spool.py:87-135 | In every reachable durable state the `published` paths are the `accepted` paths minus the `jobs` paths, and every published payload really is in the cloud. |
| `SpoolGuarantees.PublishedForEver` | scripts/checkpoint_spool.py:491-522 | Along any continuation of a run an accepted identity never changes and a published path never comes back into `jobs`. |
| `SpoolGuarantees.RunGrows` | scripts/checkpoint_spool.py:578-595 | No run removes or rewrites a row of `accepted` or `published`. |
| `SpoolGuarantees.NoCommitCollides` | scripts/checkpoint_spool.py:491-512 | Whenever the owner has selected a batch, the plain INSERTs meet no existing key: the transaction succeeds if and only if (for final records) every payload of the batch parses. |
| `SpoolGuarantees.IndexesAreExact` | scripts/checkpoint_spool.py:144-158 | Whenever the mutex is free: `jobs` is the disjoint union of ready and in-flight rows, every ready row has a live heap entry, `ready_by_parent` is its grouping, the counters are the count and size of `jobs`, backlog and queue together are at most the larger of the limit and the backlog found when this process started, and no row is with two workers; each batch has one parent and size one without a batch writer. |
| `SpoolGuarantees.FlushMeansCloud` | scripts/checkpoint_spool.py:675-685 | When `flush_checkpoint` returns, every acknowledged row below the unit is in the cloud and gone from `jobs`. |
| `SpoolGuarantees.ResumeKnowsAcknowledged` | scripts/checkpoint_spool.py:220-231 | The UID of every acknowledged final record is in `pending_input_uids` of its shard, after any restart. |
| `SpoolGuarantees.SomethingIsAcknowledged` | scripts/checkpoint_spool.py:266-354 | The promises are not empty: from an empty database a batched run of six steps acknowledges any row that fits (and parses, for final records). |
| `SpoolTheorems.RunIsGood` | scripts/checkpoint_spool.py:137-190 | The invariant that links tables, cloud history, mirror, queues, workers, tickets and callers holds after every run from an initial database. |
| `SpoolTheorems.StepKeeps` | scripts/checkpoint_spool.py:380-489 | Each critical section, transaction, worker step, failure, crash and restart keeps that invariant. |
| `SpoolTheorems.StartKeeps` | scripts/checkpoint_spool.py:112-168 | Migration and reloading rebuild a mirror that matches the tables. |
| `SpoolTheorems.EnqueueDirectKeeps` | scripts/checkpoint_spool.py:338-343 | The unbatched path commits row by row; a failure halfway acknowledges nothing and loses nothing. |
| `SpoolSteps.EnqueueKeeps` | scripts/checkpoint_spool.py:293-338 | Admission queues only unknown rows and gives each caller the tickets it must wait for. |
| `SpoolSteps.ReturnKeeps` | scripts/checkpoint_spool.py:343-354 | A caller whose tickets all succeeded holds only secured rows. |
| `SpoolSteps.CommitKeeps` | scripts/checkpoint_spool.py:427-440 | After the transaction the mirror lags behind the tables by exactly the selected batch and outcomes. |
| `SpoolSteps.InsertsNeverCollide` | scripts/checkpoint_spool.py:491-512 | Queued paths are disjoint from both tables, so a selected batch is insertable if its payloads parse. |
| `SpoolPublish.PublishKeeps` | scripts/checkpoint_spool.py:445-477 | Publication after COMMIT brings mirror and tables together again and answers exactly the committed tickets and workers. |
| `SpoolPublish.ApplyAcksKeeps` | scripts/checkpoint_spool.py:608-631 | Applying queued outcomes in order keeps all indexes and frees exactly the workers that reported. |
| `SpoolWorkers.TakeKeeps` | scripts/checkpoint_spool.py:633-643 | A claim hands rows to one worker only. |
| `SpoolWorkers.UploadKeeps` | scripts/checkpoint_spool.py:644-654 | A cloud write only adds objects; only a write without error is reported as success. |
| `SpoolWorkers.LandKeeps` | scripts/checkpoint_spool.py:644-654 | A write that a crashed process left under way may arrive at any later time without hurting any promise. |
| `SpoolWorkers.SettleKeeps` | scripts/checkpoint_spool.py:668-673 | The synchronous acknowledgement of the unbatched mode keeps the invariant. |
| `SpoolLedger.CommitAt` | scripts/checkpoint_spool.py:491-522 | What one group commit leaves in each table, path by path. |
| `SpoolLedger.CommitKeepsLedger` | scripts/checkpoint_spool.py:491-522 | A group commit keeps `published` = `accepted` minus `jobs`, given that confirmed outcomes are backed by the cloud. |
| `SpoolLedger.CommitSecures` | scripts/checkpoint_spool.py:491-522 | Everything that was secured before a commit stays secured, and every row of its batch becomes so. |
| `SpoolLedger.MigrateKeeps` | scripts/checkpoint_spool.py:112-135 | The start-up migration keeps the ledger exact and remembers every outbox row. |
| `SpoolIndex.AddJobKeeps` | scripts/checkpoint_spool.py:447-456 | A newly durable row enters all indexes consistently. |
| `SpoolIndex.AckKeeps` | scripts/checkpoint_spool.py:608-631 | Forgetting a confirmed batch or rescheduling a failed one keeps the indexes exact. |
| `SpoolIndex.ClaimKeeps` | scripts/checkpoint_spool.py:545-576 | A claim keeps the indexes exact, including after heap compaction and lazy deletion. |
| `SpoolIndex.BatchIsOneParent` | scripts/checkpoint_spool.py:558-566 | A claimed batch has distinct ready rows of one parent, at most the batch size, and one row without a batch writer. |
| `SpoolIndex.DueWorkIsClaimed` | scripts/checkpoint_spool.py:545-576 | If any ready row is due, a claim is not empty and starts with a row at least as old. |
| `SpoolIndex.NothingTooEarly` | scripts/checkpoint_spool.py:540-571 | No row is claimed before its retry time, the batch's first row has waited out the batch delay, and a claim carries the mirrored payload, size and attempts. |
| `SpoolRuns.BackoffDoubles` | scripts/checkpoint_spool.py:653-653 | The retry delay starts at two seconds, doubles with the attempts, and never exceeds a minute. |
| `CheckpointOutbox.DeleteThenRetry` | scripts/checkpoint_spool.py:513-518 | The transaction deletes all confirmed rows first and retries the rest afterwards; this reaches the same rows as applying the outcomes one by one, as the mirror does. |
| `CheckpointOutbox.Tables.MigrateLedger` | scripts/checkpoint_spool.py:112-135 | The migration loop equals the migration of the value model, or refuses and changes nothing. |
| `CheckpointOutbox.Tables.InsertBatch` | scripts/checkpoint_spool.py:495-512 | The chunked INSERTs succeed exactly when the whole batch is insertable, and then insert all of it. |
| `CheckpointOutbox.Tables.ExecuteCloudRows` | scripts/checkpoint_spool.py:578-595 | Statements of at most 128 rows have the effect of one statement over all rows. |
| `CheckpointOutbox.Tables.CommitBatch` | scripts/checkpoint_spool.py:491-522 | All of the batch and all outcomes, or the old tables. |
| `CheckpointOutbox.CheckpointSpool.constructor` | scripts/checkpoint_spool.py:144-167 | Reopening rebuilds exactly the mirror the run model starts from. |
| `CheckpointOutbox.CheckpointSpool.Prepare` | scripts/checkpoint_spool.py:274-288 | Duplicate rows collapse, conflicting or oversized ones are refused, and the capacity test is on what remains. |
| `CheckpointOutbox.OnePerPathIsDistinct` | scripts/checkpoint_spool.py:274-284 | The prepared rows have distinct paths and stand for every row of the call. |
| `CheckpointOutbox.CheckpointSpool.Classify` | scripts/checkpoint_spool.py:298-318 | The classification loop finds a conflict if and only if some row conflicts, and otherwise exactly the new rows and the tickets to wait for. |
| `CheckpointOutbox.CheckpointSpool.TryEnqueue` | scripts/checkpoint_spool.py:293-338 | The critical section refuses, asks to wait, or queues exactly the new rows, and every row that must be waited for has the ticket that sits in the queue. |
| `CheckpointOutbox.AllTicketed` | scripts/checkpoint_spool.py:329-334 | Tickets collected while classifying and while queueing together are the tickets found in the queue. |
| `CheckpointOutbox.CheckpointSpool.CommitSingle` | scripts/checkpoint_spool.py:356-384 | One row, one transaction, then the mirror; on failure neither changes. |
| `CheckpointOutbox.CheckpointSpool.PublishBatch` | scripts/checkpoint_spool.py:444-455 | The publication loop, with counters brought up to date once at its end, equals publishing ticket by ticket. |
| `CheckpointOutbox.CheckpointSpool.ApplyCloudAck` | scripts/checkpoint_spool.py:608-631 | The field-by-field update equals one outcome of the value model. |
| `CheckpointOutbox.CheckpointSpool.ClaimBatch` | scripts/checkpoint_spool.py:545-576 | Compaction, lazy deletion and collection of siblings claim the earliest due row and its companions, or prove that nothing is due. |
| `CheckpointOutbox.CheckpointSpool.PruneHeap` | scripts/checkpoint_spool.py:548-552 | Compaction and popping drop only stale entries and leave the earliest live one on top. |
| `CheckpointOutbox.CheckpointSpool.LoadLedger` | scripts/checkpoint_spool.py:163-167 | The identity map and its UIDs per parent are rebuilt from `accepted`. |
| `FrameCacheModel.ReadsTheLastBytes` | scripts/bounded_media.py:41-48 | After any mix of set, get, delete and clear, in either write mode, a read finds exactly the stored keys and the bytes stored last. |
| `FrameCacheModel.BoundedAndBacked` | scripts/bounded_media.py:50-77 | `bytes` is the sum of the hot sizes and at most the budget, dirty keys are hot, and every key that is not hot or not dirty has its current bytes on disk. |
| `FrameCacheModel.ReturnsTheValueIffJpeg` | scripts/bounded_media.py:46-48 | The cache agrees with a plain map for a value, over all histories, if and only if its type is `image/jpeg`, the type a reload from disk is given. |
| `FrameCacheModel.EvictsLeastRecentlyUsed` | scripts/bounded_media.py:53-57 | Eviction takes the shortest prefix of the hot list that makes room, and after any run everything it takes was last used before everything that stays. |
| `FrameCacheModel.EvictionIsAPrefix` | scripts/bounded_media.py:50-60 | The eviction loop terminates and removes the shortest sufficient prefix. |
| `FrameCacheModel.RunKeeps` | scripts/bounded_media.py:20-91 | The cache invariant after any sequence of operations. |
| `FrameCacheModel.PutKeeps` | scripts/bounded_media.py:62-70 | Storing keeps the invariant, including oversized values and overwritten dirty frames. |
| `FrameCacheModel.GetKeeps` | scripts/bounded_media.py:41-48 | Reading keeps the invariant and returns what stands for the stored value. |
| `FrameCacheModel.FrameCache.EvictFrames` | scripts/bounded_media.py:53-57 | The loop over the ordered dictionary equals the eviction of the value model. |
| `FrameCacheModel.FrameCache.Set` | scripts/bounded_media.py:62-70 | `__setitem__` on the fields equals the value model. |
| `FrameCacheModel.FrameCache.Item` | scripts/bounded_media.py:41-48 | `__getitem__` on the fields equals the value model, result included. |
| `FrameCacheModel.FrameCache.DeleteItem` | scripts/bounded_media.py:79-84 | `__delitem__` on the fields equals the value model. |
| `ContactJournal.AtMostThreeSubmissions` | scripts/cpa_las_points.py:118-174 | For any schedule of crashes and restarts in one identity directory at most three submit requests go out, provided the service never repeats a task id. |
| `ContactJournal.AtMostThreeTasks` | scripts/cpa_las_points.py:118-174 | Without any assumption on the service, the submissions of one identity directory name at most three different tasks. |
| `ContactJournal.NeverSubmitsOverAnOpenOutcome` | scripts/cpa_las_points.py:151-170 | A submit request goes out only when every earlier one was answered, reported by the service as a model failure, and archived. |
| `ContactJournal.UnknownMeansUnrecorded` | scripts/cpa_las_points.py:158-159 | The outcome-unknown error is raised only over a start marker whose answer never reached `submit.json`. |
| `ContactJournal.RetirementIsNeverLost` | scripts/cpa_las_points.py:141-144 | While a retirement is under way any event leaves it under way or finishes it, sends nothing and raises nothing. |
| `ContactJournal.RetirementIsReplayed` | scripts/cpa_las_points.py:118-144 | Killed after any file operation, a retirement is completed by the next start. |
| `ContactJournal.CompletedIsFinal` | scripts/cpa_las_points.py:151-152 | Once `response.json` exists nothing is ever submitted again and the answer stays. |
| `ContactJournal.RepeatedIdHasNoBound` | scripts/cpa_las_points.py:125-144 | With a repeated task id the archived copy of the first failure retires every later one: any number of submissions is reached. |
| `ContactJournal.RunIsValid` | scripts/cpa_las_points.py:118-227 | The journal invariant after any sequence of events. |
| `ContactJournal.Journal.RetireFailedSubmission` | scripts/cpa_las_points.py:118-144 | The ordered file updates follow the state machine step by step. |
| `ContactJournal.Journal.Submit` | scripts/cpa_las_points.py:158-170 | The start marker is on disk before the request leaves, the answer is recorded after it. |
| `ContactJournal.Journal.PollUntilSettled` | scripts/cpa_las_points.py:174-227 | The poll loop: transient errors repeat only the poll. |
| `ContactJournal.Journal.Resolve` | scripts/cpa_las_points.py:146-227 | The two nested loops take only steps of the state machine, so a kill between any two statements is one of its runs. |
| `Limiter.NeverStalls` | scripts/annotate_videos.py:485-537 | After any run of any number of threads: 1 <= limit <= maximum, the counter is exact, and while somebody sleeps the free slots are at most the threads already woken and not yet resumed. |
| `Limiter.AdmitsBelowTheLimit` | scripts/annotate_videos.py:496-501 | A thread gets in only while `active < limit`, one at a time. |
| `Limiter.StepKeeps` | scripts/annotate_videos.py:496-537 | No lost wakeup under exits with a single notify, growth, throttle reductions and caps. |
| `Limiter.LimitIsPositiveIff` | scripts/annotate_videos.py:565-570 | A limit below one comes from a maximum or ceiling below one and from nothing else. |
| `Limiter.AdaptiveConcurrencyLimiter.TryEnter` | scripts/annotate_videos.py:496-501 | One test of the waiting loop: in, or asleep at the end of the queue. |
| `Limiter.AdaptiveConcurrencyLimiter.Release` | scripts/annotate_videos.py:503-509 | One slot back, one thread woken if there is room. |
| `Limiter.AdaptiveConcurrencyLimiter.RecordSuccess` | scripts/annotate_videos.py:511-521 | Growth by one after max(256, 4 * limit) successes, never in fixed mode. |
| `Limiter.AdaptiveConcurrencyLimiter.ReduceAfterThrottle` | scripts/annotate_videos.py:523-537 | 64 from above, otherwise four fifths, at most every five seconds; reports whether the limit fell. |
| `BurstBackoff.StaysUnderTheCeiling` | scripts/annotate_videos.py:565-605 | Once conservative and with the controller lock free, every limiter registered before or after the trip is under its ceiling, whatever its threads do between the caps and whether or not the state file could be written. |
| `BurstBackoff.CapIsSticky` | scripts/annotate_videos.py:561-563 | The mode never ends within a process, and survives restarts once its state file is written. |
| `BurstBackoff.TripsExactlyOnABurst` | scripts/annotate_videos.py:580-592 | A failure trips the controller if and only if at least `threshold` failures lie within the window. |
| `BurstBackoff.WindowIsExact` | scripts/annotate_videos.py:586-591 | Until it trips, the deque is exactly the recent failures. |
| `BurstBackoff.BurstFailureBackoff.RecordFailure` | scripts/annotate_videos.py:580-605 | The window loop and the loop over the registered limiters; after a trip every target is capped, also if the state file cannot be written. |
| `BurstBackoff.BurstFailureBackoff.Register` | scripts/annotate_videos.py:572-578 | A limiter registered late is capped at once. |
| `Pacer.AnyTwoStartsAreSpaced` | scripts/annotate_videos.py:753-802 | Any two starts of any run of any number of threads are at least as far apart as the smallest interval in force between them. |
| `Pacer.StartsAreSpaced` | scripts/annotate_videos.py:753-802 | The step that grants a start does so no sooner after the previous one than the smallest interval since. |
| `Pacer.LeastIsSmallest` | scripts/annotate_videos.py:725-751 | The recorded smallest interval forgets no interval that was in force. |
| `Pacer.HeadIsCalled` | scripts/annotate_videos.py:769-802 | A nonempty queue has its head called or the call on its way, nobody behind it is called, and only the head leads - also when the head or followers leave by bypass or by an exception from `check`. |
| `Pacer.OnlyTheHeadStarts` | scripts/annotate_videos.py:775-795 | With a positive interval and a nonempty queue only the head can start. |
| `Pacer.HeadReachesItsDeadline` | scripts/annotate_videos.py:772-786 | At most two steps, of which none needs time to pass, bring the head to its deadline loop. |
| `Pacer.TimedRateIsBounded` | scripts/annotate_videos.py:725-751 | Timed mode keeps the interval between base and maximum, and a recovery leaves no deadline beyond the interval in force. |
| `Pacer.ThrottleKeeps` | scripts/annotate_videos.py:804-860 | A throttle never speeds starts up and leaves the current deadline alone. |
| `Pacer.RequestStartPacer.RecoverNow` | scripts/annotate_videos.py:725-751 | Recovery periods 10 and 60 seconds, factors 0.9, 0.5 and 0.75, and the jump to zero below 0.01. |
| `Pacer.RequestStartPacer.Enter` | scripts/annotate_videos.py:758-771 | Start at once, or join the queue. |
| `Pacer.RequestStartPacer.TryHead` | scripts/annotate_videos.py:785-795 | One turn of the head loop. |
| `Pacer.RequestStartPacer.Depart` | scripts/annotate_videos.py:796-802 | Only a leaving head names a successor. |
| `Pacer.RequestStartPacer.RecordThrottle` | scripts/annotate_videos.py:804-860 | The three feedback branches with their constants. |
| `Pacer.RequestStartPacer.RecordOverload` | scripts/annotate_videos.py:862-880 | A quarter more at most every five seconds. |
| `Pacer.RequestStartPacer.RecordSuccess` | scripts/annotate_videos.py:882-906 | Five percent less after 2000 successes without timed recovery. |
| `FileLeases.NeverDeletesUnderAReference` | scripts/ark_file_transport.py:201-235 | A DELETE is sent only by the holder of the exclusive lease and with no reference of the identity open, over all interleavings and deaths. |
| `FileLeases.OpenFilesAreNotRemoved` | scripts/ark_file_transport.py:58-64 | The file of an open reference was not removed by the cleaner unless a request for that very file outlived its lease. |
| `FileLeases.LosesItsFileIff` | scripts/ark_file_transport.py:201-262 | In any reachable state an open reference can still lose its file, in some continuation that keeps it open, if and only if a delete request for that file was applied or is still under way. |
| `FileLeases.AnsweredIsSafe` | scripts/ark_file_transport.py:201-262 | If no cleanup ends while its request is under way, no open reference ever loses its file; cleanups may die before sending and after the service applied the request. |
| `FileLeases.NothingAbandonedIff` | scripts/ark_file_transport.py:228-262 | A delete request outlives its lease in a run if and only if a cleanup gives up while the request is under way. |
| `FileLeases.GivesUp` | scripts/ark_file_transport.py:228-262 | A run from any start with a recorded file that leaves the request flying without a lease: lease, lock, send, give up. |
| `FileLeases.AbandonedDeleteReachesAReference` | scripts/ark_file_transport.py:228-262 | The exception is real: from any start with an active, unexpired file on record there is a run to an open reference whose current file is gone. |
| `FileLeases.UploadsOnlyWhenNeeded` | scripts/ark_file_transport.py:297-351 | An upload happens only under the record lock and only if the recorded file is missing, unreadable, deleted, about to expire, or gone from the service. |
| `FileLeases.CleanupNeverWaits` | scripts/ark_file_transport.py:204-213 | Holding the exclusive lease, the cleaner finds the record lock free: the two locks cannot deadlock. |
| `FileLeases.ResolvesToAnActiveFile` | scripts/ark_file_transport.py:315-384 | A reference changes its file only to one the service just called active, or to one that was awaited, saved and is usable beyond the margin. |
| `FileLeases.StepKeeps` | scripts/ark_file_transport.py:32-64 | The lock, tracking, trust and upload invariants under every step. |
| `FileLeases.ArkFiles.Resolve` | scripts/ark_file_transport.py:297-384 | The sequential code takes only steps of the protocol, returns the file it remembers, and on an error leaves the reference as it was with the lock free. |
| `FileLeases.ArkFiles.DeleteUnused` | scripts/ark_file_transport.py:201-262 | Deletes exactly if nobody holds a reference, a file is recorded and the answer arrives; otherwise record and service are untouched, apart from a request left under way. |
| `Timeline.ValidatedIsAccepted` | scripts/annotate_videos.py:3550-3628 | A successful validation returns clean labels, no equal neighbours, gaps of at most 1e-4, and outer ends at 0 and at the end of the media; merged steps are numbered from one. |
| `Timeline.ValidatesAgainIff` | scripts/annotate_videos.py:3590-3605 | Validation is idempotent on a result if and only if no run of equal steps folds back on itself (its last end lies after its first start). |
| `Timeline.BackwardRunIsRejectedTheSecondTime` | scripts/annotate_videos.py:3587-3605 | The failing case is real: two equal steps inside the tolerance. |
| `Timeline.MergeIsOneStepPerRun` | scripts/annotate_videos.py:3590-3601 | Merging keeps exactly one step per maximal run: its first step with its last end. |
| `Timeline.MergeIsDistinct` | scripts/annotate_videos.py:3590-3601 | No two neighbours of a merged timeline are equal. |
| `Timeline.NoComplaintIff` | scripts/annotate_videos.py:3561-3589 | The checking loop passes if and only if every step is named and bounded and neighbours meet within 1e-4. |
| `Timeline.ValidateSubtasks` | scripts/annotate_videos.py:3550-3628 | The loops return the value or the first error of the specification. |
| `TimelineSources.ConversionCoversTheSource` | scripts/annotate_videos.py:2428-2511 | The converter yields an exact partition, numbered from one: of the video duration by positive steps, or of the frames. |
| `TimelineSources.ConversionSucceedsIff` | scripts/annotate_videos.py:2445-2506 | A well-formed annotation converts if and only if the video is longer than a microsecond; frame sequences always do. |
| `TimelineSources.ConversionIsAccepted` | scripts/annotate_videos.py:3550-3628 | Every converted timeline validates, and validates again to itself. |
| `TimelineSources.CoveringIsAccepted` | scripts/annotate_videos.py:3550-3628 | Every exact timeline validates, idempotently. |
| `TimelineSources.ConvertItems` | scripts/annotate_videos.py:2455-2510 | The conversion loop, errors included. |
| `TimelineSources.ChunkRanges` | scripts/annotate_videos.py:2530-2545 | Balanced chunks tile the duration exactly with equal positive spans. |
| `TimelineSources.ChunksFit` | scripts/annotate_videos.py:2530-2545 | Every span stays within the 300-second limit; all spans stay within the chunk length if and only if the duration is not between the chunk length and 300 seconds. |
| `TimelineSources.MergeIsLinked` | scripts/annotate_videos.py:2639-2646 | Whatever the chunks contain, the merged timeline is linked from 0 to the duration, numbered from one, without equal neighbours. |
| `TimelineSources.MergeSucceedsIff` | scripts/annotate_videos.py:2613-2640 | The merge succeeds if and only if every step has both bounds and some chunk has a step. |
| `TimelineSources.MergeCoversTheSource` | scripts/annotate_videos.py:2594-2658 | Chunk timelines that partition their chunks merge into one exact partition of the source that validation accepts idempotently. |
| `TimelineSources.ChunkedAnnotationIsAccepted` | scripts/annotate_videos.py:2428-2658 | End to end: converted answers for tiling chunks merge into an accepted exact timeline. |
| `TimelineSources.MergeChunks` | scripts/annotate_videos.py:2601-2646 | The merging loop equals merging the concatenation of all mapped chunks. |
| `FrameGrids.AnchorsPartitionTheGrid` | scripts/annotate_videos.py:4932-4943 | Over a contiguous timeline the anchors of all subtasks, in order, are exactly the 2 FPS indices below ceil(2 * duration - 1e-9). |
| `FrameGrids.OwnerIsUnique` | scripts/annotate_videos.py:4932-4943 | No index is an anchor of two subtasks. |
| `FrameGrids.AnchorsAreARange` | scripts/annotate_videos.py:4938-4943 | The extra upper bounds of the comprehension remove nothing. |
| `AnchoredTimeline.AnchorsOfATimeline` | scripts/annotate_videos.py:4932-4943 | The same for every exact subtask timeline. |
| `FrameGrids.HistoryIsExact` | scripts/cpa_student_video.py:11-22 | For every start <= query and fps >= 5 the indices rise strictly through half-to-even rounding, start at or after the segment, end at the query, and one more step would leave the segment. |
| `FrameGrids.BackIsStrict` | scripts/cpa_student_video.py:21-22 | Consecutive rounded offsets differ: steps above one frame separate, and steps of exactly one frame only produce integers. |
| `FrameGrids.SlowerVideosRepeatFrames` | scripts/cpa_student_video.py:13-17 | The rate guard is exact: at every positive rate below 5 FPS two neighbouring history frames coincide. |
| `Numeric.OneApartMeetIff` | scripts/cpa_student_video.py:18-22 | Half-to-even rounding merges two values exactly one apart if and only if they are the two halves around an even integer. |
| `ContactSampling.EligibleFrames` | scripts/annotate_videos.py:7211-7283 | Every eligible frame lies in video and segment, strictly after every earlier contact and before the target frame, is no contact frame, and keeps gap and lookback up to 1e-9 frames. |
| `ContactSampling.ObservationFrames` | scripts/annotate_videos.py:7284-7313 | For any sample of the population the loop returns it; the intervening-contact error is never returned. |
| `ContactSampling.Population` | scripts/annotate_videos.py:7280-7283 | The population is exactly the eligible frames. |
| `ContactSampling.GapCheckPasses` | scripts/cpa_downstream.py:187-199 | At 0.1 FPS or more the caller's gap check never fails. |
| `ContactSampling.GapCheckIsSafeIff` | scripts/cpa_downstream.py:187-199 | The bound is exact: below 0.1 FPS there are settings for which it fails. |
| `CheckpointLog.OpeningRebuildsTheLog` | scripts/annotate_videos.py:1003-1055 | After any puts, torn writes, deaths and identities, opening never fails: it finds exactly the lines whose newline reached the disk, or sets a foreign file aside. |
| `CheckpointLog.AcknowledgedIsRecovered` | scripts/annotate_videos.py:1062-1091 | A put that returned is found by every later opening of the same identity, unless its value was null. |
| `CheckpointLog.SurvivedWriteErrorIff` | scripts/annotate_videos.py:1087-1091 | A put that fails halfway while the process lives on: after the next acknowledged put the log can be opened again if and only if the failed one left nothing, or its whole line without a contradiction. |
| `CheckpointLog.SecondValueIsRefusedIff` | scripts/annotate_videos.py:1071-1076 | A second, different value is refused if and only if the stored one is not null. |
| `CheckpointLog.Cutoff` | scripts/annotate_videos.py:8509-8521 | The backward scan finds the last newline for any block size. |
| `CheckpointLog.AnnotationUnitCheckpoint.RepairTail` | scripts/annotate_videos.py:8501-8538 | The kept part ends at the last newline, and kept part plus evidence is the original file. |
| `CheckpointLog.AnnotationUnitCheckpoint.Load` | scripts/annotate_videos.py:1003-1055 | The loading loop: entries, a foreign file set aside, or the error. |
| `CheckpointLog.AnnotationUnitCheckpoint.Put` | scripts/annotate_videos.py:1062-1091 | The line is appended before the unit is known; known and conflicting units write nothing. |
| `CheckpointLog.LoadsTheLog` | scripts/annotate_videos.py:1008-1040 | Lines the checkpoint wrote replay to its entries without conflict. |
| `CheckpointLog.ForeignLog` | scripts/annotate_videos.py:1019-1027 | A log of another identity is recognized at its first line. |
| `JsonText.DecodesBack` | scripts/annotate_videos.py:1087-1088 | Reading back an encoded record gives the record, and its text holds no newline (section 7 of RFC 8259). |
| `JsonText.ParsesBack` | scripts/annotate_videos.py:1013-1013 | Any encoded value, with lists, numbers and nested objects, is read back whole whatever follows it; after a number the next byte must not belong to a number. |
| `JsonText.NumbersNeedADelimiter` | scripts/annotate_videos.py:1013-1013 | Without a delimiter two number tokens are read as one. |
| `JsonText.CutRecordIsLost` | scripts/annotate_videos.py:1011-1018 | A record cut at any byte with a whole record written behind it is never a JSON text. |
| `FleetLeases.LeasesAreDisjoint` | scripts/cpa_fleet_controller.py:730-850 | From any state whose running leases are recorded and disjoint, over all cycles that record what they start no UID is leased to two running workers, even when the liveness probe takes unreachable nodes for running. |
| `FleetLeases.RunIsRecordedIff` | scripts/cpa_fleet_controller.py:827-850 | The files describe what runs throughout a run if and only if every cycle of it records every worker it started. |
| `FleetLeases.CycleIsRecordedIff` | scripts/cpa_fleet_controller.py:446-508 | One cycle, whatever point it reaches: what runs stays disjoint, and it stays described if and only if no started worker is left unrecorded, by an abort before the save or by a launch probe that did not see it. |
| `FleetLeases.SecondLeaseIff` | scripts/cpa_fleet_controller.py:743-850 | A UID that runs on one worker can be leased to a second while the first still runs if and only if its slot's recorded lease does not hold it, it is not completed, its attempts with those still to be counted stay below the bound or its source is not yet available, and there is another slot. |
| `FleetLeases.UnseenWorkerLeasesTwice` | scripts/cpa_fleet_controller.py:493-508 | It happens: a cycle that dies after launching, or that returns normally although its launch probe saw nothing, is followed by a second lease of the same UID. |
| `FleetLeases.SeedIsSafe` | scripts/cpa_fleet_controller.py:888-895 | The assignment file of the first start, with any of the seed's workers running, is such a recorded, disjoint state. |
| `FleetLeases.SchedulesOnlyPending` | scripts/cpa_fleet_controller.py:747-789 | In any state a cycle schedules only available UIDs that are neither completed nor quarantined, and none that runs if the files describe what runs. |
| `FleetLeases.AttemptsRiseByOne` | scripts/cpa_fleet_controller.py:321-337 | With exact probes a cycle raises the attempt count of a UID by at most one, over all runs that record what they start and in which no failure between the two saves left overlapping leases. |
| `FleetLeases.CountsTwiceIff` | scripts/cpa_fleet_controller.py:321-337 | A cycle raises the count of a UID by more than one if and only if two slots that ended in it both held the unfinished, available UID. |
| `FleetLeases.SavedStaysDisjointIff` | scripts/cpa_fleet_controller.py:843-850 | A cycle keeps the saved leases disjoint if and only if it does not fail between the two saves with a new lease that meets that of another slot saved before. |
| `FleetLeases.FailureBetweenTheSaves` | scripts/cpa_fleet_controller.py:843-850 | It happens: a cycle that fails between saving the assignments and the active slots leaves two saved slots with the same UID, though it recorded all it started. |
| `FleetLeases.UnreachableNodeOverlaps` | scripts/cpa_fleet_controller.py:270-280 | Without exact probes the saved leases can overlap: a node that cannot be reached brings back a slot whose UID another slot has taken over. |
| `FleetLeases.AbortAfterAttemptsCountsTwice` | scripts/cpa_fleet_controller.py:743-757 | A cycle that fails after saving the attempts is counted again by the next. |
| `FleetLeases.ChosenSlotsRise` | scripts/cpa_fleet_controller.py:581-590 | The chosen slots are strictly increasing members of the idle list. |
| `FleetLeases.RecordFinishedAttempts` | scripts/cpa_fleet_controller.py:321-337 | The nested loops add one attempt per ended lease that holds the unfinished, available UID. |
| `FleetLeases.BuildPartitions` | scripts/build_cpa_dynamic_generation.py:42-60 | Deduplicated, filtered and hashed into buckets in master order, each truncated to the slot limit. |
| `PairGate.ContactPairsAreWhole` | scripts/cpa_pair_policy.py:19-30 | A retained contact pair has both coordinates, no refused participant, and a known side if one is required. |
| `PairGate.ObservationsAreWholePairs` | scripts/cpa_pair_policy.py:31-61 | Every observed point that remains belongs to a retained contact pair, and its partner remains too. |
| `PairGate.EnforceTwice` | scripts/cpa_pair_policy.py:11-64 | Running the gate again under the same policy changes nothing. |
| `PairGate.KeptUnlessContactRejected` | scripts/cpa_downstream.py:93-104 | From the tracked points through review and gate: a pair the track review kept is dropped by the gate if and only if its contact pair was rejected. |
| `PairGate.KeptByTheGateIff` | scripts/cpa_pair_policy.py:41-57 | For any list of tracks, also with repeated indices: what the review kept stays if and only if its contact pair is retained and the last track of that index passed. |
| `PairGate.PairsForLegacy` | scripts/cpa_downstream.py:93-104 | One pair per index in order of first appearance; each side is the last point of that pair and role, and unseen without one. |
| `PairGate.PairsAreUnique` | scripts/cpa_downstream.py:93-104 | The pairs handed to the review have distinct indices. |
| `PairGate.VisibleIff` | scripts/cpa_visibility_review.py:21-31 | No visibility reason if and only if both points are seen and lie in the unit square. |
| `PairGate.ValidateVerdict` | scripts/cpa_visibility_review.py:34-50 | Accepts exactly one complete, evidenced judgment for each asked pair. |
| `PairGate.VerdictCoversThePairs` | scripts/cpa_visibility_review.py:38-45 | An accepted verdict judges every asked pair and nothing else. |
| `PairGate.ReviewTracks` | scripts/cpa_visibility_review.py:101-168 | The gating loops and at most three answers; no answer is needed when no pair passes the hard gates. |
| `PairGate.ContactEvent.EnforcePairs` | scripts/cpa_pair_policy.py:11-64 | The in-place rewrite of event and reviews equals the gate on values. |
| `PairGate.ObservationReview.Gate` | scripts/cpa_pair_policy.py:31-61 | The same for one review. |
| `TextLines.LargeTextLines` | scripts/audit_grounding_records.py:20-36 | For every way of cutting the stream into nonempty chunks the yields are the lines of the whole text. |
| `TextLines.LinesAreTheText` | scripts/audit_grounding_records.py:20-36 | Joined, the lines are the text. |
| `TextLines.LinesAreProper` | scripts/audit_grounding_records.py:20-36 | No line is empty, newlines stand only at the end, and only the last line may lack one. |
| `TextLines.ProperLinesAreUnique` | scripts/audit_grounding_records.py:20-36 | These facts determine the lines. |

## Left out

- HTTP, SDK, tmux and ssh calls, object-storage writes and URL signing: only their success, failure or answer is an event.
- Disk-headroom and other I/O errors inside cache and spool: the operation fails and nothing is acknowledged. The log's write error that the process survives is modelled in `CheckpointLog.SurvivedWriteErrorIff` only, not as a step of its runs.
- Creation times within one `enqueue_many` call: all rows of a call share one.
- Health snapshots, metrics, log lines and the oldest-pending heap of the spool: observation only.
- Waiting times of the spool's commit owner and workers: a step may be taken whenever its condition holds, so no timing is assumed.
- Path checks of the spool (`_relative`) and JSON parsing of a final record: a path is a parent and a name, a payload carries the result of the parse.
- The restricted view `FrameSelection`: it adds a membership test only.
- The dispatcher and cohort feedback of the pacer: their modules are not part of this model; the pacer is the one without them.
- The immutable-file mode of the checkpoint (`put_checkpoint_unit`, `put_many`): another module's format.
- Not-a-number and infinite values in `JsonText.Json`, other layouts than the writer's, and key order in the comparison of two objects.
- Unicode case folding in step labels: `Timeline.Key` folds ASCII and collapses blanks.
- Alternative field names (`steps`, `start`, `end`) and non-string labels accepted by `validate_subtasks`.
- Label text of the converter's action field (`vla_skill_action`): regular expressions; an item carries the finished action.
- FileLeases.StepKeeps: models one content identity; files, locks and records of different identities are disjoint. The ownership and identifier checks of `delete_unused`, its pacing, and deferred cleanup across restarts are not modelled.
- FleetLeases.LeasesAreDisjoint: a cycle is one step with an abort point; workers may exit between cycles, which covers exits during one. The tail rebalancer is such an exit. Remote deployment and location indexes are not modelled.
- PairGate.EnforceTwice: reasons are sets and lookups are maps, so the order inside the audit lists is not modelled; the versions written into it are constants.
- PairGate.ReviewTracks: the saved review file, prompts and evidence images are not modelled.
- ContactSampling.ObservationFrames: decoding and encoding of frames, and the metadata rows; any deterministic sample of the right size is allowed.
- TimelineSources.ConversionCoversTheSource: asks for a known, nonnegative duration or at least one frame; with no frame at all the source's last end index would be -1.
- BurstBackoff.TripsExactlyOnABurst: assumes the failure times of one process are in order, as a monotonic clock gives them.
- Prompts, model schemas, image processing, inference, command lines and environment settings.
