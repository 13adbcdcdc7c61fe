# A verified model of minicrond

minicrond is a cron scheduler and process supervisor that keeps jobs running while its
databases or disks fail. This project models its six state machines in Dafny and proves
what they keep over every run: the tiered log store, deferred run history, the durable
execution queue, schedule arithmetic, worker supervision, and the fast forms used for
reclaiming space and for metrics.

How the parts of the system appear in the model:

- A database transaction is one atomic step. Where the source has to live with it, its
  outcome is free: done, failed, or committed and still reported as failed (`Unsure`).
- A file is the byte sequence it holds; compression is the identity. A fault of the file
  system is a freely chosen value at the point where the call could fail; a flag `sound` rules
  faults out where a promise is about storage that does not fail.
- Threads that share locks are a state machine with one event per step between two lock or
  database operations. A theorem over every event sequence is a theorem over every
  interleaving.
- Code that updates fields step by step is a class or a method with loops, proved against a
  specification (`RunStore`, `Writer`, `Store`, `ChunkTable`, the reader, the searches).
- Lemmas turn automatic induction off, so that a proof is what its body says.
- Cron's `Next` is the least later instant whose wall-clock minute matches, within its
  five-year horizon. A zone is a piecewise constant offset with whole-minute transitions
  and long pieces. The random run ids are never reused. The zstd encoder keeps failing
  after its first failure until it is reset. Clocks are parameters.

The files, in reading order:

| file | subject |
|---|---|
| Options.dfy | the option type the other files share |
| Codec.dfy | the frame format, encoding, decoding, salvage of damaged streams |
| LogReader.dfy | the storage tiers of one run, the reference sequence of frames, cursor paging, and when the records reach every frame |
| Archive.dfy | moving sealed chunks into rows and files, crashes, the orphan sweep |
| Growth.dfy | how a live writer changes the tiers |
| LogRun.dfy | one event machine over writer, archiver, crash and sweep, and the invariant of all its runs |
| LogReads.dfy | what readers of such a run get, page by page, while the events go on |
| LogFaults.dfy | its failing cases: frames of failed stores, pages that end early, and a checkpoint that cannot go on |
| Writer.dfy | the per-run writer: rotation, eviction, degraded capture, recovery |
| SealSync.dfy | deferred fsync of sealed chunks against the archiver's renames |
| History.dfy | run rows, starts and ends written late by the background writer |
| QueueStore.dfy | the runs and queue tables and their transactions |
| Drain.dfy | the depth mirror, capacity slots and the admission lock |
| Slots.dfy | who releases a capacity slot on every path, with flags, deferred releases and panics |
| Fairness.dfy | which queued item the drain serves next |
| Schedule.dfy | cron next-fire with repeated and skipped wall-clock intervals |
| Overdue.dfy | missed occurrences: backward search, counting, intervals |
| Supervision.dfy | restart epochs, exhaustion records, supervision loops |
| Retention.dfy | the paged retention sweep |
| Prune.dfy | deleting the oldest chunks under disk pressure |
| Metrics.dfy | gauges from difference arrays, percentiles from one sorted pass |

Some promises turned out to be conditional. Each has an exact condition and a concrete
failing case:

- Pages lose nothing, at every cursor and for every limit and budget, exactly when the
  records reach every frame (`LogReader.LosslessExactly`). They do in every layout of a run
  in which no failed store left its whole frame in the file (`LogReads.EveryPageIsLossless`).
  Such a failure can lead to a page that loses the frame, whether the store came after
  acknowledged frames of its chunk or was the first one (`LogFaults.WholeFailureLoses`,
  `LogFaults.FirstFailureLoses`). Frames that were acknowledged and not evicted are never
  lost, whatever failed (`LogReads.AcknowledgedIsSeen`).
- A page is the longest one that limit and budget allow, unless a frame torn behind its header
  announces a size that would not fit: then it ends there, although later frames would fit
  (`LogReader.LongestExactly`, with a run in `LogFaults.TornFrameEndsPage`). Nothing is lost,
  the next page goes on.
- A checkpoint succeeds only if no chunk it has to archive was moved out of the buffer without
  being struck off the list, and on storage that does not fail exactly then
  (`Archive.RunStore.ArchiveWriter`); a batch fails at once exactly if the first such chunk lies
  within the batch limits (`Archive.Gather`). The source calls a failed removal retried, but if
  the batch also moved a file, the next one fails before it gets to the removal
  (`Archive.FailedRemovalSticks`, with a run in `LogFaults.RemovalInVain`). Only evicting the
  moved chunk or a restart ends this (`LogFaults.JamExactly`).
- A capacity slot is settled exactly once on every path, except that a panic inside a launch
  made by a trigger loses it; the lost slots are exactly those panics
  (`Slots.SlotsAreConserved`, `Slots.LaunchPanicStrands`). The comments of the source promise
  the release on every path.
- Deferred history equals direct writes unless an insert committed but reported failure and
  the lookup of that row then failed too, while later stages were waiting
  (`History.DeferredIsDirect`, `History.HiddenRowLosesTheEnd`).
- The queue depth under-counts only through an enqueue that committed but reported failure
  (`Drain.UndercountExactly`). Queued rows are overtaken, or slept on, exactly when such
  enqueues hide them all (`Drain.OvertakesExactly`, `Drain.IdlesExactly`,
  `Drain.UnsureEnqueueIsOvertaken`).
- The group-sync claim is per process: after a restart it holds exactly when every committed
  chunk still pending before it was already on disk (`SealSync.RestartExactly`,
  `SealSync.RestartCanForget`).
- A fire is the least later occurrence unless a first, unmatched forward gap hides a later,
  matching one (`Schedule.FireIsLeast`). The latest missed fire is right exactly when it
  hides no gap up to now, and a count flagged exact is right exactly when no cursor visited
  does (`Overdue.OverdueCron`). `Overdue.HiddenGapIsMiscounted` gives a zone and a schedule
  for which two fires were missed and one is counted, flagged exact; the comments of the
  source promise exactness without a condition.
- The interval count is exact unless the downtime exceeds the largest duration
  (`Overdue.IntervalExactly`, `Overdue.LongDowntimeIsUndercounted`).
- A status request shows an exhaustion record of an earlier lifecycle exactly when memory has
  none and the stored one was left over by a reload that could not clear it or by an earlier
  process, or when the worker was reset between the two reads (`Supervision.StaleExactly`,
  `Supervision.UnclearedIsShown`).

## Model

| member | source | states |
|---|---|---|
| Codec.BigEndianRoundTrip | internal/logstore/logstore.go:1715-1728 | a number written in n big-endian bytes reads back unchanged |
| Codec.DecodeEncoded | internal/logstore/logstore.go:1715-1775 | decoding an encoded frame gives the frame with its timestamp cut to microseconds and leaves whatever follows untouched |
| Codec.DecodeCut | internal/logstore/logstore.go:1729-1775 | any proper nonempty cut of an encoded frame is torn: never clean, never corrupt, never a frame |
| Codec.SalvageFrames | internal/logstore/logstore.go:1776-1797 | the salvage loop returns the longest decodable prefix and how the stream ends |
| Codec.EncodeFrames | internal/logstore/logstore.go:1798-1814 | the encoding loop concatenates the encodings in order |
| Codec.RoundTrip | internal/logstore/logstore.go:1776-1814 | salvaging an encoded list of frames returns that list and a clean end |
| Codec.SalvageCut | internal/logstore/logstore.go:1776-1814 | salvaging any cut of an encoded list returns exactly the whole frames before the cut, with a clean end if and only if the cut is at a frame boundary |
| Codec.SalvageCanonical | internal/logstore/logstore.go:1776-1797 | whatever bytes are salvaged, the frames are ones the format carries, so re-encoding loses nothing |
| LogReader.LogicalIncreasing | internal/logstore/logstore.go:1862-2025 | the frames of a run in chunk order have strictly increasing sequence numbers, so none appears twice |
| LogReader.Consume | internal/logstore/logstore.go:1879-1956 | reading one stream appends exactly its frames beyond the cursor, in order, within the limit and byte budget, an oversized first frame included; it stops before the end of the stream only at a full page or at a frame that would not fit; only corruption is an error |
| LogReader.NextRow | internal/logdb/logdb.go:348-371 | the row cursor finds the next row whose last sequence is beyond the cursor, or there is none |
| LogReader.ReadRows | internal/logstore/logstore.go:1957-1983 | the archived part of a page is a prefix of the frames after the cursor in the rows that end beyond it, all of them if the page is not full |
| LogReader.ReadBufferFile | internal/logstore/logstore.go:1984-2021 | a buffer file adds exactly its frames beyond everything read before; one the index lets the reader skip adds nothing |
| LogReader.ReadPage | internal/logstore/logstore.go:1862-2025 | in every layout whose chunks are in order, a page is what the records let the reader see up to the first place where a nonempty page may end, is not empty while that is not, and is lossless if the records reach every frame; it respects limit and budget except for a single oversized frame and fails only over corrupted chunks |
| LogReader.OnePage | internal/logstore/logstore.go:1862-2025 | limit, budget, layout and cursor leave only one such page |
| LogReader.LongestExactly | internal/logstore/logstore.go:1905-1946 | a page is the longest one that limit and budget allow if and only if no torn frame before its end announces, in a whole header, a size that would not fit |
| LogReader.ReadAll | internal/logstore/logstore.go:2042-2076 | concatenating successive pages gives exactly the run's frames, for any limits and budgets, even if the layout changes between pages as long as the frames stay |
| LogReader.InScan | internal/logstore/logstore.go:1957-2021 | what the reader sees after a cursor is exactly the frames of the rows that end beyond it and of the files it opens, less those a later row has overtaken |
| LogReader.SeenIsAll | internal/logstore/logstore.go:1957-2021 | if the records reach every frame, what the reader sees after any cursor is exactly the retained frames after it |
| LogReader.LosslessExactly | internal/logstore/logstore.go:1957-2021 | in every layout whose chunks are in order, every page is lossless for all cursors, limits and budgets if and only if each frame is within its chunk's row, or in a file that no consulted index entry cuts short and no later row with frames has overtaken |
| LogReader.UnshownIsLost | internal/logstore/logstore.go:1988-2008 | just before a frame the records do not show, no page the reader may return is lossless |
| Archive.Gather | internal/logstore/archive.go:226-251 | the batch is exactly the listed chunks up to the checkpoint that fit the count and byte limits, each with the row its list entry asks for; it fails if and only if the first listed chunk whose file is gone lies within those limits |
| Archive.RunStore.PutChunks | internal/logdb/logdb.go:189-245 | the upsert stores all rows or none, may commit and still fail, and in both cases the run reads as before |
| Archive.RunStore.RenameMove | internal/logstore/archive.go:119-131 | the rename moves one committed chunk's file and nothing else; the run reads as before |
| Archive.RunStore.PlaceFiles | internal/logstore/archive.go:140-194 | on success every committed file chunk is in the archive directory or stored as a blob instead; other chunks are untouched |
| Archive.RunStore.Commit | internal/logstore/archive.go:252-261 | rows are committed before files move; on success every chunk of the batch is readable without its buffer file |
| Archive.RunStore.UnlinkAll | internal/logstore/archive.go:262-272 | buffer files are removed in order up to the first failure, only for chunks the archive holds; a file that is already gone is no failure |
| Archive.RunStore.WriteIndex | internal/logstore/logstore.go:1098-1137 | the index file becomes the writer's list or stays as it was |
| Archive.RunStore.ArchiveBatch | internal/logstore/archive.go:218-276 | every layout passed through reads like the original; a chunk leaves the list only archived and unlinked; each successful batch with more to do makes progress; a stuck batch fails and changes nothing, and on storage that does not fail a batch succeeds if and only if it is not stuck |
| Archive.RunStore.ArchiveWriter | internal/logstore/archive.go:201-217 | a successful checkpoint leaves nothing sealed at its start on the list, and terminates; it fails if a file it needs is gone from the buffer, which stays so, and on storage that does not fail only then |
| Archive.RunStore.MakeRoom | internal/logstore/archive.go:376-390 | the batch is flushed exactly when it is full or could not take the bytes of the next row, so it never holds more than a batch of chunks, nor more bytes than the limit unless its first chunk alone does |
| Archive.FailedRemovalSticks | internal/logstore/archive.go:252-272 | whatever part of a batch was done, if some chunk of it left the buffer and was not struck off, as after a move and a failed removal of an earlier file, the next batch is stuck |
| Archive.RunStore.SweepFile | internal/logstore/archive.go:367-450 | an indexed chunk is archived verbatim, an unindexed one as its salvaged frames, an undecodable one is set aside, a damaged one is kept until its original is preserved; on storage that does not fail none is kept |
| Archive.RunStore.ArchiveOrphan | internal/logstore/archive.go:318-464 | every layout of the sweep reads like the original; when it succeeds the buffer is gone and the archive alone holds every frame; on storage that does not fail only an invalid index makes it fail; a chunk that does not decode never leaves the buffer before its bytes are in the quarantine |
| Archive.CrashGood | internal/logstore/archive.go:133-139 | a crash in any layout archival passes through keeps the run readable with the same frames |
| Archive.Recover | internal/logstore/archive.go:318-464 | after a crash in any such layout, the restart's sweep leaves the same frames, each once and in order, served from the archive alone if it succeeds, which it does on storage that does not fail |
| Archive.ReadWhileArchiving | internal/logstore/logstore.go:1862-2076 | a reader that pages while the archiver is at any of its steps gets the run's frames, each once, in strictly increasing sequence |
| Growth.SalvageAppend | internal/logstore/logstore.go:1776-1797 | appending bytes to a cleanly ended stream appends exactly what those bytes decode to |
| Growth.AppendKeeps | internal/logstore/logstore.go:1344-1359 | an accepted frame becomes the last frame of the run; the chunks stay in order, the records true if they were, and what the archiver relies on still holds |
| Growth.TornKeeps | internal/logstore/logstore.go:1346-1353 | whatever part of a failed write reaches the file, it adds its frame if all of it did and none otherwise; the layout stays as good as it was |
| Growth.OpenKeeps | internal/logstore/logstore.go:1010-1054 | a new chunk file changes nothing for readers nor for what the archiver relies on |
| Growth.ListKeeps | internal/logstore/logstore.go:1083-1107 | listing a closed chunk under a number of its own, with or without installing the list as the index, keeps the chunks in order and what readers see, and the records true if that number ends the chunk |
| Growth.EvictKeeps | internal/logstore/logstore.go:1329-1337 | evicting a listed chunk, the index left as it is, removes its frames unless the archive holds them, no others, and leaves the layout as good as it was |
| LogRun.WriterProper | internal/logstore/logstore.go:1010-1367 | every writer step, failed stores of any kind included, keeps the chunks in order, every acknowledged frame that was not evicted at the start of its chunk, within its records, listed, and ahead of no archived chunk; only a whole failed store adds another frame |
| LogRun.ArchiverProper | internal/logstore/archive.go:119-464 | so does every archiver, crash and sweep step, between any two writer steps |
| LogRun.EveryLayoutIsProper | internal/logstore/archive.go:201-464 | this holds in every layout of every run of the machine from an empty log; if no failed store left its whole frame, the chunks hold exactly the acknowledged and not evicted frames and the archiver's assumptions hold |
| LogRun.WriterGoesOn | internal/logstore/logstore.go:1010-1097 | in every reachable layout a closed writer can open the next, empty chunk, a writing one can store the next frame, which is then acknowledged, and an open or broken chunk can be closed and is then listed |
| LogRun.OldestCanGo | internal/logstore/logstore.go:1329-1337 | as long as there is a writer it can evict the oldest chunk on its list, file and entry, and nothing else |
| LogReads.AcknowledgedIsSeen | internal/logstore/logstore.go:1862-2025 | for every run, whatever failed, and every cursor: what a reader sees of the acknowledged and not evicted frames is all of them after the cursor, in order |
| LogReads.PageKeeps | internal/logstore/logstore.go:1862-2025 | no page of any run, whatever its limit and budget, passes over an acknowledged frame or is empty while one is left |
| LogReads.EveryPageIsLossless | internal/logstore/logstore.go:1862-2025 | at every moment of a run in which no failed store left its whole frame, every page is lossless |
| LogReads.ReadRun | internal/logstore/logstore.go:2042-2076 | a reader that pages while frames are appended, evicted and archived: what it got of the frames retained at its last page is a beginning of them, and all of them once a page is empty, which takes at most one page more than numbers were used; without eviction and whole failed stores it got nothing else |
| LogReads.NothingAcknowledgedIsLost | internal/logstore/logstore.go:1344-1359 | without eviction a reader from the start sees every acknowledged frame in the order of acknowledgement, whatever failed, and nothing else if no failed store left its whole frame |
| LogFaults.WholeFailureLoses | internal/logstore/logstore.go:1275-1290 | after any run with an acknowledged frame in the current chunk and nothing else listed, a failed store that leaves its whole frame, then listing, archiving and unlinking, reach a layout in which no page before that frame is lossless |
| LogFaults.FirstFailureLoses | internal/logstore/logstore.go:1275-1290 | so does such a store as the first of its chunk, once the next chunk is archived |
| LogFaults.JamExactly | internal/logstore/logstore.go:1329-1337 | no writer step lets a checkpoint go on that waits for a moved file, except evicting that chunk |
| LogFaults.RemovalInVain | internal/logstore/archive.go:252-276 | two chunks are committed, the second one's file is moved, removing the first one's fails: the next batch is stuck with the oldest file still there |
| LogFaults.TornFrameEndsPage | internal/logstore/logstore.go:1926-1930 | a frame torn behind its header, then a reopened chunk with one more frame: a page with room for both whole frames ends after the first |
| Writer.Writer.FinishChunk | internal/logstore/logstore.go:1055-1097 | sealing moves the hot frames onto the list or leaves them accounted; bytes and order of buffered frames stay the same |
| Writer.Writer.Rotate | internal/logstore/logstore.go:1010-1054 | success opens the next number with an empty chunk; failure leaves the current chunk accounted; no frame is lost either way |
| Writer.Writer.IndexAbandonedChunk | internal/logstore/logstore.go:1275-1290 | an abandoned chunk is listed once, with its acknowledged frames and bytes |
| Writer.Writer.ReopenChunk | internal/logstore/logstore.go:1246-1268 | recovery starts a fresh chunk and keeps every accepted frame on the list; while storage does not fail it succeeds |
| Writer.Writer.Evict | internal/logstore/logstore.go:1326-1338 | whole chunks leave oldest first until the frame fits and not one more: the last to leave was still in the way |
| Writer.Writer.MakeRoom | internal/logstore/logstore.go:1319-1338 | the current chunk is sealed so that it can be evicted, the run is marked truncated, and only chunks in the way leave |
| Writer.Writer.StoreInChunk | internal/logstore/logstore.go:1339-1367 | a frame goes to a fresh chunk exactly when it would make a nonempty one longer than the limit |
| Writer.Writer.WriteLocked | internal/logstore/logstore.go:1295-1367 | success stores the frame under the next number, whole unless the run is marked truncated, or refuses it for size and marks the run; a failure accepts nothing; frames are evicted only under drop_old, for a frame that does not fit beside them and fits alone; on storage that does not fail a frame is stored if and only if it fits as things are, or under drop_old fits alone |
| Writer.Writer.Discard | internal/logstore/logstore.go:1193-1202 | discarded output is counted with its header size and marks the run truncated |
| Writer.Writer.RecoverLocked | internal/logstore/logstore.go:1225-1241 | recovery ends degraded capture only after the loss summary was stored, marked as cut; under drop_new it evicts nothing; while storage does not fail it succeeds |
| Writer.Writer.CaptureLocked | internal/logstore/logstore.go:1172-1190 | only a closed writer is an error; otherwise the line is stored as given or the run is marked truncated; a discarded line means degraded capture, which ends with the first line after the retry is due that storage takes; while storage does not fail a line is stored exactly when the overflow policy admits it |
| Writer.Writer.SealForArchive | internal/logstore/logstore.go:994-1008 | the checkpoint bound never includes the chunk being written, and is the one just before it, with no frame left hot |
| Writer.Writer.ArchiveBatch | internal/logstore/archive.go:222-276 | archived chunks leave the list and the buffer count from the front, at most a batch of them, nothing counts as evicted, and while storage does not fail a batch with something to do shortens the list |
| Writer.Writer.Close | internal/logstore/logstore.go:1687-1707 | closing makes one last recovery attempt and seals; without degraded capture no frame is added |
| Writer.Open | internal/logstore/logstore.go:286-320 | a run's log opens with an empty first chunk, or in degraded capture and marked truncated if that chunk cannot be created |
| Writer.Run | internal/logstore/logstore.go:1010-1367 | from either start, after any mix of calls under any faults: buffered bytes equal the listed chunks plus the hot one and respect the cap, the total is what was accepted less what was evicted, numbers and ranges are increasing and disjoint, and an unset truncated flag means the stored output is exactly what callers were told; on storage that does not fail, calls that fit leave the flag unset and every line stored; the frames stored are those the overflow policy picks, and under drop_new none is ever evicted |
| Writer.PolicedStep | internal/logstore/logstore.go:1314-1338 | one call on storage that does not fail keeps the lines stored so far equal to those the policy picks: under drop_new a line that fits beside the ones before it, under drop_old a line that fits alone |
| SealSync.CommittedRowsAreSecured | internal/logstore/archive.go:59-131 | in every interleaving of sealer, sync pass, archiver and eviction, each committed file row whose file was not evicted refers to bytes that are fsynced or pending for the group sync under their current path |
| SealSync.IdleMeansDurable | internal/logstore/logstore.go:1399-1516 | when the group sync has no queue and no pass, every such row is on disk |
| SealSync.MoveArchives | internal/logstore/archive.go:59-131 | an undisturbed move takes the file to the archive directory and commits its row; the new path is queued for the group sync if and only if the old one still was, and otherwise the bytes are on disk |
| SealSync.BlobReplacesFile | internal/logstore/archive.go:140-194 | a chunk stored as a blob, also after a failed rename, loses its file only with the row in place |
| SealSync.FilesStay | internal/logstore/logstore.go:1326-1338 | a chunk file goes if and only if it is evicted from the buffer or unlinked once its bytes are in a row |
| SealSync.RowsStay | internal/logstore/archive.go:252-261 | a row is written or replaced only while its file is in the buffer, and none is ever lost |
| SealSync.RenameKeeps | internal/logstore/archive.go:119-131 | a rename that races the running pass keeps the chunk pending or synced |
| SealSync.PassSyncs | internal/logstore/logstore.go:1458-1516 | crossing a path off after the pass handled it never forgets an unsynced chunk |
| SealSync.RestartExactly | internal/logstore/archive.go:50-58 | across a restart the claim holds if and only if each such row whose chunk was still pending before it is on disk already, and then the new process starts from a state of the kind the claim needs |
| SealSync.PendingThoughSynced | internal/logstore/archive.go:119-131 | a chunk can be on disk and still pending, so that nothing pending is not necessary |
| SealSync.RestartCanForget | internal/logstore/logstore.go:1409-1426 | a restart between a rename and the next pass leaves a committed chunk neither synced nor queued |
| History.StepKeeps | internal/executor/finalizer.go:69-308 | every step of the run and of the writer keeps: each stage handed over is in the row or in the item, and the row is a prefix of the direct path |
| History.DeferredIsDirect | internal/executor/finalizer.go:248-308 | once all stages are handed over and the item is gone, the row equals the one direct writes leave (insert columns, start, end and the end's status), if and only if no failed lookup hid the run's own row; a missing row means another run took the occurrence |
| History.StatusTellsStages | internal/store/store.go:707-746 | under every interleaving and outcome, even one that loses stages, the row keeps its insert columns, holds only the plan's own start and end, and its status is the end's if it has ended, running if it has only started, and pending otherwise |
| History.RowFollowsCommits | internal/store/store.go:649-746 | in any state the row changes exactly as the committed transactions say, whatever was reported |
| History.ReportDecides | internal/executor/executor.go:371-398 | a direct write that was reported as failed is remembered as unstored, and only such a one is |
| History.FirstWriteWins | internal/store/store.go:707-746 | in any state whatever no step changes the start of a row past pending or the status of an ended one |
| History.LostExactly | internal/executor/finalizer.go:251-261 | stages are lost if and only if a lookup fails while the row exists and later stages wait behind it |
| History.RetiredIsWritten | internal/executor/finalizer.go:294-303 | an item is given up only when every stage it holds is in the row, with the status that goes with it |
| History.QuietPassStores | internal/executor/finalizer.go:202-308 | from any reachable state, one pass over a working database stores everything handed over so far, with the status that goes with it |
| History.HiddenRowLosesTheEnd | internal/executor/finalizer.go:251-261 | an insert that committed but reported failure, followed by a failed lookup, discards the running and terminal states |
| QueueStore.Store.EnqueueRun | internal/store/queue.go:66-110 | a run and its row are added together, at the end, if and only if no key is replayed, no run of the definition waits where that excludes another, every limit has room and the id is unused; each refusal has exactly its reason and changes nothing |
| QueueStore.Store.ExpireQueued | internal/store/queue.go:165-204 | up to the limit, the earliest expired runs leave together, ended now as expired; none expired is left below the limit; every other run is as it was |
| QueueStore.Store.EndQueued | internal/store/queue.go:220-244 | a queued run leaves with the given terminal status and the time; any other is untouched and reported |
| QueueStore.Store.DropDefinitionQueued | internal/store/queue.go:249-255 | exactly the queued runs of the definition leave, with the given terminal status and the time |
| QueueStore.Store.DequeueRun | internal/store/queue.go:262-281 | a queued run becomes pending, without an end time, and leaves; any other is untouched and reported |
| QueueStore.Store.QueueHeads | internal/store/queue.go:144-160 | the heads are the oldest row of each definition, oldest first, and a missing head means the window is full of older ones |
| QueueStore.Store.CreateRun | internal/store/store.go:649-657 | an unused id is inserted, an existing one refused |
| QueueStore.Store.StartRun | internal/store/store.go:707-723 | a pending run becomes running and nothing else of it changes; any other is untouched and reported |
| QueueStore.Store.FinishRun | internal/store/store.go:729-746 | a run ends with the given status and time from pending or running, or again with the status it has; any other is untouched and reported |
| QueueStore.Store.Recover | internal/store/store.go:763-770 | after a crash exactly the pending and running runs end, as interrupted and now |
| QueueStore.Store.DeleteRuns | internal/store/store.go:1193-1207 | only ended runs without a live replay key are deleted |
| QueueStore.Perform | internal/store/queue.go:66-281 | after any sequence of transactions a queue row exists exactly for queued runs, every limit holds, every run's statuses only advance, every terminal run has an end time, and an insert under a new id took place |
| QueueStore.MarkStamped | internal/store/store.go:734-767 | writing a terminal status writes its time, so terminal runs keep having one |
| QueueStore.LegalLife | internal/store/store.go:707-770 | a run that left the queue never returns and a terminal status never changes |
| Drain.UndercountExactly | internal/executor/queue.go:100-127 | the mirror is below the row count if and only if uncounted additions outnumber uncounted removals |
| Drain.AllCounted | internal/executor/queue.go:109-127 | only an enqueue that committed but reported failure goes uncounted |
| Drain.OvertakesExactly | internal/executor/executor.go:289-300 | with rows queued and a slot free, a queueable trigger takes the slot if and only if additions the mirror was never told of hide every row; otherwise it joins the queue |
| Drain.NobodyIsOvertaken | internal/executor/executor.go:289-300 | so if every enqueue was acknowledged, a queueable trigger that gets a slot found the queue empty |
| Drain.IdlesExactly | internal/executor/queue.go:225-253 | with rows queued, the drain goes idle as empty, at its first look at the mirror or at the one after expiry, if and only if they are hidden or the one new row is about to be counted and signalled |
| Drain.IdleMeansEmpty | internal/executor/queue.go:225-246 | so if every enqueue was acknowledged, it goes idle only with no rows or with that signal on its way |
| Drain.RowsFollowCommits | internal/executor/queue.go:221-304 | in every step the table changes exactly by the rows of transactions that committed, whatever was reported |
| Drain.StartedWasQueued | internal/executor/queue.go:249-304 | the drain hands its slot to a run only for a row it has just taken out of the table |
| Drain.BrokenOffPass | internal/executor/queue.go:249-304 | a pass broken off by shutdown or an error gives back its slot and the lock |
| Drain.PassStarts | internal/executor/queue.go:221-304 | a pass over a working database with a free slot and a row left after expiry starts it, and the mirror counts out the expired rows and this one |
| Drain.PassRepairs | internal/executor/queue.go:278-286 | a pass that finds no row gives everything back and makes the mirror exact |
| Drain.QueuedIsStarted | internal/executor/queue.go:221-304 | in every run without an unacknowledged enqueue, a pass with a free slot and the lock free starts a queued row |
| Drain.StepKeeps | internal/executor/queue.go:225-304 | every step of trigger, drain, stop, deletion and run end keeps the mirror, slot and lock accounts |
| Drain.UnsureEnqueueIsOvertaken | internal/executor/queue.go:109-127 | after such an enqueue the next trigger starts ahead of the queued run |
| Slots.LocalBalance | internal/executor/executor.go:402-447 | every step of trigger, launch, drain step and run keeps a taken slot held, released, handed on or lost, exactly one of them, with the release flag as the code keeps it |
| Slots.PanicBalance | internal/executor/executor.go:307-361 | so does unwinding from a panic at any call; it loses the slot exactly in a launch made by a trigger, whose flag is already cleared |
| Slots.SlotsAreConserved | internal/executor/executor.go:289-364 | in every interleaving the slots taken are those held by one thread each plus the lost ones, running jobs and lost slots together never exceed the capacity, and the lost ones are exactly the panics inside a trigger's launch |
| Slots.EveryPathSettles | internal/executor/queue.go:249-304 | a finished trigger, drain step or run released, handed on or lost each slot it had exactly once |
| Slots.SlotsComeBack | internal/executor/executor.go:534-561 | when every thread has finished, exactly the lost slots are still taken |
| Slots.LaunchLeadsToRun | internal/executor/executor.go:402-447 | in every interleaving a launch that meets no panic starts a run that inherits the slot if and only if the daemon is not closing when it registers |
| Slots.StartLeadsToRun | internal/executor/executor.go:289-364 | so does a trigger or drain step that finds a slot and stores its row, with its fourth step |
| Slots.NoRunAfterClose | internal/executor/executor.go:420-446 | once the daemon closes, no further run is ever started |
| Slots.RefusedIsEnded | internal/executor/executor.go:424-441 | a launch refused by the closing daemon ends the run in the database if and only if its row is stored or waits to be |
| Slots.LaunchPanicStrands | internal/executor/executor.go:361-362 | a panic while a trigger's launch opens the run's log leaves the only slot taken with nobody holding it |
| Slots.StrandedForGood | internal/executor/executor.go:361-362 | from then on no job ever runs, whatever happens |
| Fairness.NextItem | internal/executor/queue.go:326-339 | the choice is the oldest of the least recently served heads: every other head was served later, or equally long ago and is younger |
| Fairness.NoSecondTurn | internal/executor/queue.go:275-304 | while a definition's head is in the window and the served map is not cleared, no other definition is served twice before it |
| Fairness.MemoryIsBounded | internal/executor/queue.go:287-297 | the record of served definitions stays bounded after each completed service, and forgets only to stay so |
| Fairness.ServedIsOldest | internal/store/queue.go:142-160 | the item served is the oldest of its definition |
| Fairness.WaitIsBounded | internal/executor/queue.go:324-339 | while a head is outside the window each service removes an older row, so it enters after at most as many services as older rows |
| Fairness.WaitIsPosition | internal/executor/queue.go:324-339 | so the row at position k waits outside the window for at most k services |
| Schedule.RepeatIsSecond | internal/scheduler/scheduler.go:584-602 | of two instants on one wall-clock minute, the later whole one lies in the second copy of a repeated interval |
| Schedule.CandidateSettled | internal/scheduler/scheduler.go:541-564 | one suppression round is enough: the candidate is a later match outside every second copy |
| Schedule.CandidateLeast | internal/scheduler/scheduler.go:541-564 | nothing but second copies is skipped before the candidate |
| Schedule.ForwardTransition | internal/scheduler/scheduler.go:604-625 | the walk over zone pieces finds the first forward transition in the range with its offsets, or there is none |
| Schedule.FirstForwardMeans | internal/scheduler/scheduler.go:604-625 | the transition found is forward, in range, and no later than any other forward one |
| Schedule.SkippedExactly | internal/scheduler/scheduler.go:566-577 | a wall-clock reading is shown by no instant if and only if some forward transition jumps over it |
| Schedule.GapMatchesExactly | internal/scheduler/scheduler.go:566-577 | a transition counts as an occurrence if and only if it makes the clock skip a matching minute |
| Schedule.SkippedMatchOccurs | internal/scheduler/scheduler.go:566-577 | every matching minute that the clock skips gives an occurrence at the transition that skips it |
| Schedule.NextFire | internal/scheduler/scheduler.go:526-578 | the method with its four-round loop computes the specified fire |
| Schedule.FireOccurs | internal/scheduler/scheduler.go:526-578 | a fire is a later occurrence on a whole minute, never in a second copy |
| Schedule.FireIsLeast | internal/scheduler/scheduler.go:566-577 | the fire is the least later occurrence if and only if no matching gap is hidden behind an unmatched first one |
| Schedule.FiresAreDistinct | internal/scheduler/scheduler.go:515-625 | iterated fires rise strictly, avoid second copies, and never share a wall-clock minute |
| Schedule.GuardIsRedundant | internal/scheduler/scheduler.go:515-524 | the check against the last fire's wall minute never changes the result |
| Overdue.HidesExactly | internal/scheduler/scheduler.go:566-577 | the fire after a cursor passes over an occurrence up to now if and only if the first gap before its candidate does not match and a later one up to now does |
| Overdue.VisitsExactly | internal/scheduler/scheduler.go:460-477 | enumeration from a cursor meets every later occurrence up to now if and only if no cursor it visits hides one |
| Overdue.LatestFire | internal/scheduler/scheduler.go:484-513 | unless cancelled the growing-window search returns what the specification says, fails only without a next fire or out of steps, and its result is the latest occurrence up to now if and only if it hides none |
| Overdue.CountFires | internal/scheduler/scheduler.go:460-477 | the bounded count is the number of fires enumeration visits when flagged exact, and the bound, which they exceed, when not |
| Overdue.CountExactly | internal/scheduler/scheduler.go:460-477 | that number never exceeds the occurrences missed, and equals it if and only if no cursor visited hides one |
| Overdue.OverdueCron | internal/scheduler/scheduler.go:427-478 | the report names the first missed fire; its latest is right if and only if it hides no occurrence up to now, its count when flagged exact is right if and only if no cursor visited hides one, no count is too large, and reporting nothing is right if and only if the base hides nothing before now; only a cancelled caller is told so, and gets no answer |
| Overdue.EnumerationAgrees | internal/scheduler/scheduler.go:484-513 | backward search and forward enumeration differ only where the earlier result hides an occurrence, and both are right if and only if neither does |
| Overdue.CompleteCountMeansLatest | internal/scheduler/scheduler.go:484-513 | if counting forward from the base misses nothing, the backward search finds the true latest |
| Overdue.HiddenGapIsMiscounted | internal/scheduler/scheduler.go:427-478 | two gaps, a sparse schedule, two missed fires: unless cancelled the report is first, second as latest, count one, flagged exact |
| Overdue.NextInterval | internal/scheduler/scheduler.go:527-540 | the next interval fire is the least later multiple, or the range error exactly when the period count saturates |
| Overdue.IntervalExactly | internal/scheduler/scheduler.go:436-447 | the closed form gives the true latest fire and count if and only if neither the difference nor the count saturates |
| Overdue.IntervalCountsAll | internal/scheduler/scheduler.go:436-447 | the counted fires are exactly the multiples in the missed range |
| Overdue.LongDowntimeIsUndercounted | internal/scheduler/scheduler.go:436-447 | beyond the largest duration the count is short although flagged exact |
| Supervision.EpochStep | internal/supervisor/exhaustion.go:18-62 | a reset raises the worker's epoch above every token drawn before, and nothing else changes it |
| Supervision.NothingFromBefore | internal/supervisor/exhaustion.go:68-164 | from any stored records of an earlier process: after a successful reset, whatever is stored or retires a loop belongs to a lifecycle that began after it, and so does whatever a status request shows unless it is a left over record |
| Supervision.StaleExactly | internal/supervisor/exhaustion.go:147-164 | a status request that reads the database, then memory, shows a record of another lifecycle than the current one if and only if memory has none and the stored one was left over or the worker was reset in between |
| Supervision.LeftOverExactly | internal/supervisor/exhaustion.go:33-54 | a record becomes left over exactly when a full reset cannot clear it, and stays so until it is written or removed |
| Supervision.UnclearedIsShown | internal/supervisor/exhaustion.go:147-164 | a worker exhausts its restarts, the reload that follows cannot clear the record, and a request shows the old lifecycle's record |
| Supervision.OneLoopPerWorker | internal/supervisor/supervisor.go:118-178 | in every reachable state each worker has at most one supervision loop, through reloads, starts and waiting restarts |
| Supervision.StepKeeps | internal/supervisor/supervisor.go:333-516 | every lifecycle and loop step keeps the tokens, the records and the single loop per worker |
| Supervision.FailureExactly | internal/supervisor/exhaustion.go:68-124 | in every run, a loop that used up its restarts and is not stopped may store that if and only if no reset of the worker succeeded since; otherwise it goes back to work and nothing else changes |
| Supervision.RetireExactly | internal/supervisor/supervisor.go:333-392 | in every run, a loop whose record was stored ends if no reset of the worker succeeded since, and goes back to work otherwise |
| Supervision.RestartExactly | internal/supervisor/supervisor.go:468-516 | in every run, a waiting restart whose old loop has ended leads to a loop of the worker with its next step if and only if no reset of the worker succeeded since it was stored; otherwise it is dropped and nothing is launched |
| Supervision.RestartWaits | internal/supervisor/supervisor.go:486-504 | a stored restart is there to be run until it is |
| Supervision.CommandLeadsOn | internal/supervisor/supervisor.go:431-516 | in every run, after a successful reset a restart is stored, and a start leaves the worker with a loop or waits for its idle loop to end |
| Supervision.WaitLeadsOn | internal/supervisor/supervisor.go:447-462 | a start that waits for an idle loop launches the new one when the old one is gone, and waits on otherwise |
| Supervision.ReloadLeadsOn | internal/supervisor/supervisor.go:118-178 | in every run, whether or not the records could be cleared, a reload launches one loop for each wanted worker it did not keep, once the loops it cancelled are gone |
| Retention.Page | internal/store/store.go:1140-1183 | a page is the newest eligible runs, in order, up to the limit |
| Retention.Sweep | internal/daemon/daemon.go:757-812 | for any page size and any deletions that succeed, only runs eligible at the start are selected, newest first, all of them if the set is stable, and never the newest |
| Retention.EndedIsStable | internal/store/store.go:1140-1183 | runs that all have an end time form a stable set |
| Retention.SweepDefinition | internal/daemon/daemon.go:757-812 | over the terminal runs the store's transactions leave, for any page size and any deletions that succeed, exactly the runs eligible at the start are selected and the newest stays |
| Retention.SelectedExactly | internal/store/store.go:1140-1183 | a stored run is eligible if and only if it is a terminal run of the definition without a live replay key, some such run ended later (or with it, under a higher id), and at least keep of them did or it ended before the age limit |
| Prune.DoomedIsShortest | internal/logdb/disk.go:60-71 | the deleted chunks are the shortest oldest-first list of unprotected ones that frees enough, or all of them |
| Prune.ScanBatch | internal/logdb/disk.go:86-113 | one batch finds exactly the doomed rows of its page and the cursor behind the last row seen |
| Prune.Compose | internal/logdb/disk.go:72-133 | batches compose, so batch boundaries do not matter |
| Prune.ChunkTable.PruneOldest | internal/logdb/disk.go:72-146 | the batched deletion leaves exactly the survivors of the reference and frees what it reports; a failure leaves a committed prefix, and only a failed transaction makes it fail |
| Prune.TailStart | internal/logdb/disk.go:152-171 | the tail is the newest chunks that are just enough, or all the run has |
| Prune.TailIsEnough | internal/logstore/budget.go:292-326 | under the guard a running run keeps its measured tail: at least the tail size, or everything |
| Prune.RestIsReclaimed | internal/logstore/budget.go:292-326 | beyond owned runs and measured tails a chunk survives only if enough was freed without it |
| Metrics.Search | internal/store/store.go:848-853 | the binary search finds the first sample not before an instant |
| Metrics.AddInterval | internal/store/store.go:851-858 | bumping two differences makes the prefix sums count one more interval |
| Metrics.Gauge | internal/store/store.go:958-964 | prefix sums of the difference array give the number of intervals containing each sample |
| Metrics.Gauges | internal/store/store.go:840-964 | per bucket, the gauges are the numbers of runs queued and active at its sample instant |
| Metrics.Ranks | internal/store/store.go:1069-1074 | the ranks are the smaller of the last position and half the count, and of the last position and 95 hundredths of the count, both rounded down |
| Metrics.FindPercentiles | internal/store/store.go:965-1017 | one pass over the globally sorted samples gives each job's, bucket's and the overall percentiles as the elements at their ranks in that group's own sorted list |
| Metrics.OverallIsJobs | internal/store/store.go:965-1000 | the overall list has exactly as many samples as the lists of all jobs together |

## Left out

- HTTP interface, command line, web pages, installation and process one duties: plumbing around the modelled cores.
- Process spawning, signals, users, environment and secrets: a run is an abstract process that ends.
- Configuration parsing, alerts, diagnostics counters, read gates and shutdown joins: field-by-field or easy.
- Power loss, and chunks corrupted inside: the source promises only best effort; corruption appears as a read error and as chunks that are kept or copied to the quarantine.
- Archive.RunStore.ArchiveOrphan: success means that the buffer was swept; the error that then only reports chunks set aside, and moving a buffer that keeps failing, are not modelled.
- Archive rows deleted by retention and archive files they leave behind (`sweepRunFiles`), and the short-run batch path: they only remove what no row refers to or repeat the modelled commit order.
- Archive.RunStore.ArchiveWriter: no writer step happens between its batches; LogRun.EveryLayoutIsProper and LogReads.ReadRun cover writer steps between any two archiver steps, without the loop.
- LogRun.EveryLayoutIsProper: the empty file that exists just before a rotation switches to it is not an event of its own.
- Slots.SlotsAreConserved: the admission lock and what a trigger or drain step decides are free choices here; Drain.dfy has them.
- Writer.Run: the fsync of the hot chunk and the two durability modes are not modelled; SealSync covers sealed chunks.
- SealSync.CommittedRowsAreSecured: fsync failures and abandoned chunks are excluded, as the source excludes them.
- History.DeferredIsDirect: history dropped because the deferral budget was full or the daemon was closing is excluded; a second completion after a panic inside the completion callback is not modelled.
- Drain.IdleMeansEmpty: wake-up signals and timers are not modelled, only what the loop knows when it goes to sleep.
- Overdue.OverdueCron: instants are whole seconds, so sub-second cursors are rounded down.
- Schedule.NextFire: zones whose pieces are shorter than 64 hours or whose offsets exceed 16 hours are not covered.
- Retention.SweepDefinition: terminal runs have an end time because every statement that writes a terminal status writes one (store.go:734 and 767, queue.go:197, 226 and 250) and every row inserted as terminal carries one (executor.go:460, 503 and 519); a database edited by hand is not covered.
- Retention.Sweep: the clock and the set of new runs are fixed during the sweep.
- Metrics.FindPercentiles: the sort itself is taken as given, and ranks use exact rather than floating-point products.
- Supervision.OneLoopPerWorker: holds, backoff delays and process outcomes are left to the environment.
