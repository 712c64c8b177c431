# Verification of the transfer engine

A Dafny model of a desktop S3 client's transfer engine and of the stateful services around it, with
proofs of what they promise. `dafny verify dfyconfig.toml` checks everything.

The code that works step by step is modelled twice. A specification gives it as a state machine over
values: each step is one database call, one critical section, one request or one write, and runs may
interleave, fail, be killed and start again at any of them. A class with the same fields and methods as the
source is then proved to take exactly those steps. The theorems are about all runs of the state machine.

| files | what they model |
|---|---|
| QueueModel, QueueInvariants, QueueTheorems, QueueStaleness, QueueResults, TransferService | the transfer queue: dispatch in two steps, task goroutines, pause, resume, cancel, retry, recovery; what stale snapshots do; what a transfer's end makes of its row |
| PartSizes, Slices | part sizes in int64 arithmetic; how an object is cut into segments and parts |
| RangeDownload | the resumable range download over the set of recorded offsets |
| Sidecar, TornSidecar, TornInARow | the text of the progress sidecar, and what torn writes do to it |
| SidecarRuns, TornResume, RangeDownloader | the range download over that text, its runs, and its file |
| MultipartUpload, UploadAnswers, Uploader | the resumable multipart upload against a store with the S3 limits, and when it returns nil |
| CrossCopy, CrossCopyTask | the move between two connections built from a download and an upload |
| CircuitBreaker, Retry, RetrySequences, RetryLoop | the per-host breaker and the retry loop that drives it |
| Rekeying, SecretServices | master password, re-encryption of stored secrets, unlocking, saving and importing profiles |
| BulkMove, BulkResults, BulkOperation | bulk copy and move by eight workers, and what their counters say |
| ConnectionManager, StringOrder | the cache of S3 clients and the profile fingerprint it is keyed by |
| Listing, ListCache | the folder listing, its cache and its sorting |
| Objects | bytes and options |

## Where the code does less than its comments say

Each of these is a theorem here: the condition under which the code does meet the promise is proved for
all inputs, and where it fails there is a concrete run.

- internal/transfer/range_download.go:188-192 says a sidecar that could not be removed never risks data.
  In a cross-connection move it does: the staging file is removed, the source could not be deleted, the
  retry finds every offset recorded, downloads nothing into a new file of zeros, uploads it over the good
  copy and deletes the source (`CrossCopy.RepeatLoses`).
- internal/transfer/range_download.go:90-93 says a torn sidecar line only costs a repeated segment. The
  digits left of a torn offset, alone or glued to what is written next, can spell another segment's offset,
  which is then skipped. Resume is right exactly when the plan is harmless (`TornResume.ResumeIsSafeIffHarmless`,
  `TornResume.HarmlessIff`): with at most ten segments while no two torn writes come in a row; and with torn
  writes in any order, in one run or over many, when no planned offset is spelled by leading digits of the
  others. Eight segments of 8 MiB already fail that (`TornInARow.SixTearsSpellAnOffset`). In a move the wrong
  file is uploaded and the source deleted (`CrossCopy.MisreadLoses`).
- So, with one part size throughout, a move that can get past its upload at all never loses the object exactly
  when neither can happen: no torn line can mislead its download; and no sidecar may stay, or the object is
  empty, or it is above 5 MiB and no run is started from a copy of the task older than its UploadId
  (`CrossCopy.OneSizeHazard`).
- SetPartSizeOverrideMB may change the size at any time, between the two phases of one move included. Download
  resume is right exactly when the segment size never grows from run to run
  (`RangeDownload.ResumeIsSafeIffSegmentsNeverGrow`); upload resume exactly when every run that stays within
  10000 parts cuts the file like the runs before it (`MultipartUpload.UploadIsSafeIffSameSizes`); and a move
  exactly when neither happens before a run that can get past its upload, nor the hazards above
  (`CrossCopy.NeverLosesIffNoHazard`).
- internal/transfer/cross_connection_copy.go:101-105 offers RetryTask after a failed deletion of the source.
  For an object above 5 MiB the row then keeps an UploadId the server has forgotten
  (`CrossCopy.FinishedMeansForgotten`), and a run can return nil exactly when the object goes out in one
  request, or fits into 10000 parts and its UploadId is new or still known (`MultipartUpload.CanFinishIff`).
- internal/transfer/scheduler.go:56-61 calls the already-running test unreachable. It is reached
  (`QueueStaleness.AlreadyRunningIsReached`), exactly when a registered task's row was put back by a resume or
  retry, or its goroutine has not run yet and no pause or cancel wrote its pending row
  (`QueueStaleness.RegisteredShownPendingIff`).
- A dispatch can start a task that was paused after its snapshot was read
  (`QueueStaleness.StaleSnapshotStartsPausedTask`). It starts pending rows only exactly when none of the rows it
  starts was written in between, or it was put back since (`QueueStaleness.StartsOnlyPendingIff`).
- app.go:263-274 dispatches before RecoverOrphanedTasks, which can then take a live transfer for an orphan
  (`QueueStaleness.RecoveryAfterDispatchHitsLiveTask`): exactly when some goroutine has marked its row running
  and not yet written its result; otherwise it returns exactly the crash orphans
  (`QueueStaleness.LateRecoveryIsRightIff`). Either way the queue's invariant holds from the recovery on, so
  every theorem about runs covers this start too (`QueueStaleness.LateRecoveryStartsRun`).
- internal/s3client/circuitbreaker.go:188-193 says a failed trial reopens the breaker. Under WithRetry the
  trial's second attempt is refused by the breaker the trial itself holds, and nothing is recorded; the same
  goes for a trial that is cancelled or ends in an uncounted error. The host then stays locked out for as
  long as nothing else records an outcome for it (`RetrySequences.TrialOperation`,
  `RetrySequences.LockedOutForever`).
- A profile's fingerprint separates fields by NUL characters that the fields are not checked for, so an edit
  that trades a NUL between two of them returns the old clients (`ConnectionManager.UncleanEditIsMissed`). A
  profile without such characters has its fingerprint to itself, among all profiles, exactly when it has no
  custom headers (`ConnectionManager.CleanIsAloneIffNoHeaders`).
- A profile with a blank secret, as every imported one has at first, makes setting and removing the master
  password fail (`Rekeying.RekeyingSucceedsIff`). A SaveProfile overtaken by a change of the key stores a
  secret nobody can read (`Rekeying.LateWriteIsSafeIffSameKey`).
- A bulk move loses an object exactly when two requested keys clash (`BulkMove.NeverLosesIffNoClash`). Its
  progress events can show more failures than completions (`BulkMove.FailureIsCountedFirst`), but only while
  a worker is between its two updates (`BulkMove.CountersAreRight`).
- internal/transfer/partsize.go:111-114 promises at most 10000 parts; the sums behind it overflow for
  lengths within 128 MiB of the largest int64 (`PartSizes.PartSizeIsSound`, `PartSizes.PartCountIsSound`).

## Model

| member | source | states |
|---|---|---|
| `QueueInvariants.StepKeepsInv` | internal/transfer/scheduler.go:37-67 | every step of every interleaving keeps: one registered goroutine per task, a live goroutine behind every running row, no lost wake-up, and snapshots of existing ids |
| `QueueInvariants.EveryRunKeepsInv` | internal/transfer/task.go:142-155 | those hold in every state of every run from a started process, restarts included |
| `QueueInvariants.AdmitLoopExhausts` | internal/transfer/scheduler.go:47-66 | if the admission loop leaves a slot free, every pending task of its snapshot is running |
| `QueueTheorems.WaitingMeansFull` | internal/transfer/scheduler.go:37-67 | when no dispatch is owed or in flight, a pending task that is not running means every slot is taken |
| `QueueTheorems.OneLiveGoroutine` | internal/transfer/task.go:114-127 | no two live goroutines run one task id, stale snapshots included, and a row marked running has a live goroutine |
| `QueueTheorems.GrowthStaysWithinLimit` | internal/transfer/service.go:207-217 | the running count grows only by an admission that ends within the limit, so a lowered limit never lets it grow while above |
| `QueueTheorems.AdmitStartsFirstStartable` | internal/transfer/scheduler.go:47-66 | one dispatch starts exactly the first free-slot-many startable rows of its snapshot, in that order, and nothing else |
| `QueueTheorems.NoPriorityInversion` | internal/storage/transfer_queue_repository.go:77-107 | a startable task left out never has a smaller priority number than a started one, nor, at the same number, was it created before it |
| `QueueTheorems.HistoryOnlyGrows` | internal/storage/transfer_queue_repository.go:194-236 | history rows are never rewritten in any run, and ids are never reused |
| `QueueTheorems.TasksAreConserved` | internal/transfer/service.go:316-330 | a created id is at every later moment either queued or archived exactly once, never returns, and is archived only as completed or cancelled |
| `QueueTheorems.RecoveredIdsAreOrphans` | internal/transfer/service.go:1132-1153 | recovery returns exactly the ids of the rows marked running, each once |
| `QueueTheorems.ResumeAllTouchesOnlyIds` | internal/transfer/service.go:1168-1178 | auto-resume changes only the recovered rows, and of those only the paused ones |
| `QueueTheorems.RecoveryTouchesOnlyOrphans` | internal/transfer/service.go:1132-1178 | recovery and auto-resume together put exactly the crash-orphaned rows back to pending and leave every other row as it was |
| `QueueStaleness.StepOnPending` | internal/transfer/service.go:881-915 | exactly the pause write, the archive and a goroutine's two writes end a row's being pending, and exactly a resume or retry write restores it |
| `QueueStaleness.PendingIff` | internal/transfer/scheduler.go:37-44 | over any stretch of any run a row is pending at its end exactly when the last of those writes put it back, or there was none and it was pending before |
| `QueueStaleness.StartsOnlyPendingIff` | internal/transfer/scheduler.go:37-67 | a dispatch starts only rows that are pending when they are started exactly when none of them was written in between without a resume or retry after |
| `QueueStaleness.RegisteredShownPendingIff` | internal/transfer/scheduler.go:56-63 | a snapshot shows a registered task as pending exactly when a resume or retry put its row back, or its row was pending, its goroutine has not run yet and no pause or cancel wrote the row |
| `QueueStaleness.AlreadyRunningIsReached` | internal/transfer/scheduler.go:56-61 | such a state is reachable: a snapshot shows a task as pending that is already running |
| `QueueStaleness.StaleSnapshotStartsPausedTask` | internal/transfer/scheduler.go:37-65 | a reachable state in which a dispatch starts a row that has been paused meanwhile |
| `QueueStaleness.EveryBootKeepsInv` | app.go:259-274 | from the start as app.go makes it, without recovery, orphaned rows are never started, and every other running row belongs to a live goroutine |
| `QueueStaleness.LateRecoveryIsRightIff` | app.go:259-279 | a recovery after any steps of that start returns the orphans and the rows goroutines hold; so it returns exactly the orphans, and takes no live task for one, exactly when no goroutine has marked its row and not yet written its result |
| `QueueInvariants.LateRecoveryRestoresInv` | app.go:263-279 | a recovery that comes after dispatches leaves the whole invariant, whatever it took for an orphan |
| `QueueStaleness.LateRecoveryStartsRun` | app.go:259-279 | what follows such a recovery is a run, so all theorems about runs hold of it |
| `QueueStaleness.RecoveryAfterDispatchHitsLiveTask` | app.go:259-279 | from one waiting row and no orphan the recovery can find a live transfer |
| `Transfers.ReachedIsSound` | internal/transfer/task.go:142-155 | every state the service's methods can lead to satisfies the queue's invariant, and every created id is queued or archived exactly once |
| `QueueResults.ResultIsWritten` | internal/transfer/task.go:388-447 | whatever happens in between, a goroutine's last write is the result of how its transfer came back and of the intent it found: nil archives the row as completed, a cancellation archives it as cancelled when the user asked for that and else leaves it paused, any other error leaves it failed |
| `QueueResults.SignalIsStored` | internal/transfer/service.go:873-879 | a pause or cancel of a running task reaches exactly the goroutine that holds its slot, with that intent |
| `QueueResults.CancelledIsArchived` | internal/transfer/service.go:935-945 | a running transfer the user cancelled, and that stops for it, is archived as cancelled, whatever else happens until its write |
| `QueueResults.PausedIsKept` | internal/transfer/service.go:869-879 | and one the user paused waits as paused |
| `Transfers.TransferService.ArchiveTask` | internal/storage/transfer_queue_repository.go:194-236 | the history row and the deletion are kept together, or the tables stay as they were when the row is gone |
| `Transfers.TransferService.QueueTask` | internal/transfer/service.go:388-395 | after any calls the new id was never queued or archived before, its row is pending with the given type, priority and time, and a dispatch that will see it is coming |
| `Transfers.TransferService.BatchCreateRow` | internal/transfer/service.go:744-750 | from the first row of a batch on, a dispatch that will see its rows is coming, whatever happens before the batch ends |
| `Transfers.TransferService.BatchEnd` | internal/transfer/service.go:753-759 | a batch that created a row leaves no waiting task without a coming dispatch; an empty one is an error |
| `Transfers.TransferService.SetMaxConcurrentTasks` | internal/transfer/service.go:207-217 | the limit is the given one, or 1 for less, a lowered one stops nothing that runs, and every waiting task will be looked at again |
| `Transfers.TransferService.ReadQueue` | internal/transfer/scheduler.go:37-42 | the read of an owed dispatch lists every waiting task, and keeps the service's run sound |
| `Transfers.TransferService.AdmitTasks` | internal/transfer/scheduler.go:44-66 | after any calls the loop starts exactly the first free-slot-many startable rows of its snapshot, no task twice, each with a fresh goroutine nobody has signalled, and grows the running set only within the limit |
| `Transfers.TransferService.MarkTaskRunning` | internal/transfer/task.go:153-155 | from this write on the task is live, and its row, if it still exists, is marked running |
| `Transfers.TransferService.HandleTaskResult` | internal/transfer/task.go:388-447 | after any calls since the transfer came back, the tables change as its outcome and the intent at the decision say, and in no other way |
| `Transfers.TransferService.EndTask` | internal/transfer/task.go:388-447 | a task's end from its transfer's return on, undisturbed: the tables get its result, and its slot is free |
| `Transfers.TransferService.FinishTask` | internal/transfer/task.go:143-151 | the slot is free, and every waiting task has a dispatch coming that will see it |
| `Transfers.TransferService.PauseWriteRow` | internal/transfer/service.go:890 | the row, if it still exists, is paused, and the service stays sound although it may have been written since it was read |
| `Transfers.TransferService.ResumeWriteRow` | internal/transfer/service.go:908-914 | the row, if it still exists, is pending, and a dispatch that will see it is coming |
| `Transfers.TransferService.RetryWriteRow` | internal/transfer/service.go:1067-1073 | the row, if it still exists, is pending, and a dispatch that will see it is coming |
| `Transfers.TransferService.CancelArchiveRow` | internal/transfer/service.go:959-961 | an existing row leaves the queue and is in the history exactly once; otherwise nothing changes |
| `Transfers.TransferService.PauseTask` | internal/transfer/service.go:859-891 | undisturbed, it succeeds exactly for an existing task that is no archive download and is running or pending; a running one is told, a pending one is paused, and nothing else changes |
| `Transfers.TransferService.ResumeTask` | internal/transfer/service.go:898-915 | undisturbed, exactly a paused task waits again, with a dispatch coming |
| `Transfers.TransferService.CancelTask` | internal/transfer/service.go:934-962 | undisturbed, a running task is told, one that is pending, paused or failed is archived as cancelled, and any other is refused |
| `Transfers.TransferService.RetryTask` | internal/transfer/service.go:1057-1074 | undisturbed, exactly a failed task waits again, with a dispatch coming |
| `Transfers.TransferService.RecoverOrphanedTasks` | internal/transfer/service.go:1132-1153 | every running row becomes paused, and their ids are returned in snapshot order |
| `Transfers.TransferService.StartUp` | internal/transfer/service.go:1132-1153 | a start that recovers before it applies the limit begins a sound run, whatever consistent tables a killed process left |
| `Transfers.TransferService.AutoResumeIfEnabled` | internal/transfer/service.go:1168-1178 | resumes exactly the given ids that are paused, or nothing when disabled, by calls that keep the service sound |
| `PartSizes.CeilDivIsCeiling` | internal/transfer/partsize.go:136-138 | within int64, ceilDiv is the ceiling and the count covers the total exactly |
| `PartSizes.ClampedMeansHuge` | internal/transfer/partsize.go:107-114 | the clamp fires exactly above 10000 parts of 128 MiB, up to the point of overflow |
| `PartSizes.ClampIsLeast` | internal/transfer/partsize.go:111-114 | a clamped size is the least multiple of 1 MiB that needs at most 10000 parts |
| `PartSizes.PartSizeIsSound` | internal/transfer/partsize.go:93-117 | every size is a multiple of 1 MiB and at least 5 MiB, and suffices for 10000 parts exactly below the overflow bound |
| `PartSizes.PartCountIsSound` | internal/transfer/partsize.go:127-138 | the count computed with that size is right and between 1 and 10000 exactly when its sum does not overflow |
| `PartSizes.PartSizeIsMonotone` | internal/transfer/partsize.go:93-117 | a larger file never gets a smaller part size |
| `PartSizes.PartCountsByRange` | internal/transfer/partsize.go:93-106 | the table keeps the number of parts in proportion: at most 20 below 100 MiB, 7 to 64 up to 1 GiB, 16 to 160 up to 10 GiB, then at least 80 |
| `PartSizes.OverrideIsNearest` | internal/transfer/service.go:232-245 | a configured size is used as the nearest whole MiB from 5 to 128, and none means the adaptive size |
| `Slices.LayoutTiles` | internal/transfer/range_download.go:348-374 | the segments are non-empty, adjoin and cover the object exactly |
| `Slices.EachByteOnce` | internal/transfer/multipart_upload.go:71-101 | every byte lies in exactly one slice |
| `Slices.SliceEndsInside` | internal/transfer/multipart_upload.go:96-100 | every slice lies inside the file |
| `Slices.RemainingIsTheRest` | internal/transfer/range_download.go:348-374 | the plan holds exactly the segments whose offset is not recorded |
| `Slices.RemainingAscends` | internal/transfer/range_download.go:348-374 | dropping recorded segments keeps the ascending order |
| `Slices.PlanDownloadSegments` | internal/transfer/range_download.go:348-374 | the loop builds the layout without the recorded segments |
| `Slices.PartsToUpload` | internal/transfer/multipart_upload.go:71-101 | the loop sends exactly the parts not listed, each its own slice of the same layout |
| `Slices.PartsToCopy` | internal/filemanager/copylarge.go:173-184 | the server-side copy walks the whole layout |
| `RangeDownload.CanStopAnywhere` | internal/transfer/range_download.go:293-316 | every prefix of a run is a run, so a run may be interrupted at any event |
| `RangeDownload.StepKeepsRun` | internal/transfer/range_download.go:396-451 | every chunk, failed attempt, retry and record keeps: recorded and fetched segments hold the object's bytes |
| `RangeDownload.CompleteRunHoldsObject` | internal/transfer/range_download.go:311-325 | a run whose segments are all recorded has a file equal to the object |
| `RangeDownload.RunsKeepDisk` | internal/transfer/range_download.go:254-325 | over interrupted runs whose segments never grow, every recorded offset's segment holds the object, and a run that returns nil leaves the object |
| `RangeDownload.GrowthIsUnsafe` | internal/transfer/range_download.go:348-374 | a segment size that grows between two runs gives a run that returns nil with a wrong file |
| `RangeDownload.ResumeIsSafeIffSegmentsNeverGrow` | internal/transfer/range_download.go:254-325 | resume is correct for every object and every sequence of runs exactly when the segment size never grows |
| `RangeDownloader.Downloader.Truncate` | internal/transfer/range_download.go:266-268 | the file is cut or extended with zeros to the object's length |
| `RangeDownloader.Downloader.CopyChunk` | internal/transfer/range_download.go:424-428 | a chunk is written at its place and nowhere else |
| `RangeDownloader.Downloader.RunAttempt` | internal/transfer/range_download.go:396-451 | an attempt starts at the segment's start with its own counter, writes whatever the body delivers, even past the segment, and succeeds exactly when that is the segment's length |
| `RangeDownloader.Downloader.FetchSegment` | internal/transfer/range_download.go:396-451 | a segment is fetched exactly when one of its attempts delivers it whole |
| `RangeDownloader.Downloader.CompleteSegment` | internal/transfer/range_download.go:293-306 | a worker succeeds exactly when its segment is fetched and the disk takes its whole line |
| `RangeDownloader.Downloader.RecordCompleted` | internal/transfer/range_download.go:162-175 | only a fetched segment is recorded: its whole line is appended, or, when the disk takes less, as much of it as fits, and then the segment fails |
| `RangeDownloader.Downloader.OpenRun` | internal/transfer/range_download.go:254-281 | a run starts with a file of the object's length and the plan of what the sidecar's text does not show |
| `RangeDownloader.Downloader.DownloadRange` | internal/transfer/range_download.go:254-325 | a call is one run of the specification on the file and the sidecar text it finds, short writes included, and returns nil exactly when every planned segment is fetched and recorded |
| `Sidecar.ProgressSidecar.RecordCompleted` | internal/transfer/range_download.go:162-175 | appends one line, or as much of it as the disk takes, and then reports an error |
| `Sidecar.ProgressSidecar.ReadCompletedSegmentOffsets` | internal/transfer/range_download.go:94-122 | reads the well-formed lines as a set and skips the others |
| `Sidecar.LineIsRead` | internal/transfer/range_download.go:106-117 | a line is read exactly when, between its outer spaces, it is a decimal integer of 64 bits, with or without a sign |
| `Sidecar.DecimalReadsBack` | internal/transfer/range_download.go:166 | a printed offset reads back as itself |
| `Sidecar.RecordedOffsetsReadBack` | internal/transfer/range_download.go:94-122 | reading the recorded lines gives exactly the recorded offsets |
| `Sidecar.PrefixIsTorn` | internal/transfer/range_download.go:162-175 | every byte prefix of a sidecar is its first lines and one torn line |
| `Sidecar.TornTextIsRead` | internal/transfer/range_download.go:94-122 | a torn sidecar reads as the full lines and at most one number more, a digit prefix of the interrupted offset |
| `Sidecar.NextLineIsGlued` | internal/transfer/range_download.go:149-175 | the first line appended after torn digits is read as the number they spell together, the later ones as themselves |
| `TornSidecar.GluedLineIsHarmless` | internal/transfer/range_download.go:149-175 | in a plan of at most ten segments the line glued to torn digits spells no planned offset but the two it is made of |
| `TornSidecar.TearsAreHarmlessIffTenSegments` | internal/transfer/range_download.go:90-93 | over the whole life of a sidecar, torn writes continued by whole lines never mark a planned segment nobody fetched exactly when there are at most ten segments |
| `TornSidecar.RunSizesAreSegmentSizes` | internal/transfer/range_download.go:254-262 | every part size the code computes is one that result speaks of |
| `TornInARow.AnyTearsAreHarmlessIff` | internal/transfer/range_download.go:90-93 | torn writes in any order never mark a planned segment nobody fetched, for every size and count, exactly when no planned offset is spelled by leading digits of the others |
| `TornInARow.ReadIsSpelled` | internal/transfer/range_download.go:94-122 | every planned offset a sidecar reads back is one of its writes', or is spelled by leading digits of theirs |
| `TornInARow.SixTearsSpellAnOffset` | internal/transfer/range_download.go:90-93 | six torn writes in a row can mark an unfetched segment in a plan of eight |
| `SidecarRuns.StepKeepsRun` | internal/transfer/range_download.go:283-325 | every event of a run over the text, torn records at any point included, keeps recorded, torn and fetched segments equal to the object's bytes |
| `SidecarRuns.RunKeepsTrust` | internal/transfer/range_download.go:254-325 | a run keeps every write about a segment the file holds, for every size its own segments reach as far as |
| `SidecarRuns.HarmlessReadsRight` | internal/transfer/range_download.go:94-122 | with a harmless plan every planned offset the text shows is one that was written after its segment was fetched |
| `SidecarRuns.TrustedRunCompletes` | internal/transfer/range_download.go:311-325 | then a run over that text that returns nil has the whole object |
| `SidecarRuns.TextRunIsSetRun` | internal/transfer/range_download.go:94-175 | while no write is torn, a run over the text is the run over the set of recorded offsets |
| `SidecarRuns.LiftedRun` | internal/transfer/range_download.go:94-175 | a run over the set of what any text shows, torn or not, is a run over the text with the same file at its end |
| `TornResume.HarmfulPlanMisleads` | internal/transfer/range_download.go:90-93 | for a plan that is not harmless there is a history of interrupted runs after which the text shows a segment nobody fetched |
| `TornResume.HarmlessIff` | internal/transfer/range_download.go:90-93 | a plan is harmless always, with at most ten segments, or when no planned offset is spelled by the others, as writes are never torn, torn apart, or torn in any order |
| `TornResume.ResumeIsSafeIffHarmless` | internal/transfer/range_download.go:254-325 | resume over the text is correct, for every object and every sequence of runs, exactly when the plan is harmless |
| `MultipartUpload.StepKeepsSlices` | internal/transfer/multipart_upload.go:96-115 | every request keeps each stored part its own slice, and completion sends parts 1 to the count and puts the whole file |
| `MultipartUpload.ListIsFile` | internal/transfer/multipart_upload.go:340-359 | the completed list is numbered 1 to the count in ascending order and its concatenation is the file |
| `MultipartUpload.PlayKeepsNumbers` | internal/transfer/multipart_upload.go:53-58 | a run that needs more than 10000 parts never completes and never touches the destination |
| `MultipartUpload.RunKeepsSlices` | internal/transfer/multipart_upload.go:178-277 | one run, started with any UploadId the row has held, keeps every stored part of every one of the task's uploads its own slice |
| `MultipartUpload.RunsKeepSlices` | internal/transfer/multipart_upload.go:227-277 | so do interrupted runs with equal part sizes |
| `MultipartUpload.RunsAreSafe` | internal/transfer/multipart_upload.go:42-127 | at every point the destination is untouched or holds the file, and a run that returns nil has put the file |
| `MultipartUpload.RunToTheEnd` | internal/transfer/multipart_upload.go:42-127 | from every state with a new or known upload a run can send what is missing, put the whole file and return nil |
| `MultipartUpload.CanFinishIff` | internal/transfer/multipart_upload.go:178-181 | a run can return nil exactly when the file goes out in one request, or is cut into at most 10000 parts and its UploadId is new or still known to the server |
| `UploadAnswers.AnsweredFinishes` | internal/transfer/multipart_upload.go:42-127 | with every request answered, legal part sizes, and an upload that is new or known with its own slices, a call returns nil and has put the file |
| `MultipartUpload.DifferentSizesSpoil` | internal/transfer/multipart_upload.go:53-58 | two runs that cut the file differently put a wrong object and return nil |
| `MultipartUpload.UploadIsSafeIffSameSizes` | internal/transfer/multipart_upload.go:42-127 | upload resume is correct for every file and every sequence of runs exactly when each run that can complete cuts the file like those before it |
| `Uploader.EffectiveConcurrency` | internal/transfer/multipart_upload.go:139-158 | between 1 and 32 workers, never more than parts, the configured number when that is in range, and 4 without one |
| `Uploader.SortedParts` | internal/transfer/multipart_upload.go:341-359 | the map's entries, sorted, are the one ascending part list |
| `Uploader.Uploader.CreateOnce` | internal/transfer/multipart_upload.go:178-217 | a created upload is used only once its id is persisted |
| `Uploader.Uploader.ListCompletedParts` | internal/transfer/multipart_upload.go:227-277 | the pages together are exactly the stored parts, wherever the server cuts them |
| `Uploader.Uploader.EnsureUploadId` | internal/transfer/multipart_upload.go:178-217 | the id of the task's copy is used as it is; otherwise it succeeds exactly when a creation is answered and its id persisted |
| `Uploader.Uploader.SendPart` | internal/transfer/multipart_upload.go:295-335 | each attempt sends the part's slice from its start; it succeeds exactly when one is answered, and only then enters the list |
| `Uploader.Uploader.SendMissing` | internal/transfer/multipart_upload.go:71-125 | it succeeds exactly when every part not listed can be sent, and then the list is the old one with the file's own slices for the rest |
| `Uploader.Uploader.CompleteUpload` | internal/transfer/multipart_upload.go:340-389 | it succeeds exactly when the server accepts the list and the first completion that takes effect is answered, and then the destination holds the listed parts joined |
| `Uploader.Uploader.UploadSingle` | internal/transfer/upload.go:163-239 | a small file is sent whole on each attempt; it succeeds exactly when one is answered |
| `Uploader.Uploader.UploadMultipart` | internal/transfer/multipart_upload.go:42-127 | returns nil exactly when there is an upload, every missing part is sent, and the completion takes effect and is answered |
| `Uploader.Uploader.Upload` | internal/transfer/upload.go:150-156 | a call is one run of the specification, returns nil exactly when its requests get their answers, and has then put what those parts spell |
| `CrossCopy.RunKeepsInv` | internal/transfer/cross_connection_copy.go:123-232 | without a hazard a run, however far it gets and whatever line it tears, leaves the object at its source or destination and everything in order for each later run |
| `CrossCopy.RunsKeepInv` | internal/transfer/cross_connection_copy.go:123-232 | so does every sequence of interrupted, failed, stale and retried runs, each with its own part sizes |
| `CrossCopy.DeletedMeansCopied` | internal/transfer/cross_connection_copy.go:223-229 | once the source is deleted the destination holds the object, and no later run changes that |
| `CrossCopy.UploadedMeansCopied` | internal/transfer/cross_connection_copy.go:208-231 | whenever a run got past its upload, the destination holds the object |
| `CrossCopy.FinishedMeansForgotten` | internal/transfer/multipart_upload.go:178-181 | after a finished large upload the row's UploadId is one the server has forgotten |
| `CrossCopy.GrowthLoses` | internal/transfer/cross_connection_copy.go:169 | a run with longer segments than an earlier one can lose the object |
| `CrossCopy.DifferentCutsLose` | internal/transfer/cross_connection_copy.go:197 | so can a run that cuts a large file into other parts than an earlier one |
| `CrossCopy.RepeatLoses` | internal/transfer/range_download.go:193-195 | so can a repeated run over a sidecar that outlived its staging file |
| `CrossCopy.MisreadLoses` | internal/transfer/range_download.go:90-93 | so can a run that takes what is left of a torn line, in a plan of more than ten segments, for a segment |
| `CrossCopy.NeverLosesIffNoHazard` | internal/transfer/cross_connection_copy.go:123-232 | a move never loses data, in every sequence of runs, exactly when no run that can get past its upload comes after one of these four hazards |
| `CrossCopy.OneSizeHazard` | internal/transfer/cross_connection_copy.go:123-232 | with one part size and any number of runs: never exactly when the object can never be uploaded; or no torn line can mislead the plan and, further, no sidecar may stay, the object is empty, or it is large and no stale copy of the task is started |
| `CrossCopyTasks.CrossCopyTask.Stage` | internal/transfer/cross_connection_copy.go:156-181 | the download phase is a run of the range download on the staging file and its sidecar's text, and returns nil exactly when the source answers and that run does |
| `CrossCopyTasks.CrossCopyTask.Run` | internal/transfer/cross_connection_copy.go:123-232 | a call with any UploadId the row has held is one run of the specification; it gets as far as its requests' answers let it, returns nil exactly when both phases did and a move's deletion was answered, and of a fresh task whose requests are all answered the destination holds the object and a move leaves no source |
| `CrossCopyTasks.CrossCopyTask.Conclude` | internal/transfer/cross_connection_copy.go:221-231 | after the upload exactly a move deletes its source, and its error is the deletion's |
| `CrossCopyTasks.FreshRunUploads` | internal/transfer/cross_connection_copy.go:123-232 | a fresh task whose requests are all answered stages the object itself, and the destination gets it |
| `CircuitBreaker.BreakerEqualsRule` | internal/s3client/circuitbreaker.go:110-149 | in every history, Allow answers true below five counted failures, and otherwise once when 60 s have passed since the last |
| `CircuitBreaker.HalfOpenIsTrialHeld` | internal/s3client/circuitbreaker.go:110-149 | a host is half-open exactly while a granted trial is unanswered |
| `CircuitBreaker.HistoryAgrees` | internal/s3client/circuitbreaker.go:157-223 | status, count, time and probing flag say exactly what the log says |
| `CircuitBreaker.OtherHostsDoNotMatter` | internal/s3client/circuitbreaker.go:64-75 | calls for other hosts never change an answer |
| `CircuitBreaker.OneTrialAtATime` | internal/s3client/circuitbreaker.go:118-135 | with five failures standing, two grants have a counted failure between them |
| `CircuitBreaker.CircuitBreaker.Allow` | internal/s3client/circuitbreaker.go:110-149 | answers by the rule over the log of all calls so far |
| `CircuitBreaker.CircuitBreaker.RecordSuccess` | internal/s3client/circuitbreaker.go:157-170 | closes a known host and forgets its failures, and ignores an unknown one |
| `CircuitBreaker.CircuitBreaker.RecordFailure` | internal/s3client/circuitbreaker.go:195-223 | counts network and timeout only; the fifth, or a failed trial, opens the host from now |
| `Retry.DelayCapDoubles` | internal/s3client/retry.go:289-309 | the pause cap doubles up to the maximum, and throttling is one step ahead |
| `Retry.DelayWithinCap` | internal/s3client/retry.go:289-309 | every jittered pause is between zero and the cap, which is at most MaxDelay |
| `Retry.RetryAccounting` | internal/s3client/retry.go:163-211 | at most MaxAttempts attempts, each granted, at most one record and the right one, and at most MaxAttempts-1 pauses of MaxDelay, whatever others do to the breaker |
| `RetrySequences.ClosedOperation` | internal/s3client/retry.go:163-211 | against a closed breaker an operation counts once, by its result, however many attempts failed |
| `RetrySequences.AttemptsUntilSettled` | internal/s3client/retry.go:163-241 | against a closed breaker attempts go on up to the first that answers nil or fails with anything but a network, timeout or unknown error, and no further than the policy allows; that attempt is the result |
| `RetrySequences.FiveOperationsOpen` | internal/s3client/circuitbreaker.go:195-223 | from a fresh host exactly the fifth consecutive operation that ends in network or timeout opens it |
| `RetrySequences.OpenHostRefuses` | internal/s3client/circuitbreaker.go:118-129 | operations that start within 60 s of an open host's last failure make no attempt and leave the host as it is, however many there are |
| `RetrySequences.NoAttemptWhileOpen` | internal/s3client/retry.go:166-169 | after the fifth counted operation no later operation makes an attempt until 60 s after its record |
| `RetrySequences.TrialOperation` | internal/s3client/retry.go:165-203 | the trial makes one attempt, and is recorded exactly when it succeeds or was the only attempt allowed and fails with a counted error |
| `RetrySequences.OutcomeReleases` | internal/s3client/circuitbreaker.go:157-223 | a host whose trial was lost is released exactly by a success or a counted failure recorded for it, never by a question |
| `RetrySequences.LockedOutForever` | internal/s3client/circuitbreaker.go:122-129 | after a lost trial, as long as the others only ask about the host, no later operation makes an attempt or returns nil |
| `RetryLoop.WithRetry` | internal/s3client/retry.go:163-211 | the loop over a breaker used by others too is the specified operation, action by action |
| `Rekeying.RowReencrypts` | internal/storage/profile_repository.go:344-384 | a row re-encrypts exactly when its secret is not blank, and keeps both plaintexts |
| `Rekeying.ReencryptsIffNoBlank` | internal/storage/profile_repository.go:314-366 | all rows re-encrypt exactly when no profile has a blank secret |
| `Rekeying.RekeyKeepsInv` | internal/appsettings/security.go:294-321 | a re-keying, its failures and its crashes keep one current key that opens every secret |
| `Rekeying.SaveKeepsInv` | internal/connection/service.go:201-265 | a save encrypts under the current key and keeps an existing secret |
| `Rekeying.StepKeepsInv` | internal/appsettings/security.go:129-231 | every call keeps: secrets open under the current key, the verifier row is that key's, a filled KeyBox holds it |
| `Rekeying.EveryRunKeepsSecrets` | app.go:196-220 | so do all runs with failures, crashes and restarts |
| `Rekeying.AllOrNothing` | internal/appsettings/security.go:294-321 | a failed call changes nothing, and a crash leaves the whole change or none |
| `Rekeying.RekeyingSucceedsIff` | internal/appsettings/security.go:129-207 | setting succeeds exactly when unlocked and no secret is blank, removing when the password is right and none is blank |
| `Rekeying.PasswordIsNeededAfterStart` | internal/appsettings/security.go:218-231 | after a start exactly the password that was set unlocks, and after its removal none is needed, crash after commit included |
| `Rekeying.SecretsReadBack` | internal/connection/resolve.go:37-62 | an unlocked application reads exactly what the user put in, through any run: the secret last typed in, or the one a profile had where none was typed in |
| `Rekeying.SavedReadsBack` | internal/connection/service.go:212-247 | a saved profile reads back with the secret typed in, or, exactly where none was typed in for an existing profile, with the one it had; all others read back as before |
| `Rekeying.SaveSucceedsIff` | internal/connection/service.go:201-265 | a save succeeds exactly when unlocked, well-formed, for a new or existing profile with a secret typed in or kept, under a free name |
| `Rekeying.ImportSucceedsIff` | internal/connection/exportimport.go:226-257 | an import succeeds exactly with a valid endpoint and a free name |
| `Rekeying.OpenAfterwards` | internal/appsettings/security.go:129-231 | a password set or typed in right leaves the application open with its key, a removed one with the machine's, and saving, importing and deleting leave it as it is |
| `Rekeying.LateWriteIsSafeIffSameKey` | internal/connection/service.go:201-265 | a save whose write is overtaken keeps secrets readable exactly when the key did not change meanwhile |
| `SecretServices.KeyBox.Set` | internal/crypto/keybox.go:43-49 | the box holds the given key |
| `SecretServices.KeyBox.Get` | internal/crypto/keybox.go:53-58 | returns the held key, or that there is none |
| `SecretServices.KeyBox.Clear` | internal/crypto/keybox.go:66-72 | the box is empty |
| `SecretServices.ReencryptSecretsTx` | internal/storage/profile_repository.go:314-366 | succeeds exactly when every row can be re-encrypted, and then re-encrypts every row |
| `SecretServices.SettingsService.Start` | app.go:196-220 | the machine key is installed exactly when there certainly is no master password |
| `SecretServices.SettingsService.VerifyCandidate` | internal/appsettings/security.go:245-265 | a candidate is right exactly when the verifier row is its own |
| `SecretServices.SettingsService.ReencryptTx` | internal/appsettings/security.go:294-321 | rows and verifier change together or not at all |
| `SecretServices.SettingsService.SetMasterPassword` | internal/appsettings/security.go:129-156 | takes the specified step, the KeyBox following the commit |
| `SecretServices.SettingsService.RemoveMasterPassword` | internal/appsettings/security.go:176-207 | takes the specified step back to the machine key |
| `SecretServices.SettingsService.Unlock` | internal/appsettings/security.go:218-231 | fills the KeyBox exactly for the right password |
| `SecretServices.ConnectionService.SaveProfile` | internal/connection/service.go:201-265 | takes the specified step with the key it read first |
| `SecretServices.ConnectionService.ImportProfile` | internal/connection/exportimport.go:214-262 | creates a profile without secrets, unless its endpoint is invalid or its name is empty or taken |
| `SecretServices.ConnectionService.DeleteProfile` | internal/connection/service.go:268-274 | removes exactly that row |
| `BulkMove.StepKeepsInv` | internal/filemanager/copymove.go:289-373 | without clashes every request, repeated or unseen, keeps every object at its source or its destination |
| `BulkMove.ClashLoses` | internal/filemanager/copymove.go:290 | any clash gives a run that destroys an object |
| `BulkMove.NeverLosesIffNoClash` | internal/filemanager/copymove.go:141-265 | a bulk copy or move loses nothing, in every interleaving with failures and cancellation, exactly when no two requested keys clash |
| `BulkMove.CountersAreRight` | internal/filemanager/copymove.go:206-247 | completions never exceed the keys dealt; failures exceed completions by at most the eight workers, and not at all while no worker is between its two updates; at the end failed <= completed <= total, with equality when not cancelled |
| `BulkResults.SuccessesHaveArrived` | internal/filemanager/copymove.go:289-373 | with all places apart, every key whose work returned nil has its bytes in the destination bucket, under the prefix and its last path element, and, after a move, only there, at that moment and ever after |
| `BulkMove.BaseIsBase` | internal/filemanager/copymove.go:290 | the name kept of a key has no slash and ends the key, trailing slashes aside, from its start or from a slash on |
| `BulkMove.DestIsPlace` | internal/filemanager/copymove.go:290-291 | an object's one destination is in the destination bucket, under the prefix followed by that name |
| `BulkResults.CountersTellArrivals` | internal/filemanager/copymove.go:246-265 | at the end completed minus failed is the number of keys that succeeded, and the object of each has arrived |
| `BulkMove.EachKeyOnce` | internal/filemanager/copymove.go:165-220 | a dealt key is worked on exactly once, any other never |
| `BulkMove.FailureIsCountedFirst` | internal/filemanager/copymove.go:222-230 | a reachable state with more failures than completions |
| `BulkOperations.BulkOperation.CopyOneObject` | internal/filemanager/copymove.go:289-373 | head, copy and delete in that order, each under retry; it succeeds exactly when each gets an answer, and then the object is where it belongs and a move has left no source, no other object being touched |
| `BulkOperations.BulkOperation.ProcessNext` | internal/filemanager/copymove.go:217-230 | one key is taken, worked on and counted once, as failed exactly when some request of it got no answer |
| `BulkOperations.BulkOperation.RunWorker` | internal/filemanager/copymove.go:209-231 | the loop ends only when no key is left or the user cancelled, with every taken key counted |
| `ConnectionManager.FingerprintIsInjective` | internal/s3client/manager.go:242-271 | profiles without NUL in their fields and SOH in their header names have equal fingerprints only if they are equal |
| `ConnectionManager.SortedKeysAreUnique` | internal/s3client/manager.go:260-271 | the sorted header names do not depend on the map's iteration order |
| `ConnectionManager.NulBreaksFingerprint` | internal/s3client/manager.go:242-252 | two different profiles that pass the validation, one with a NUL in its region, share a fingerprint |
| `ConnectionManager.CleanIsAloneIffNoHeaders` | internal/s3client/manager.go:242-271 | a clean profile shares its fingerprint with no other profile at all exactly when it has no headers; otherwise one that spells them in its proxy URL shares it |
| `ConnectionManager.GetIsTransparent` | internal/s3client/manager.go:93-128 | in any interleaving, Get returns clients built from exactly the profile it read, or fails as building them does |
| `ConnectionManager.ReusedUntilInvalidated` | internal/s3client/manager.go:93-146 | an unchanged profile's clients are reused without building, whatever happens to other profiles, until it is invalidated |
| `ConnectionManager.UncleanEditIsMissed` | internal/s3client/manager.go:107-111 | an edit that trades a NUL between two fields returns the old clients |
| `ConnectionManager.WriteSortedHeaders` | internal/s3client/manager.go:260-271 | writes the headers in the one sorted order |
| `ConnectionManager.ProfileHash` | internal/s3client/manager.go:242-258 | the hashed text is the fingerprint |
| `ConnectionManager.Manager.Get` | internal/s3client/manager.go:93-128 | reuses an entry exactly when its fingerprint matches, and drops a stale one before building |
| `ConnectionManager.Manager.Invalidate` | internal/s3client/manager.go:135-146 | drops exactly that entry |
| `Listing.PrecedesIsTotal` | internal/filemanager/sort.go:27-47 | for distinct keys the comparison orders every pair in exactly one way, for every column and direction |
| `Listing.PrecedesIsTransitive` | internal/filemanager/sort.go:27-75 | the comparison is transitive |
| `Listing.SortPermutes` | internal/filemanager/sort.go:20-50 | sorting permutes the entries |
| `Listing.SortIsSorted` | internal/filemanager/sort.go:20-50 | with distinct keys the result is in the requested order |
| `Listing.SortedByColumn` | internal/filemanager/sort.go:27-75 | two files of a sorted listing are in the order of the column's values, of size, modification time, content type or key, and of the keys where those are equal; folders go by key |
| `Listing.SortedIsUnique` | internal/filemanager/sort.go:20-50 | there is only one such order |
| `Listing.FoldersComeFirst` | internal/filemanager/sort.go:30-38 | a sorted listing is its folders followed by its files |
| `Listing.DescendingReversesFiles` | internal/filemanager/sort.go:39-46 | descending order has the same folders and the files exactly backwards, for every column |
| `ListCache.RequestKeepsInv` | internal/filemanager/list.go:95-166 | a request that follows the returned token keeps every cached entry the first pages of its folder |
| `ListCache.EntryIsRightIffFollowed` | internal/filemanager/list.go:150-157 | a fetched page leaves the folder's entry right exactly when the request asked for the first page or followed the token |
| `ListCache.HistoryKeepsInv` | internal/filemanager/list.go:95-166 | so does every history of such requests |
| `ListCache.AnswersAreRight` | internal/filemanager/list.go:95-166 | every answer lists exactly the pages fetched so far, once each and sorted; an untruncated one lists the whole folder |
| `ListCache.CacheIgnoresSorting` | internal/filemanager/list.go:107-116 | the sort order never reaches the cache and other folders' entries are untouched |
| `ListCache.AnsweredWithoutServerIff` | internal/filemanager/list.go:107-116 | a request is answered without the server exactly when it asks for the first page of a cached folder without a refresh |
| `ListCache.RefreshStartsOver` | internal/filemanager/list.go:100-106 | a refresh leaves the folder with its first page alone, and uncached when it fails |
| `ListCache.PageIsFoldersThenFiles` | internal/filemanager/list.go:178-198 | the named folders come first, each as a folder of that name, and nothing but files after them |
| `ListCache.OwnEntriesAreTheRest` | internal/filemanager/list.go:188-195 | the page's objects are listed, except the folder's own marker |
| `ListCache.EntriesFromPage` | internal/filemanager/list.go:178-198 | folders first as the server sent them, then the objects |
| `ListCache.SortedCopy` | internal/filemanager/sort.go:20-50 | an insertion sort of a copy gives the specified order |
| `ListCache.ListingCache.Get` | internal/filemanager/list_cache.go:53-60 | returns what is cached for the folder, if anything |
| `ListCache.ListingCache.AppendPage` | internal/filemanager/list_cache.go:74-88 | adds a page after what is there |
| `ListCache.ListingCache.Invalidate` | internal/filemanager/list_cache.go:92-97 | drops exactly that folder |
| `ListCache.FileManagerService.ListObjects` | internal/filemanager/list.go:95-166 | takes the specified step on the cache and gives the specified answer |

## Left out

- Uploader.Uploader.UploadMultipart: sends the parts one after another; the specification it is proved against lets workers finish in any order.
- RangeDownloader.Downloader.DownloadRange: fetches the segments one after another; the specification allows any order and any interleaving.
- BulkOperations.BulkOperation.RunWorker: one worker does all the work; the specification has eight.
- RangeDownloader.Downloader.RunAttempt: a ranged body consists of the object's bytes from the range's start, and ends at the latest with the object.
- RangeDownload.ResumeIsSafeIffSegmentsNeverGrow: speaks of runs whose recorded lines are whole; TornResume has the torn ones.
- TornResume.ResumeIsSafeIffHarmless: one part size in all runs; how sizes may change while lines are whole is the subject of RangeDownload.
- Rekeying.StepKeepsInv: takes each call as atomic apart from its crash points; LateWriteIsSafeIffSameKey says when a save that is not atomic does no harm.
- CrossCopy.NeverLosesIffNoHazard: assumes distinct locations and no other writer; where the download sizes of the runs differ, sidecar lines are taken as whole; torn lines in any order are in OneSizeHazard, as they may need many runs.
- ConnectionManager.Manager.Get: starts from the profile that was read and decrypted before its critical section; a locked application and a profile that cannot be read are refused earlier.
- ListCache.FileManagerService.ListObjects: leaves out the locked application, which is refused before anything else.
- ListCache.AnswersAreRight: takes requests one at a time over a bucket that does not change.
- BulkMove.NeverLosesIffNoClash: lets the server accept a copy of an object onto itself, as S3 does for the part copies of objects above 5 GiB.
- Retry.RetryAccounting: computes delays over the integers; the policies the settings admit, at most 10 attempts and 32 s, stay far below int64.
- Transfers.TransferService.UpdateStatus: database calls on existing rows succeed; their other errors are only logged by the source.
- QueueInvariants.EveryRunKeepsInv: a restart within a run recovers before it dispatches; the order of app.go is one of the two ways a run may start.
- QueueStaleness.LateRecoveryIsRightIff: between the first dispatch and the recovery only dispatches and task goroutines run, as no call of the user can come earlier; the recovery itself is one step.
- BulkMove.StepKeepsInv: the copy of an object above 5 GiB is one effect, its completion; its parts follow Slices.PartsToCopy, and a failed one's abort is left out.
- Power loss: a crash here ends the process, so what was written to a file stays written.
- The S3 SDK, HTTP, TLS, proxies, error inspection and presigning: a request has no effect, an effect behind an error, or an effect and its answer.
- SQLite: a statement is atomic, and a transaction is all or nothing.
- AES-GCM, Argon2, HMAC and SHA-256: an ideal cipher and injective functions; nonces are not modelled.
- Aborting a multipart upload when a task is cancelled: it only removes parts nobody uses any more.
- The integrity check after a transfer: its mismatches are not acted on.
- ZIP download, preview, progress events, bandwidth limits, adaptive timeouts, dialogs, favorites, settings clamps and the frontend: no property beyond single bodies.
