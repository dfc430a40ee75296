# A verified model of the Cloud Storage workflows

The repository holds a command line tool with two workflows over Google Cloud
Storage. `normalize` renames the objects of a bucket to their NFC names. `upload`
renames local files to NFC, uploads them to private staging names and publishes
them. Neither workflow has a server-side transaction to lean on: a "move" is
copy, confirm, delete, confirm, confirm, each of which may fail, be interrupted,
or take effect although its answer is lost. The tool promises that success means
everything happened, and that a plain error means nothing did.

This project models that machinery and proves what it guarantees.

- **The store.** `ObjectStore` and `StorageApi` model all buckets as a map from
  path to generation and content. A schedule (`turns`) decides every outcome:
  a token that cannot be had, a refused connection, an answer that is lost before
  or after the effect, a faulty status, a signal at any step, and writes of others
  that ignore the lock. Nothing about the schedule is assumed unless a theorem says
  so: `Exclusive()` (nobody else writes, which is what holding the lock buys),
  `Calm()` (no failures and no signals from here on), `OneFlaw` and `OneSignal` (one
  step goes wrong in any way, or a signal arrives at it) and `Flaky` (requests fail now
  and then, at most nine times in forty consecutive steps). Every change is logged, so
  that statements about all intermediate states are statements about the log.
- **The error algebra.** `Errors` keeps every distinction on which a decision
  depends. `NeedsRecovery` marks the two outcomes that send an operator to the
  bucket; every other error is called plain.
- **The transaction.** `ObjectMoves`, `Accounting`, `Undoing` and `Transactions` model
  staging, finalization and rollback; `Normalize` adds listing and planning; `FileUploads`,
  `Uploads` and `UploadWorkflow` model retried and resumable uploads, publication,
  and the whole upload run with its local renames.
- **The lock.** `LockProtocol` is the bucket lock as a protocol between any number of
  clients, with delayed and repeated effects. `BucketLocks` is the re-entrant
  bracket of one thread around arbitrarily nested operations.
- **The disk.** `AtomicRename` is one rename as a series of checks around a single
  exclusive system call, with arbitrary changes by others between any two steps.
  `LocalRenames` is a list of renames with its undo.
- **Text.** `ByteRanges`, `ObjectPaths`, `Utf8`, `UrlEncoding` and `ShellQuoting` model what is
  printed and parsed on the way.

Code that changes state step by step is modelled by classes and methods with the
same branches; code made of expressions is modelled by functions.

## What turned out

- *Plain error means nothing happened* has exceptions in the code, and they are
  known exactly.
  - For a move: the DELETE, or the look-up directly after it, is refused a connection
    while no signal is pending. Only token failures are marked as possibly late
    (`src/error.rs:167-175`), so the error claims that nothing was sent and is not
    confirmed (`src/storage.rs:1339-1346`, `src/storage.rs:720`). A refused DELETE
    leaves both copies; a refused look-up leaves the source gone. `Stranded` says so
    of the schedule and the requests alone. In a run without other writers, a plain
    error has restored the contents if and only if it is false: of one move
    (`ObjectMoves.Execute`), of the transaction (`Transactions.ProcessMovesUnlocked`)
    and of the whole workflow (`Normalize.RunLocked`). `ObjectMoves.StrandedCopy` runs
    both exceptions.
  - For an upload: a request that completes the upload takes effect, its answer is
    lost, and no later request of that upload is answered (`src/storage.rs:801-816`),
    after which the last error may again claim that nothing was sent. `Orphaned` says
    so of the schedule, the if-and-only-if holds in the same way
    (`ObjectMoves.ExecuteUpload`, `Uploads.UploadPlannedFilesUnlocked`,
    `UploadWorkflow.RunLocked`), and `ObjectMoves.OrphanedUpload` is such a run.
- Sources and targets of a rename plan need no relation to each other for the
  promise to hold: private temporary names are enough. Chains and cycles are
  carried out as one simultaneous rename.
- Undoing needs more than that: a finalized move goes home only if its source name is
  free again, so what is proved about undoing is for plans whose targets are new, as
  all targets of accepted plans are (`NormalizationPlan.ChangedTargetsAreNew`).
- Losing the answer to the creation of a lock is told apart by its effect: a lock that
  was created is removed and the error stays plain, but if none was, reading it back
  answers 404, which is reported as a failed recovery (`src/storage.rs:272-276`, 288-297).
- The lock needs no assumption about when requests take effect. Mutual exclusion
  survives delayed and repeated creations and deletions, because a deletion names
  the generation and every generation is requested only by its creator.
- A dot is not percent-encoded, and clients drop `.` and `..` path segments, so a
  request URL is at risk exactly for names that are dot segments themselves.

## Model

| member | source | states |
|---|---|---|
| Errors.SentImpliesReached | src/error.rs:111-214 | An error that admits a sent request is never one that claims to have stayed local, however deeply rollbacks nest, and marking does not change that. |
| Errors.MarkingRepairsTokensOnly | src/error.rs:167-175 | After marking, exactly connection failures, local read failures, command failures and early interruptions still claim that nothing was sent. |
| Errors.RollbackKeepsTheCause | src/error.rs:91-105 | Wrapping with rollback failures loses neither the restored generation nor the conflict nor the sent flag, and only an empty list of failures keeps a plain error plain. |
| ObjectPaths.SplitOnce | src/object_path.rs:21-23 | The text is split at the first separator, and not at all exactly when there is none. |
| ObjectPaths.UriRoundTrip | src/object_path.rs:17-50 | Printing then parsing returns the path if and only if its bucket is non-empty without a slash and its name is non-empty. |
| ObjectPaths.ParsedPrintsBack | src/object_path.rs:17-50 | Whatever parses prints back to the very same text. |
| Utf8.RoundTrip | src/object_path.rs:37-45 | The bytes whose number limits a name decode to that name again, character by character. |
| Utf8.DecodedEncodesBack | src/object_path.rs:37-45 | Only encodings decode: overlong forms, surrogates and stray bytes do not. |
| Utf8.LengthIsBytes | src/object_path.rs:37-45 | The length that is checked is the number of bytes of the encoding. |
| ObjectStore.ForeignVersionsSurvive | src/storage.rs:1331-1440 | Under arbitrary interference, a version that this run neither created nor copied is still there unless the others removed it. |
| StorageClient.StorageApi.Send | src/storage_transport.rs:113-180 | A request ends in exactly the outcome its turn dictates: not sent, answered, or sent with its answer missing; nothing of this run changes yet. |
| StorageClient.StorageApi.InterruptCheck | src/lib.rs:67-72 | The check fails with the early interruption exactly when a signal is pending or arrives at this step, and changes no object. |
| StorageClient.StorageApi.ObjectGeneration | src/storage.rs:452-466 | Success is the live generation; a 404 means that the asked-for generation is not live. |
| StorageClient.StorageApi.LookUp | src/storage.rs:468-478 | The state is present exactly when the path, at the asked-for generation if any, is live. |
| StorageClient.StorageApi.ReadBody | src/storage_transport.rs:93-97 | Success returns the bytes stored at that moment. |
| StorageClient.StorageApi.DeleteObject | src/storage.rs:568-576 | Only the named generation is ever removed; success means the path is empty; an error that claims the request stayed here means no change. |
| StorageClient.StorageApi.Settle | src/storage.rs:1344-1346 | The look-up behind a DELETE reports whether the path is live and changes nothing; it ends in an error that claims nothing was sent, a refused connection, exactly when the schedule refuses it. |
| StorageClient.StorageApi.CopyObjectUnlocked | src/storage.rs:494-566 | Across any number of continuation calls at most one copy is made, only onto an empty target and from the named generation; a token failure claims that nothing was sent exactly when it met the first call. |
| StorageClient.StorageApi.ConfirmObjectGeneration | src/storage.rs:578-637 | Success means the generation is live; any failure is a recovery unless it is an interruption that the caller asked to see. |
| StorageClient.StorageApi.MoveObjectUnlocked | src/storage.rs:1322-1369 | Success means the bytes moved and, even among other writers, that the target is live at the returned generation; every state on the way and every ending stays within the move; an announced restore is exactly that. When one signal is all that goes wrong, before a request is sent or cutting one off after the copy, the move succeeds or everything is back, the target gone, under an interruption that says so. |
| StorageClient.StorageApi.RollbackInterruptedMoveUnlocked | src/storage.rs:1371-1388 | With the source still there only the copy is removed; otherwise the bytes are taken back, and the new generation is returned. It succeeds when nothing fails. |
| StorageClient.StorageApi.RollbackObjectUnlocked | src/storage.rs:1390-1426 | Success moves exactly the recorded target version back to its missing source; anything else leaves the bytes at one of the two. It succeeds when nothing fails, the version is there and its source is free. |
| StorageClient.StorageApi.CleanupObjectUnlocked | src/storage.rs:1428-1452 | Only the recorded generation is deleted, and success means that nothing is left at the path; when nothing fails it succeeds unless another version is there. |
| StorageClient.StorageApi.MoveObject | src/storage.rs:685-694 | The reserved lock object is no operand of a successful move; otherwise as the unlocked move. |
| StorageClient.StorageApi.RollbackObject | src/storage.rs:696-705 | Success moves exactly the recorded target version home; the lock object is refused before any request. |
| StorageClient.StorageApi.CleanupObject | src/storage.rs:707-711 | Only the recorded generation is deleted; the lock object is refused before any request. |
| StorageClient.StorageApi.ConfirmMoveAfterFailure | src/storage.rs:713-742 | A failure that may have reached the store is confirmed only if source and target are as before and no request was sent for certain; all else is a recovery. |
| StorageClient.StorageApi.ConfirmWriteAfterFailure | src/storage.rs:744-766 | The same for an upload, whose target must be missing. |
| StorageClient.StorageApi.CreateObject | src/storage.rs:887-911 | At most one version is created, only where nothing was; success returns its generation; a precondition failure or an error that stayed here means no change. |
| ByteRanges.DecimalValue | src/storage.rs:1272-1275 | Decimal printing and digit evaluation undo each other for every number. |
| ByteRanges.RangeRoundTrip | src/storage.rs:1267-1285 | The parser inverts the range header for every length that fits 64 bits and rejects the end whose increment would overflow. |
| ByteRanges.ParsedRangeShape | src/storage.rs:1267-1285 | Only ranges that start at zero parse, and they claim at least one byte and at most the 64-bit maximum. |
| FileUploads.PersistKeepsPrefix | src/storage.rs:1104-1165 | However slices of one file are resent and however much of them is kept, the session holds a prefix of the file and never shrinks. |
| FileUploads.ProgressRoundTrip | src/storage.rs:1218-1258 | What the client reads from a session's answer is exactly the session's length, or the missing-range error where a range is required and nothing was kept. |
| FileUploads.Put | src/storage.rs:1168-1193 | After any lost, refused or partial request the session holds a prefix of the file, a reported offset is the session's length, and a reported generation means that the whole file is stored. |
| FileUploads.QueryResumableProgress | src/storage.rs:1195-1216 | A status query moves no byte and reports the session's true state. |
| FileUploads.UploadResumableChunk | src/storage.rs:1104-1165 | At most ten requests; a returned offset is the session's length and lies inside the chunk; without failures it strictly advances, and just so on every flaky schedule: up to nine passing failures, each followed by an answered query, are got over; a signal before the request ends it at once. |
| FileUploads.RunSession | src/storage.rs:970-1012 | The loop ends within as many passes as the file has bytes and ten requests per pass; the impossible-offset errors are never raised; a returned generation is the whole file; it succeeds on every flaky schedule, and a single signal ends it with just that. |
| FileUploads.StartResumableSession | src/storage.rs:1043-1101 | Starting changes no object; the session starts empty; a refused, broken or timed-out request, a passing status or an expired token is tried again. |
| FileUploads.UploadResumableLocked | src/storage.rs:959-1021 | At most one version is created and no object replaced; a returned generation is the whole file; after a failure the object is there exactly if a completing request took effect and stayed unanswered to the end. |
| FileUploads.FinishOrCancel | src/storage.rs:970-1020 | A failed session is cancelled, and the cancellation is reported beside the unchanged failure exactly when it got no answer. |
| FileUploads.UploadResumableFile | src/storage.rs:924-957 | As the locked upload; success also means that the last step found the source readable and unchanged. |
| FileUploads.UploadFileChecked | src/storage.rs:866-922 | One attempt sends at most one create, never replaces an object, creates one exactly if that request took effect, and succeeds only with its answer and an unchanged source at the last look. |
| FileUploads.RetrySmallUpload | src/storage.rs:801-819 | Over all attempts, an error that claims nothing was sent left no object behind if and only if no create took effect unheard with every later one unanswered too; success is never one of these cases; up to nine attempts that are turned away before they take effect are got over. |
| FileUploads.UploadFileWithRetries | src/storage.rs:775-819 | Over all attempts at most one version is created, an existing object is never replaced, and success returns the generation of the stored file; a free target is always created on a flaky schedule, by a session if no answer is garbled, in one request if failures are refusals; a single signal ends the upload with just that. |
| FlakySchedules.NotATenth | src/storage.rs:1114-1165 | Where at most nine of forty consecutive steps fail, nine failures in an operation's last steps mean that its next step does not fail. |
| FlakySchedules.FlakyInstance | src/storage.rs:1114-1165 | Nine refused requests for one chunk, every third step, make a flaky schedule. |
| ObjectMoves.Execute | src/object_move.rs:10-28 | A plain error has restored the contents if and only if the schedule refused neither the DELETE nor the look-up behind it; success is a confirmed move; a schedule that does refuse one of them always strands the bytes at the target. When one signal is all that goes wrong, the move succeeds or is undone, and the error is plain. |
| ObjectMoves.ExecuteUpload | src/object_move.rs:31-47 | A plain error left the objects as they were, unless a completing request took effect on a free target and none after it was answered, which is when the object is there all the same. |
| ObjectMoves.StrandedCopy | src/storage.rs:1339-1346 | Both exceptions occur in runs of Execute from two objects that can be moved: refusing the DELETE leaves two copies, refusing the look-up behind it leaves only the target, each behind an error that claims nothing was sent. |
| ObjectMoves.OrphanedUpload | src/storage.rs:801-816 | The exception of an upload occurs: its create takes effect without an answer, the source is unreadable at the second attempt, and the object stays behind an error that claims nothing was sent. |
| Accounting.AccountMove | src/transaction.rs:71-96 | Moving a source's bytes on keeps every recorded generation live, every place single, and all unrecorded objects as they were. |
| Accounting.AccountRollback | src/transaction.rs:99-118 | Moving recorded bytes home closes the record and keeps the rest exact. |
| Accounting.AccountRestore | src/transaction.rs:71-96 | A restored generation written back into the record keeps the books exact. |
| Accounting.AccountedAll | src/normalize.rs:119-163 | When every record has reached its target, the plan has been carried out as one simultaneous rename. |
| Accounting.TrailIsSafe | src/storage.rs:1322-1453 | Every state on a move's way, forwards or backwards, has each planned source's bytes under one of its three names and all other objects untouched. |
| Undoing.HolesOpen | src/transaction.rs:71-96 | A move that stopped half-way spoils no books but its own: everything outside its three names stays exact. |
| Undoing.ReadyToUndo | src/transaction.rs:99-118 | Outside the move that was struck every recorded version is where its record says and its source name is free, so that it can be taken home whenever its turn comes. |
| Undoing.UndoOne | src/transaction.rs:99-118 | Taking one record home leaves the others as ready as before. |
| Transactions.TracksRestored | src/transaction.rs:80-92 | Writing a restored generation into the entry that failed, and into no other, keeps the records in step with where every moved object is. |
| Transactions.StageMoves | src/normalize.rs:127-144 | The staged records follow the plan and are exact; a failure hands over records that are exact, and an unrecorded copy beside them exactly if the schedule stranded one under a plain error. |
| Transactions.FinalizeMoves | src/transaction.rs:71-96 | The finalized records answer to a prefix of the staged ones, source by source, with live generations, also after a restore was written back. |
| Transactions.RollbackMoves | src/transaction.rs:99-155 | Every recorded change, finalized or only staged, is visited and none twice: no record remains; with no failure every record's bytes are home. When nothing fails any more, everything outside the move that was struck is restored, and without such a move no error is met. |
| Transactions.ProcessMovesUnlocked | src/normalize.rs:119-163 | For every schedule: every state is safe to stop in; success is the whole rename at once; a plain error restores all contents if and only if no DELETE of the run, nor the look-up behind one, was refused a connection; an executable plan succeeds when nothing fails. For a plan with new targets and a schedule with one flaw of whatever kind: success, or everything is restored but what one move has to do with; if the flaw is a signal: success, or everything is restored under a plain error. |
| NormalizationPlan.ClaimsCount | src/normalization_plan.rs:30-44 | A group has members exactly when a name claims the target, and more than one exactly when two do. |
| NormalizationPlan.Build | src/normalization_plan.rs:21-50 | Planning succeeds if and only if no two names share a normal form, with every name's entry in order; a refusal names exactly the targets claimed twice. |
| NormalizationPlan.ChangedTargetsAreNew | src/normalization_plan.rs:30-50 | In an accepted plan a changed target is none of the listed names. |
| Normalize.ListObjectsUnlocked | src/storage.rs:1293-1320 | Whatever the paging, the result is the concatenation of all pages without the lock object; nothing changes. |
| Normalize.ListedIsExact | src/storage.rs:1305-1313 | A listing of distinct names yields each of them once as a URI, the lock object aside. |
| Normalize.PlanMovesExact | src/normalize.rs:45-62 | There is one move for every changed entry, in order, and no other. |
| Normalize.PlanSucceedsExactly | src/normalize.rs:45-62 | Planning moves succeeds if and only if for every changed entry both URIs parse and the UTF-8 encodings of the new and of the temporary name have at most 1024 bytes. |
| Normalize.PlanMoveExact | src/normalize.rs:45-62 | A planned move goes from the entry's source to its target by way of the source's name with the suffix. |
| Normalize.FreshTokensGivePrivateNames | src/normalize.rs:165-174 | As many fresh tokens as there are names make the temporary names private: distinct, and nobody's source or target. |
| Normalize.RenamedIsNormalized | src/normalize.rs:36-42 | Carrying out the plan of an honest listing leaves the bucket as exactly the image of itself under normalization, and everything else alone. |
| Normalize.SecondRunPlansNothing | src/normalize.rs:45-62 | On a normalized bucket planning is accepted and yields no moves. |
| Normalize.PlannableIsExecutable | src/normalize.rs:45-62 | An accepted plan of an honest listing can always be carried out. |
| Normalize.RunLocked | src/normalize.rs:32-42 | Success means that the bucket is exactly normalized; a plain error restores all contents if and only if no DELETE of the run, nor the look-up behind one, was refused; when nothing fails, a bucket whose names fit is normalized; with one flaw in the schedule an error restores all contents but what one move has to do with, and with one signal all of them under a plain error. |
| Normalize.RunnableInstance | src/normalize.rs:32-62 | What the workflow asks of listing, normalization and tokens can be had at once for a bucket with one object to rename and one to keep. |
| Uploads.StageUploads | src/upload.rs:333-363 | The staged uploads are exactly the owned objects beside the initial ones; initial objects are intact at every moment. |
| Uploads.PublishUploads | src/transaction.rs:71-96 | Published and staged objects are exactly the owned ones, under their recorded generations, also after a restore. |
| Uploads.RollbackRemote | src/upload.rs:485-500 | Whatever was published or only staged is taken back; with no failure exactly the owned objects are gone, and the initial ones are intact at every moment; when nothing fails any more no error is met. |
| Uploads.UploadPlannedFilesUnlocked | src/upload.rs:321-410 | For every schedule: success publishes every file and leaves no staging object; a plain error leaves the buckets version by version as they were if and only if the schedule neither stranded a move nor orphaned an upload; free targets are published when nothing fails, and when a signal is all that goes wrong they are published or the buckets are as they were. |
| UploadWorkflow.AcceptedPlansAreDetached | src/upload.rs:48-56 | If discovery found every name as a file, names that differ by more than normalization lie apart, and each new place is free or is the file itself under its only spelling, then the renames of an accepted plan touch disjoint places, so that each is possible from the start and in any order. |
| UploadWorkflow.CompletedPlansAreDetached | src/upload.rs:48-68 | Renames that have all gone through were independent of each other from the start, whatever else was on the disk. |
| UploadWorkflow.SurveyInstance | src/upload.rs:175-195 | The assumptions about discovery hold of disks that fold spellings and of disks that tell them apart, with several strings leading to one place and a directory beside the listed files. |
| UploadWorkflow.RunLocked | src/upload.rs:69-96 | Success means both phases are complete; a plain error restores the disk, occupied targets and folded spellings included, and restores the buckets if and only if the schedule neither stranded a move nor orphaned an upload; when nothing fails, a collision-free run with free targets succeeds. Where system calls work and no two spellings are one entry, every error restores the disk; after a single signal every error leaves the buckets as they were. |
| LockProtocol.MutualExclusion | src/storage.rs:246-414 | In every run of any number of clients, no two are inside for one bucket, and the live lock object is the insider's own. |
| LockProtocol.OnlyOwnVersionsAreRemoved | src/storage.rs:288-340 | Every delete request ever sent names a version of its sender's making, and none of them removes the lock of a client that is inside. |
| LockProtocol.GenerationRead | src/storage.rs:288-304 | The generation that recovery reads after recognizing its token is that of its own version; the invariant of all runs is kept. |
| LockProtocol.EveryRunIsSafe | src/storage.rs:246-450 | The protocol's invariant holds after every sequence of actions. |
| LockProtocol.RecoveryUndoesTheCreation | src/storage.rs:272-304 | After a lost acknowledgement, recovery removes exactly the unacknowledged lock and keeps the earlier ones for release. |
| LockProtocol.FreeBucketIsGranted | src/storage.rs:246-286 | A free bucket is granted to whoever asks for it. |
| LockProtocol.ReleaseRemovesTheTop | src/storage.rs:330-340 | A client that is releasing asks for its topmost lock, which is live, and serving the request removes exactly that lock object. |
| LockProtocol.ReleaseGivesBackAll | src/storage.rs:330-340 | In every safe state, giving back all locks above the base leaves none of their buckets locked, every other lock object as it was, and the stack as it stood when the operation began. |
| LockProtocol.LeavingGivesBackAll | src/storage.rs:388-395 | In every run, leaving an operation gives back exactly the locks taken for it. |
| LockProtocol.RefusalGivesBackAll | src/storage.rs:371-386 | In every run, an acquisition refused half-way gives back exactly the locks it had taken. |
| LockProtocol.BracketIsNeutral | src/storage.rs:342-414 | Taking any list of free buckets, entering, leaving and releasing leaves every lock object and the client's stack as they were. |
| LockProtocol.EveryRunIsNested | src/storage.rs:342-414 | In every run the operations of a client are nested by height of its stack. |
| LockProtocol.RemovedForGood | src/storage.rs:330-340 | Once a delete request has been served, no later action, late and repeated requests included, brings that lock object back. |
| BucketLocks.NotHeldIsExact | src/storage.rs:346-366 | The buckets to lock are those asked for and not held, in strictly increasing order, each once. |
| BucketLocks.ExpectedIsBracketed | src/storage.rs:342-414 | The lock requests of a successful run are well nested for every nesting of brackets: none is taken twice, each is dropped when it is on top. |
| BucketLocks.LockingClient.AcquireBucketLock | src/storage.rs:246-286 | Success adds exactly one own lock object where none was; a plain error leaves the store unchanged; a conflict is reported only for a live lock; when one step of the schedule fails, whichever way, a free lock is granted or the store is unchanged, and a lock created without an answer is removed under a plain error. |
| BucketLocks.LockingClient.RecoverUnacknowledgedBucketLock | src/storage.rs:288-304 | The lock object is deleted only if it holds this attempt's token; success means no object with it is left. |
| BucketLocks.LockingClient.AcquireBucketLocks | src/storage.rs:371-386 | All locks or none: a failure gives back the locks already taken, a plain error leaves the store unchanged, and so does every error if only one step of the schedule fails and the locks were free. |
| BucketLocks.LockingClient.ReleaseBucketLocks | src/storage.rs:330-340 | Requests go out in reverse order for every lock; nothing else is removed; an earlier signal makes no release fail. |
| BucketLocks.LockingClient.Conclude | src/storage.rs:388-414 | When the releases succeed, the operation's own result is returned, signal or not; a failed operation never becomes a success. |
| BucketLocks.LockingClient.WithBucketLocks | src/storage.rs:342-414 | The held set is restored, no earlier lock object is touched, and without a recovery or rollback error the lock objects are as before; held buckets cause no request; success sends exactly the bracketed requests. |
| BucketLocks.LockingClient.Run | src/storage.rs:316-328 | The same for any program of nested brackets, moves and undo steps; when nothing fails, no lock is taken by others and every move has its source and a free target when its turn comes, locking does not influence the result. |
| AtomicRename.SplitPath | src/atomic_rename.rs:285-310 | A path under the root with ordinary components is split into its parents and last name; every other path is refused. |
| AtomicRename.FilesDoNotRedirect | src/atomic_rename.rs:311-315 | Renaming a file changes where no path of directories leads. |
| AtomicRename.Disk.RelativeParent | src/atomic_rename.rs:285-316 | Success is the directory that the parents resolve to; nothing changes. |
| AtomicRename.Disk.FileIdentityAt | src/atomic_rename.rs:346-367 | Success is the inode of the regular file now under the name. |
| AtomicRename.Disk.SamePathEntry | src/atomic_rename.rs:406-437 | Under any interference a yes means one directory and a single spelling in it at the last look, so hard links are excluded; when nobody interferes a yes means one entry, one entry gets a yes exactly if it is listed under one spelling, and a missing target is a no. |
| AtomicRename.Disk.RenameNoReplace | src/atomic_rename.rs:370-403 | One entry moves to an empty place, or nothing changes. |
| AtomicRename.Disk.RenameWithoutOverwrite | src/atomic_rename.rs:178-262 | Under any interference: at most one own rename, never over an entry, and reported exactly; a success with a captured file means that the final check found that file under the target name in the captured target directory; an error after the rename asks for recovery. |
| LocalRenames.HopCanBeUndone | src/local.rs:181-212 | After a recorded rename the way back is open: the same checks pass and nothing is in the way. |
| LocalRenames.Rollback | src/local.rs:181-212 | With no failure of its own, undoing in reverse restores the disk exactly, for chains too. |
| LocalRenames.ApplyNormalization | src/local.rs:107-148 | Success is the sequential composition of the renames; after a failure or signal at any entry the disk is as before unless the undo itself fails; a runnable plan succeeds when nothing fails. |
| LocalRenames.DetachedHoweverShuffled | src/upload.rs:69-93 | Detached renames mean the same in every order, those that have nothing to do on a disk that folds spellings included. |
| LocalRenames.DetachedIsRunnable | src/local.rs:107-148 | Detached renames can be carried out one after the other: an entry that is already one with its target, under a single spelling, stays so while the others are renamed. |
| LocalRenames.RollbackInAnyOrder | src/upload.rs:80-93 | Undoing an applied detached plan in any order restores the disk, also where it folds spellings. |
| UrlEncoding.EncodeRoundTrip | src/storage.rs:1490-1492 | Percent-decoding returns the bytes, and the encoding never contains a slash. |
| UrlEncoding.UrlRoundTrip | src/storage.rs:1494-1514 | The segments of a URL read back as the bucket and object names it was made for. |
| UrlEncoding.UrlsAreUnique | src/storage.rs:1494-1514 | No two listings, objects or rewrites share a URL. |
| UrlEncoding.ObjectUrlsAreUnique | src/storage.rs:1494-1500 | No two object names share a URL. |
| UrlEncoding.EncodesAsSegment | src/storage.rs:42-60 | Whatever is encoded is a single path segment of path characters and escapes (section 3.3 of RFC 3986): no query, fragment or further segment begins inside it. |
| UrlEncoding.DotFreeUrls | src/storage.rs:42-60 | An object URL contains a dot segment if and only if its bucket or name is one. |
| ShellQuoting.QuotedField | src/cloud.rs:350-352 | A quoted value is read back unchanged, whatever it contains. |
| ShellQuoting.ArgumentsRoundTrip | src/cloud.rs:104-112 | POSIX word parsing of the quoted, joined arguments returns exactly the argument list. |
| ShellQuoting.CommandRoundTrip | src/cloud.rs:98-112 | The whole remote command parses to the shell, its options and the arguments, with none of them taken for shell syntax. |

## Left out

- HTTP, the async runtime, timeouts, sleeps and JSON decoding: only the class of each request's outcome is kept. A missing resource, a missing continuation token and an unreadable body are one outcome.
- `gcloud`, SSH and token retrieval: fetching a token succeeds or fails as the schedule says.
- System calls, descriptors and errno: a directory is a map from names to inodes, opening pins an inode, and the exclusive rename is one step. Names with an interior NUL and the unsupported platforms are not modelled.
- SHA-256: a look at the source file says readable, unreadable or changed.
- The Unicode algorithm: normalization is a parameter of which idempotence (Unicode Standard Annex #15, section 1.2) and the preservation of bucket names are required where needed; random identifiers are fresh tokens.
- Late effects of data requests: a request takes effect, if at all, before the next one of this client is served, as the code relies on. The lock protocol does not need this.
- Statuses 404 and 412 are honest answers of the server; all other statuses may be wrong.
- FileUploads.UploadFileWithRetries: the bytes of the file do not change while it is uploaded; a change that is undone between two looks is not modelled.
- FileUploads.RunSession: the session's committed length never shrinks, which is what the service documents.
- FileUploads.UploadResumableLocked: cancelling a session succeeds on any answer; the status that the code expects is not modelled.
- BucketLocks.LockingClient.WithBucketLocks: nobody else changes lock objects during the bracket; the interleaving with other clients is the subject of LockProtocol. A poisoned mutex and the table of other threads are not modelled.
- LockProtocol.MutualExclusion: writers that ignore the lock object are outside the protocol.
- StorageClient.StorageApi.CopyObjectUnlocked: the optional preconditions are always given, as every caller in the workflows does.
- UploadWorkflow.RunLocked: the discovered names, their object names and the staging prefix are parameters; the directories of an upload are one list. The walk that discovers them is not modelled; `Surveyed` says what it establishes for the names it returns, and `Cleared` is asked only where success is promised.
- LocalRenames.ApplyNormalization: planned sources are files, as discovery lists them.
- A second signal during rollback yields an error entry and nothing more is claimed of it.
- A signal is noticed at requests and interrupt checks only; a schedule puts one that arrives while a file or a token is read at the next of these.
- Progress bars, messages, console output, argument parsing and query strings.
- `process_moves` and `upload_planned_files` only add a lock bracket to the modelled methods.
