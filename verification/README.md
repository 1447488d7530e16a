# imgpull: a verified model of its download protocol

imgpull pulls container images through an aria2 daemon. Each blob grows in
`tmp/<algorithm>_<hex>.part` under an outside writer, is verified, and is renamed into
the content-addressed `blobs/`. `state.json` is a throttled and possibly stale log,
`Build` is crash recovery, and several object goroutines run under a semaphore. This
project models that machinery in Dafny and proves what it keeps.

## How the model is laid out

| file | models | form |
|---|---|---|
| Storage.dfy | the image directory, digests, `verify.Blob`'s predicate, file names | values |
| Verify.dfy | `internal/verify/digest.go`: the streaming digest and the size+digest check | class and loop |
| Protocol.dfy | one step at a time: every object goroutine, aria2, `Build` after a restart, saves, cancellation, process death | step relation |
| ProtocolBase.dfy | what every step keeps for every configuration | lemmas |
| ProtocolProgress.dfy | ranks, bounded moves, where a run can be stuck, what each goroutine sends | lemmas |
| ProtocolInvariant.dfy, ProtocolExact.dfy, ProtocolDurable.dfy | the inductive invariants that need goroutines to keep apart | lemmas |
| ProtocolEffects.dfy | what a goroutine left alone does to the files, stretch by stretch | lemmas |
| ProtocolTheorems.dfy | what holds of every run | lemmas |
| ProtocolRuns.dfy, ProtocolConverse.dfy, ProtocolLatch.dfy | explicit runs, and the exact conditions under which the claims hold | lemmas |
| Scheduler.dfy | `internal/downloader/scheduler.go` from `downloadObject` down; each method's history is proved to be a path of the step relation, whatever happens between two of its actions, and each answer in it to be the one the surroundings gave | class and loops |
| Recovery.dfy, RecoveryRefinement.dfy | what `Build` makes of a directory; the step relation's undisturbed `Build` computes the same | functions, lemmas |
| Planner.dfy | `internal/plan/planner.go`: tasks, mutators, throttled saves, `Build` | classes and loops |
| AtomicFile.dfy | `internal/fsx/fsx.go` as file operations, `saveState` as an atomic register | class and loops |
| Resolver.dfy | `internal/registry/client.go`: HEAD chase, ranged GET, latches | class and loops |
| Challenge.dfy, Query.dfy | the wire formats of `internal/registry/auth.go` | loops against functions |
| Retry.dfy | `internal/downloader/retry.go` | functions and a method |
| Args.dfy | the argv rewriter of `cmd/imgpull/main.go` | loops against functions |

A run of the protocol is a sequence of steps from an empty directory. A step names every
outside answer it depends on, so a statement about all sequences covers every
interleaving of goroutines, aria2 writes, lost replies, cancellations, crashes and
rebuilds with other manifests. The verification of a `.part` and its rename are two
steps, and so are every pair of file operations.

## Assumptions

- Digests of one manifest. The planner keeps one task per listed layer, repeated digests
  included (`internal/plan/planner.go:174-196`). Blob store safety, the single writer and
  crash durability are proved exactly under `Calm`: one goroutine at a time, or no manifest
  that lists a digest twice. Both directions are theorems, the failing one by explicit
  runs. Statuses, attempts, the semaphore, progress and the outcome of `Run` need no such
  condition and are proved without it.
- aria2 only appends to a `.part`, and never writes to a file that already holds the whole
  verified blob. A rename keeps the file its task writes to, so the model also lets aria2
  append to a blob that is not the verified one.
- `tellActive` and `tellWaiting` are one listing that shows every live task. In the code
  they are two calls, and a task promoted between them would be missed.
- aria2 carries an `addUri` out at the call, if at all. Its reply may be lost.
- A crash is process death, not power loss. `os.Remove` succeeds. A `.part` is read as it
  is at one moment while it is verified; that read may fail during a run, not in `Build`.
- Nothing but imgpull and aria2 touches `blobs/`, except in the theorems of Recovery.dfy.
- The digest function is uninterpreted, and nothing assumes that it is injective. A digest
  is listed with one size, by all manifests alike.
- A fetched manifest has been checked against its own digest
  (`internal/registry/manifest.go:248-253`).
- A poll loop ends when the context is cancelled; `patience` bounds the polls until then.
- Letter case is that of ASCII.

## Where the code differs from its comments and its README

- Cleanup-class aria2 errors do not delete the `.part`, and auth-class errors do not
  refresh a token: `needsPartCleanup` and `isAuthError` are not consulted. Nor does
  `isRetryable` hold of them; they are retried as unclassified (`ClassifiedOnce`).
- `SaveNow` does not force a write; it is throttled too.
- Jitter is a quarter, not a fifth, and the 30 s cap is out of reach (`DelayExactly`).
- A latched client does not by itself keep `addUri` away from a partial `.part`, because
  the latch is tested once, earlier (`CleanAddsExactly`).
- `parseChallenge` undoes `\"` but not `\\` (`RoundTripExactly`), and misses a closing quote
  after a backslash (`EndingBackslash`).
- A quoted challenge value after white space (`realm= "x"`) keeps its quotes (`BareText`).
- `MarkCommitted` takes the plan's lock and does not give it back; nothing calls it.
- `-k=v` on a boolean letter makes `v` a positional argument (`JoinedExactly`).

## Model

| member | source | states |
|---|---|---|
| ProtocolTheorems.BlobStoreSafe | internal/downloader/scheduler.go:570-587 | under Calm, in every state of every run, every file under `blobs/` has its listed size and, under its own algorithm (sha256 or sha512), exactly the digest it is named by, and every task counted as committed has its blob |
| ProtocolConverse.SafeExactly | internal/plan/planner.go:174-196 | blob store safety holds of all runs if and only if one goroutine works at a time or no manifest repeats a digest |
| ProtocolConverse.BadBlob | internal/plan/planner.go:538-549 | with a repeated digest and two goroutines, an explicit run in which the `.part` is replaced between its verification and its rename, so that a wrong blob is committed |
| ProtocolTheorems.IndexSound | cmd/imgpull/main.go:338-361 | under Calm, `index.json` names a manifest only while its own blob and all config and layer blobs are present with their size and digest, also when the context was cancelled after Run returned |
| ProtocolTheorems.SingleWriter | internal/downloader/scheduler.go:332-368 | under Calm, with lost addUri replies, abandoned gids, failed forceRemoves and restarts, at most one live aria2 task targets a `.part`, if that held at the start |
| ProtocolConverse.SingleWriterExactly | internal/downloader/scheduler.go:353-368 | the single writer is kept by all runs if and only if one goroutine works at a time or no manifest repeats a digest |
| ProtocolConverse.TwoWriters | internal/downloader/scheduler.go:333-350 | with a repeated digest, an explicit run to two live aria2 tasks on one `.part` |
| ProtocolTheorems.ResumeKept | internal/downloader/scheduler.go:317-328 | from any state with the invariant, a step takes no bytes from a partial `.part`, unless it is the discard of a marked object after some ranged GET was answered with a full 200 |
| ProtocolTheorems.ResumeNeverLost | internal/plan/planner.go:278-298 | under Calm, the same for every step of every run, cancellations, crashes and rebuilds included |
| ProtocolTheorems.AddUriStartsClean | internal/downloader/scheduler.go:382-393 | under Calm, for a marked object, or once the flags were tested true, addUri happens with the `.part` absent or empty and without another writer |
| ProtocolTheorems.MarkedAddsClean | internal/downloader/scheduler.go:353-368 | under Calm, a goroutine whose test of the flags finds one set makes its next addUri call, whatever the others do until then, with no bytes to resume from and no other writer |
| ProtocolLatch.CleanAddsExactly | internal/downloader/scheduler.go:357-364 | a set client latch keeps every addUri away from partial files in all runs if and only if no two goroutines are ever inside `downloadObject` together |
| ProtocolLatch.LatchRace | internal/registry/client.go:277-282 | an explicit run in which another goroutine sets the latch between the test and addUri over a partial `.part` |
| ProtocolLatch.LoneIsClean | internal/downloader/scheduler.go:105-123 | with one goroutine at a time the latch is clear wherever the test found it clear |
| ProtocolTheorems.CrashDurable | internal/plan/planner.go:161-220 | under Calm, an object committed in a run is committed in every run after the process died at any later step, with any saves throttled away and any other manifests pulled in between |
| ProtocolConverse.CrashDurableExactly | internal/plan/planner.go:174-220 | crash durability holds of all runs if and only if one goroutine works at a time or no manifest repeats a digest |
| ProtocolConverse.Forgotten | internal/plan/planner.go:257-277 | with a repeated digest and two goroutines, an explicit run in which an object is committed, the process dies, and the next run lists it as pending |
| ProtocolTheorems.RenamedIsDurable | internal/plan/planner.go:543-548 | under Calm, a blob that was renamed, marked or not, when the process died makes its objects committed once the next Build is through |
| ProtocolTheorems.BlobsWriteOnce | internal/plan/planner.go:538-549 | without repeated digests, whatever a run does after a state, no blob of that state is changed or taken away |
| ProtocolTheorems.BuildSettlesEveryTask | internal/plan/planner.go:199-220 | Build leaves every task pending or committed, and exactly the committed ones without a goroutine; under Calm a committed one has its blob, of the listed size and digest; without repeated digests exactly those with a blob are committed |
| ProtocolTheorems.PoolBound | internal/downloader/scheduler.go:105-129 | in every run, any set of objects that are neither waiting for the semaphore nor done has at most Concurrency members, each within MaxRetries attempts |
| ProtocolTheorems.RunOutcome | internal/downloader/scheduler.go:130-149 | in every run, Run returns once every launched goroutine has sent its result; uncancelled, it returns nil if and only if every object is committed, cancelled, if and only if nothing was pending; and once it has returned nil all stay committed |
| ProtocolEffects.PrecheckAlone | internal/downloader/scheduler.go:237-328 | left alone from the head of an attempt: a `.part` of the listed size goes to its verification; a larger one is removed with its control file; where there is none only the control file is removed; a shorter one keeps both files |
| ProtocolEffects.DiscardAlone | internal/downloader/scheduler.go:353-393 | left alone from the test of the flags to addUri: a marked object, or one of a latched client, loses a non-empty `.part` and its control file, any other loses nothing |
| ProtocolEffects.VerifyAlone | internal/downloader/scheduler.go:570-587 | left alone, a `.part` of the listed size and digest becomes the blob, its control file goes and the task is committed; any other `.part` goes with its control file and the attempt has failed |
| ProtocolEffects.VerifyFailsAlone | internal/downloader/scheduler.go:574-583 | an unreadable `.part` is treated like a bad one; a rename that fails leaves every file and fails the attempt |
| ProtocolEffects.RetryAlone | internal/downloader/scheduler.go:192-231 | left alone, a failed attempt is followed by the next one, until MaxRetries have begun; then, and after a final failure, the task is failed; no file is touched |
| ProtocolProgress.SendsOnce | internal/downloader/scheduler.go:119-129 | in every run, while the process lives, a goroutine has sent exactly one result when it is done, none before, and each launched one has sent exactly one when Run has them all |
| ProtocolProgress.RankFalls | internal/downloader/scheduler.go:183-232 | every move of a goroutine lowers its rank, a poll for an alternate URL apart |
| ProtocolProgress.MovesBounded | internal/downloader/scheduler.go:105-130 | from any state of any run, however long the process lives, the goroutines of n objects make at most (31 MaxRetries + 2) n moves together |
| ProtocolProgress.CanFinish | internal/downloader/scheduler.go:114-130 | from any state of any run the goroutines alone can bring Run to its end, unless one polls for an alternate URL and nobody cancels |
| ProtocolProgress.NotStuck | internal/downloader/scheduler.go:114-130 | before Run has all its results, some goroutine can move if and only if the run is not waiting, uncancelled, for nothing but files of alternate URLs that nobody downloads |
| ProtocolProgress.FinalStatusStays | internal/plan/planner.go:390-400 | in every run, while the process lives, Committed and Failed are never left |
| ProtocolProgress.DoneGrows | internal/plan/planner.go:359-370 | in every run, while the process lives, DoneBytes never decreases |
| ProtocolBase.FromBase | internal/downloader/scheduler.go:183-290 | along every run, repeated digests or not: a goroutine's place decides its status, attempts and the semaphore are bounded, a task is committed only on something of its listed size, and a run that returned nil has committed everything |
| ProtocolInvariant.StepInv | internal/downloader/scheduler.go:183-290 | under Calm, every step of a goroutine, of Build, of aria2, every save, return, cancellation and crash keeps the invariant |
| ProtocolInvariant.TaskKept | internal/downloader/scheduler.go:237-290 | every move of one goroutine keeps what its position says of its `.part`, of aria2 and of its status, and does nothing the shared invariant forbids |
| ProtocolInvariant.BuildDoingSound | internal/plan/planner.go:257-302 | every step of a Build keeps the invariant, whatever the renames do |
| ProtocolInvariant.Apart | internal/downloader/scheduler.go:105-123 | under Calm, two goroutines inside `downloadObject` work on different digests |
| ProtocolBase.OutsideIsQuiet | internal/downloader/scheduler.go:119-128 | a goroutine that does not hold the semaphore changes nothing shared |
| ProtocolExact.FromExact | internal/plan/planner.go:538-549 | along any run without repeated digests a blob is there exactly when its task is committed or about to be marked, and blobs only accumulate |
| ProtocolDurable.FromDurable | internal/plan/planner.go:257-270 | along any run under Calm, from a process that is down: once a blob is there, every object of its digest that a Build has passed, or that a run works on, is committed |
| Recovery.StateIsOnlyAHintExactly | internal/plan/planner.go:149-215 | any two previous states (stale, absent, corrupt, foreign) lead Build to the same statuses and files if and only if blobs are re-verified or the blobs that are there fit |
| Recovery.ReconcileOutcome | internal/plan/planner.go:257-302 | file by file what becomes of one object: a blob taken on trust only when suggested, or accepted by size and digest; a `.part` of the right size and digest promoted; one that is too large or wrong removed, a shorter one kept; a control file kept only beside its `.part`; a wrong blob removed only when re-verifying |
| Recovery.RebuildIsIdempotent | internal/plan/planner.go:199-302 | a second Build changes no status and no file, and no uncommitted object is left with a control file but no `.part` |
| Recovery.GoodBlobsStay | internal/plan/planner.go:257-277 | no Build, trusting or verifying, removes or rewrites a blob that fits |
| Recovery.VerifyingBuildRepairs | internal/plan/planner.go:266-277 | after a verifying Build every blob that is there has its listed size and digest, whatever was there, and exactly those objects are committed |
| Recovery.ReconcileLocal | internal/plan/planner.go:278-301 | reconciling one object touches no file of another digest |
| RecoveryRefinement.QuietProcessIsRebuild | internal/plan/planner.go:149-220 | left alone from the dead process to the run, a Build with any readable or unreadable previous state stores the manifest unless it is there with its size and digest, and then leads to exactly the directory and statuses of Rebuild |
| RecoveryRefinement.QuietBuildIsRebuild | internal/plan/planner.go:198-215 | left alone, the steps of a Build lead to exactly the directory and statuses of Rebuild |
| RecoveryRefinement.AdoptedIsSuggested | internal/plan/planner.go:161-206 | the statuses a Build starts from are those that Rebuild is told |
| RecoveryRefinement.SavedIsAdopted | internal/plan/planner.go:161-215 | what a save writes is what the next Build of the same manifest starts from: the status of a committed object unless blobs are re-verified, the range mark of any other, of repeated digests what the last one says; an unreadable file, or that of another manifest, says nothing |
| RecoveryRefinement.QuietReconcile | internal/plan/planner.go:257-302 | left alone, the steps on one object lead to exactly what Reconcile says |
| Planner.Build | internal/plan/planner.go:109-221 | a locked directory is left untouched and every other failure gives the lock back; each exit leaves what it has done and no more; from a state file that is absent, unreadable or of another manifest, directory and statuses are those of a rebuild without suggestions, with no retries and no marks; from one of this manifest, those of Rebuild from the last record of each digest, with the retries of a committed record and the range mark of any other |
| Planner.BuildLocked | internal/plan/planner.go:112-220 | the same once the lock is held, exit by exit: directories, manifest, state file, and what every task takes over of the last record of its digest |
| Planner.ReadPrevious | internal/plan/planner.go:149-171 | nothing is adopted from an absent, unreadable or foreign state; from any other exactly the last record of each digest |
| Planner.AddTasks | internal/plan/planner.go:173-196 | one new pending task per descriptor, repeated digests included, with its digest, size and alternate URLs |
| Planner.Restore | internal/plan/planner.go:199-215 | the adopted status is a hint that reconciling overrides; retries and the range mark are carried |
| Planner.RestoreAll | internal/plan/planner.go:198-215 | reconciling the objects in order computes Rebuild |
| Planner.StoreManifestBlob | internal/plan/planner.go:225-235 | the manifest blob is written unless one is there with its size and digest, its mirror only with it; a failed write leaves what was written before |
| Planner.Plan.ReconcileTask | internal/plan/planner.go:257-302 | files and status become what Reconcile says; retries and the range mark stay |
| Planner.Plan.CommitFile | internal/plan/planner.go:538-549 | a failed rename changes nothing; otherwise the blob is the `.part`, both temporary files are gone and the task is committed |
| Planner.Plan.PersistLocked | internal/plan/planner.go:490-525 | if a second has passed the throttle moves on and state.json becomes a snapshot of all fields of all tasks, unless its write fails; else nothing changes |
| Planner.Plan.SetTask | internal/plan/planner.go:372-388 | empty arguments leave their fields, so an old expiry outlives a new URL |
| Planner.Plan.MarkRetry | internal/plan/planner.go:390-400 | field by field: one more retry, pending again, no gid, the message cut at 500 characters, nothing else |
| Planner.Plan.ForgetURL | internal/plan/planner.go:402-411 | field by field: URL, expiry and gid are dropped, nothing else |
| Planner.Plan.PopAltURL | internal/plan/planner.go:413-427 | the first alternate URL is returned and removed; none left changes nothing |
| Planner.Plan.MarkRangeUnsupported | internal/plan/planner.go:429-441 | field by field: the mark is set, URL, expiry and gid are dropped, nothing else |
| Planner.Plan.MarkFailed | internal/plan/planner.go:443-453 | field by field: failed, one more retry, no gid, the message cut at 500 characters, nothing else |
| Planner.Plan.MarkCommittedLocked | internal/plan/planner.go:461-469 | field by field: committed, with URL, expiry, gid and error cleared, retries and range mark kept |
| Planner.Plan.SaveFinal | internal/plan/planner.go:527-533 | an unthrottled save: a snapshot, or an error with the old file |
| Planner.Plan.Release | internal/plan/planner.go:558-568 | the lock is given up whether or not the final save works |
| Planner.Plan.TotalBytes | internal/plan/planner.go:346-357 | the bytes of the uncommitted objects; with DoneBytes they add up to the whole image |
| Planner.Plan.DoneBytes | internal/plan/planner.go:359-370 | the bytes of the committed objects; with TotalBytes they add up to the whole image |
| Planner.Conservation | internal/plan/planner.go:346-370 | committed and uncommitted bytes add up to the whole image in every state of the list |
| Planner.MutatorsConserve | internal/plan/planner.go:390-469 | no mutator changes the bytes of the image; requeueing, failing and range marks leave the committed bytes, and a commit adds exactly the object's size |
| Planner.Plan.PendingObjects | internal/plan/planner.go:333-344 | exactly the uncommitted tasks, each once |
| Planner.Plan.AllCommitted | internal/plan/planner.go:471-481 | true exactly when every task is committed |
| Scheduler.Download.DownloadObject | internal/downloader/scheduler.go:183-232 | its history is a path of the step relation to the outcome it returns, with the answers that were heard; at most MaxRetries attempts; Retries grows by k-1 on success at attempt k, MaxRetries on exhaustion, k on a fatal end at attempt k, and k+1 exactly when the last thing heard is that the blob is nowhere, any other fatal end being one of eight aria2 codes; before attempts 2, 3, and so on there was one wait each |
| Scheduler.Download.Attempt | internal/downloader/scheduler.go:237-290 | a path of the step relation from the stat to an end of the attempt; nil only with the object committed; a final error means either one of eight aria2 codes or, with one failure mark, that the lookup said the blob is nowhere |
| Scheduler.Download.Precheck | internal/downloader/scheduler.go:317-328 | a path of the step relation; where the first test saw too large a `.part`, or the second saw none, the control file is gone afterwards, and otherwise the directory is as the second test saw it |
| Scheduler.Download.StatWhole | internal/downloader/scheduler.go:241-243 | the attempt goes to the verification exactly when the `.part` has its listed size |
| Scheduler.Download.StatOversized | internal/downloader/scheduler.go:320 | the `.part` is condemned exactly when it is larger than listed |
| Scheduler.Download.StatMissing | internal/downloader/scheduler.go:325 | the control file is condemned exactly when there is no `.part` |
| Scheduler.Download.Remove | internal/downloader/scheduler.go:321 | the `.part` is removed and no other file |
| Scheduler.Download.RemoveCtl | internal/downloader/scheduler.go:322-326 | the control file is removed and no other file |
| Scheduler.Download.FindExistingTask | internal/downloader/scheduler.go:330-350 | the gid of the first listed task on this `.part`, which is live and writes it, or none only when no live task does, or the failure of the listing |
| Scheduler.Download.ScanListing | internal/downloader/scheduler.go:341-349 | the loop finds the first listed task on this `.part`, and none exactly when no live task has it |
| Scheduler.Download.ResolveURL | internal/downloader/scheduler.go:253-289 | a fresh remembered URL is used; else the lookup decides; a final error only when the lookup said that the blob is nowhere |
| Scheduler.Download.UseRemembered | internal/downloader/scheduler.go:253-289 | a URL is used without a lookup only if it is remembered and was just found fresh |
| Scheduler.Download.TakeURL | internal/downloader/scheduler.go:274-284 | the object is marked exactly when it was, the client was latched, or this answer was a full body; no file is touched |
| Scheduler.Download.TakeAlternate | internal/downloader/scheduler.go:263-271 | the first alternate URL is taken off the list, or with none left the task is failed with one more retry |
| Scheduler.Download.Settle | internal/downloader/scheduler.go:262-284 | a URL with the range mark, an alternate URL, the first of two failure marks exactly when the blob is nowhere and no alternate is left, or an error |
| Scheduler.Download.SubmitAndWatch | internal/downloader/scheduler.go:352-368 | a live task is watched; otherwise the flags are tested, the `.part` discarded when one is set, and a task submitted |
| Scheduler.Download.TestRangeFlags | internal/downloader/scheduler.go:357-359 | a discard is due exactly when the object is marked or the client latched at the test |
| Scheduler.Download.StatEmpty | internal/downloader/scheduler.go:385-388 | nothing is discarded exactly when the `.part` is missing or empty |
| Scheduler.Download.DiscardUnresumablePart | internal/downloader/scheduler.go:379-393 | a path of the step relation from the discard decision to a cleared `.part` |
| Scheduler.Download.SubmitTask | internal/downloader/scheduler.go:395-444 | at most four calls: all options, then without "checksum", then without "header", then without "all-proxy"; all but the last refused for their options; a gid exactly when the last call gave it, and a last refusal is retryable |
| Scheduler.Download.AddOnce | internal/downloader/scheduler.go:421-442 | one call whose reply leads to the watch, to a failure end, or to another call with everything as it was |
| Scheduler.Download.WaitTask | internal/downloader/scheduler.go:446-538 | the last poll decides and all before it said to go on, the eleventh failed poll in a row included; a path of the step relation to a `.part` to verify or to one of the failure ends |
| Scheduler.EleventhFails | internal/downloader/scheduler.go:473-484 | a watch that ends for a failed poll has seen eleven failed polls in a row, and a transfer going on just before them |
| Scheduler.StreakGoesOn | internal/downloader/scheduler.go:450-525 | as long as no eleven polls in a row failed and every other one finds the transfer going on, the watch goes on |
| Scheduler.Download.PollFailed | internal/downloader/scheduler.go:473-484 | the eleventh failed poll in a row ends the watch, a cancellation during the pause may, and nothing else |
| Scheduler.Download.PollEnded | internal/downloader/scheduler.go:486-521 | a finished download whose `.part` has the listed size goes to the verification; one of the eight fatal codes is final; any other end is retried |
| Scheduler.Download.Completed | internal/downloader/scheduler.go:487-493 | a completed download is verified exactly when its `.part` has the listed size |
| Scheduler.Download.StopTask | internal/downloader/scheduler.go:455-460 | a cancelled watch ends after one forceRemove, which takes the task off aria2 or fails |
| Scheduler.Download.Conclude | internal/downloader/scheduler.go:494-519 | an aria2 error ends the attempt for good exactly for the codes 3, 9, 10, 15, 16, 20, 21 and 23 |
| Scheduler.Download.NoURI | internal/downloader/scheduler.go:496-516 | error 8 forgets the URL; one probe is sent exactly when the source is not already known to ignore Range, and its verdict becomes the mark |
| Scheduler.Download.ForgetUrl | internal/downloader/scheduler.go:506-515 | the URL is dropped; the mark is set exactly when it was set, the client is latched, or the probe said so; files, tasks and latch stay as they are |
| Scheduler.Download.WaitForFile | internal/downloader/scheduler.go:461-471 | polling without a gid ends with a `.part` of the listed size or a cancelled context |
| Scheduler.Download.VerifyAndCommit | internal/downloader/scheduler.go:567-587 | a path of the step relation: verify, then rename in a step of its own, or remove both files |
| Scheduler.Download.VerifyPart | internal/downloader/scheduler.go:574 | the verdict is that the `.part` is there, could be read, and has exactly its listed size and digest |
| Scheduler.Download.Rename | internal/plan/planner.go:543-546 | the `.part` becomes the blob exactly when the rename is granted and the `.part` is still there; otherwise nothing changes |
| Scheduler.Download.MarkRetry | internal/downloader/scheduler.go:193-201 | the next attempt begins with one more retry counted, unless the context is done |
| Scheduler.Download.WaitBackoff | internal/downloader/retry.go:131-143 | a delay drawn for this attempt, unless cut short |
| AtomicFile.WriteFileAtomic | internal/fsx/fsx.go:10-38 | at every moment the folder shows the old files or the old files with the whole new content, temporary file apart; success exactly when the switch happened |
| AtomicFile.WriteAll | internal/fsx/fsx.go:23-26 | writing by pieces, failing midway or not, touches only the temporary file |
| AtomicFile.SaveAll | internal/plan/state.go:72-80 | over any number of saves, good or bad, state.json always shows the initial value or one whole snapshot, and never an earlier one than before |
| AtomicFile.LinearExtends | internal/fsx/fsx.go:12-38 | one more save extends the linearization of the saves before it |
| Resolver.Client.ResolveBlobURL | internal/registry/client.go:101-137 | for every sequence of answers and whatever other resolves of the client latch: every probe belongs to one of at most three rounds, each decided by its answers, all but the last worth another try, and the last gives the result unless the context ends in a pause; a success is the Location of its last probe, with credentials only when a ranged GET stays on the host, or the URL of its last probe with the credentials; skipHead and rangeBlind are set exactly when they were, others set them, or a round saw a useless HEAD or a ranged GET answered 200; each round skips HEAD exactly as the latch says; at most 18 HEADs and 3 ranged GETs; credentials on the registry's host only |
| Resolver.Client.NextRound | internal/registry/client.go:108-113 | one more round keeps the account of all probes, of who skipped HEAD and of both latches |
| Resolver.RoundResult | internal/registry/client.go:181-295 | what the last answer of a round makes of it, status by status: which URL and headers a success has, and exactly which answers are successes, refusals, missing blobs and ended contexts |
| Resolver.RoundShape | internal/registry/client.go:139-239 | which probes a round sends: one ranged GET where HEAD is skipped; else at most six HEADs, each at the same-host Location of the one before and with the same credentials, then a ranged GET at the registry or none |
| Resolver.FallBackExactly | internal/registry/client.go:157-236 | a HEAD is followed by the ranged GET if and only if it hung, or its status is no redirect, 200, 206, 401 or 403 |
| Resolver.SixthRedirect | internal/registry/client.go:155-239 | a redirect that stays on its host ends the round if and only if it is the sixth, with an error |
| Resolver.HeadersStayHome | internal/registry/client.go:191-203 | a round's result with headers is on the registry's own host, any other has none |
| Resolver.MissingNeedsRangedGet | internal/registry/client.go:221-231 | a round reports the blob missing if and only if it ends in a ranged GET answered 404 or 400 |
| Resolver.TargetStays | internal/registry/client.go:155-196 | every HEAD of a chase, and where it is next, is on the registry's host |
| Resolver.Client.ResolveOnce | internal/registry/client.go:139-239 | one round: one ranged GET when HEAD is skipped; else HEADs, each at the redirect of the one before, until one decides or leaves it to a ranged GET, or the sixth still redirects; the latches are set exactly for the reasons its probes give, or by others |
| Resolver.Client.Chase | internal/registry/client.go:153-239 | the HEADs, the ranged GET and the result that their answers decide, and exactly the latches they justify |
| Resolver.Client.Hop | internal/registry/client.go:155-203 | a redirect is followed with credentials only on the same host; any other answer decides the round |
| Resolver.Client.Redirected | internal/registry/client.go:181-203 | the chase goes on exactly when the redirect stays on the host |
| Resolver.Client.Judge | internal/registry/client.go:205-236 | a status that is no redirect is served, refused, or settled by one ranged GET; skipHead is set exactly when there is no such method, or HEAD was denied and the GET served |
| Resolver.Client.ResolveViaRangeGet | internal/registry/client.go:241-295 | one ranged GET to the registry with the given credentials; rangeBlind is set exactly by a 200; a redirect yields its Location, with credentials only on the registry's host, 200 and 206 the registry's URL with them, 401 and 403 a refusal, 404 and 400 a missing blob |
| Resolver.Client.FallBack | internal/registry/client.go:167-177 | the ranged GET after a useless HEAD decides the round, and skipHead is set exactly when HEAD hung or is not supported |
| Resolver.RoundBounds | internal/registry/client.go:153-239 | a round sends at most six HEADs and one ranged GET, no HEAD where it is skipped, and none to another host |
| Resolver.ProbesBounds | internal/registry/client.go:108-135 | the same for all rounds of a resolve together |
| Challenge.ParseChallenge | internal/registry/auth.go:46-98 | the scanner ends on every input and returns what Parse says |
| Challenge.FindClose | internal/registry/auth.go:70-78 | the first quote that does not follow a backslash, if there is one |
| Challenge.ChallengeRoundTrip | internal/registry/auth.go:44-98 | any challenge that section 11.2 of RFC 9110 can write, with token or quoted values, without a backslash in a quoted value, with any white space around the challenge, around keys and around token values, is read back: keys in lower case, the last duplicate winning |
| Challenge.BareText | internal/registry/auth.go:82-92 | a value that does not begin with its quote is the text up to the next comma without the white space around it; so a quoted string after white space keeps its quotes |
| Challenge.TrimExactly | internal/registry/auth.go:47-92 | trimming cuts all of the 25 white space code points from both ends and nothing else |
| Challenge.EmptyExactly | internal/registry/auth.go:46-50 | a challenge is refused as empty if and only if it is nothing but white space |
| Challenge.SchemeAlone | internal/registry/auth.go:51-54 | a scheme without a blank after it is a challenge without parameters, whatever it is made of |
| Challenge.NamelessSkipped | internal/registry/auth.go:66-95 | a value whose key is empty or white space is dropped, and the scan goes on after it |
| Challenge.RemainderDropped | internal/registry/auth.go:61-65 | text without an equals sign at the end is dropped |
| Challenge.ChallengeComesBack | internal/registry/auth.go:60-96 | any such challenge in which no quoted value ends in a backslash is read, with the backslashes of every quoted value doubled |
| Challenge.EndingBackslash | internal/registry/auth.go:69-78 | a quoted value that ends in a backslash, with no other quote ahead, makes the challenge malformed |
| Challenge.RoundTripExactly | internal/registry/auth.go:79-80 | of the challenges in which no quoted value ends in a backslash, exactly those come back whose winning quoted values hold none |
| Query.UrlEscape | internal/registry/auth.go:343-358 | the loop computes Escape, and apart from percent signs only letters, digits, `-`, `_`, `.` and `~` come out |
| Query.UnescapeEscape | internal/registry/auth.go:343-358 | percent-decoding restores every byte string |
| Query.EscapeInjective | internal/registry/auth.go:343-358 | different strings are escaped differently |
| Query.EscapeAlphabet | internal/registry/auth.go:348-354 | apart from percent signs only `A-Z`, `a-z`, `0-9`, `-`, `_`, `.` and `~` come out, so never `&`, `=` or `+` |
| Query.EscapedByte | internal/registry/auth.go:347-356 | each byte of that alphabet stands for itself, any other becomes a percent sign and the two digits of its value |
| Query.PercentPairs | internal/registry/auth.go:344-355 | every percent sign is followed by two of `0-9` and `A-F` |
| Query.Separators | internal/registry/auth.go:327-341 | a query holds one `=` per pair, after its key, one `&` between pairs, and no others |
| Query.EncodeQuery | internal/registry/auth.go:327-341 | for every map and every order of iteration, splitting the output on `&` and `=` and decoding restores the map |
| Query.QueryRoundTrip | internal/registry/auth.go:327-341 | any list of pairs is restored in order |
| Retry.ClassifiedOnce | internal/downloader/retry.go:59-108 | the four error classes exclude each other and cover everything; a failure is final exactly for eight codes and of the cleanup class exactly for seven, whatever its message; it is of the auth class for 14 and 24, or when no code decides and its message contains 401, 403, unauthorized or forbidden in any letter case |
| Retry.ContainsExactly | internal/downloader/retry.go:98-100 | the search of a message finds a word exactly when it occurs somewhere |
| Basics.LowerExactly | internal/downloader/retry.go:84 | lower-casing changes A to Z and nothing else |
| Retry.BackoffDelay | internal/downloader/retry.go:110-129 | returns a delay that can be drawn for this attempt |
| Retry.DelayExactly | internal/downloader/retry.go:120-128 | the delays are exactly those strictly between 3/4 and 5/4 of 1, 2, 4, 8 and from then on 16 seconds, and all are below 20 s |
| Retry.IncreaseExactly | internal/downloader/retry.go:113-119 | the later of two attempts waits longer under any jitter if and only if the earlier is below 5 and the later above 1 |
| Retry.TotalSleep | internal/downloader/scheduler.go:192-207 | an object with M attempts, M at least 4, sleeps between 3/4 and 5/4 of 14 + 16(M-4) seconds in all |
| Verify.FileDigest | internal/verify/digest.go:16-40 | the digest of the whole file however the reads are cut; else the unsupported algorithm, the missing file or the failed read, in this order |
| Verify.Blob | internal/verify/digest.go:42-59 | accepts exactly the readable files of this size whose digest under sha256 or sha512 is the given one, and says exactly when a file is missing, of the wrong size, of an unsupported algorithm, unreadable, or of the wrong digest |
| Storage.NamesApart | internal/plan/planner.go:304-331 | different digests have different `.part` and blob files, and no control file is a `.part` |
| Args.ExpandShortFlags | cmd/imgpull/main.go:88-121 | the two nested loops compute Expand, with everything from `--` on untouched |
| Args.SplitPositional | cmd/imgpull/main.go:65-86 | the loop computes Split |
| Args.SplitExactly | cmd/imgpull/main.go:65-86 | argument by argument: before the first `--`, an argument is positional if and only if it is `-`, or has no dash in front and does not follow one of the ten value flags; all others, and everything from `--` on, are handed through in order |
| Args.SplitPartitions | cmd/imgpull/main.go:65-86 | the result is an order-preserving partition of the input, and no flag counts as positional |
| Args.SpellingsAgree | cmd/imgpull/main.go:67-121 | separate, glued, `=`-joined, clustered and long spellings of the same uses yield the same positionals and the same long flags in the same order |
| Args.JoinedExactly | cmd/imgpull/main.go:111-115 | `-c=v` hands v to its flag if the flag takes values, and makes it a positional argument otherwise |
| Args.UnknownLetter | cmd/imgpull/main.go:106-110 | a letter that is no flag ends the expansion of its word: the letters before it are expanded, it and the rest are left under one dash |
| Args.OthersKept | cmd/imgpull/main.go:95-103 | words that do not begin with one dash and a letter are kept as they are, and so is everything from `--` on |
| Args.ShortLetters | cmd/imgpull/main.go:33-63 | the letters h, v, k and V are switches, and p, o, r, s, c, R, e, u, P and x take values |

## Left out

- HTTP, TLS, JSON-RPC, process spawning, signals, go-containerregistry, tarball export and
  layout writing: foreign calls, present only as arbitrary answers.
- The insides of SHA-256 and SHA-512: one uninterpreted function.
- Terminal rendering, log text, `HumanSize`, and the totals of `snapshot`, which takes
  several separate locks and is not an atomic view.
- `ParsePlatform`, `SelectPlatform`, media types, `parseURLExpiry`, daemon start-up.
- Token fetching and caching of the authenticator: a header value or an error.
- The `--long=value` spelling, which neither loop rewrites and the flag package reads.
- The `Version` check and the JSON form of `state.json`: an unreadable file is one input.
- ProtocolTheorems.BlobsWriteOnce: stated for manifests without repeated digests, because a repeated digest lets a second task rename over the first one's blob.
- Challenge.RoundTripExactly: leaves out quoted values that end in a backslash before another quoted value; the closing quote is missed there, and the text up to the next quote is read as part of the value.
- Scheduler.Download.WaitForFile: ends because polls are bounded by `patience`; without a cancellation the code may poll for ever.
- Resolver.Client.Hop: hosts are compared by ASCII case folding, where the code folds Unicode.
- Challenge.ParseChallenge: lowers ASCII letters only, where the code lowers Unicode ones; a token key has no others.
- Scheduler.Download.FindExistingTask: takes the two listings as one, see the assumptions.
- The loops of `Run` itself, which launch and join the goroutines: steps of Protocol.dfy (`Unlaunched`, `Queued`, `Returned`, `RunNil`) stand for them.
- The small-first launch order of `Run`: the theorems hold of every order.
