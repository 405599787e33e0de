# A verified model of the data profiler

The profiler accepts profiling jobs over an API, keeps them in a metadata database, and lets a pool of
worker goroutines measure one table per job. This project models the parts in which the behaviour is
decided by more than one function, and proves what holds of them for every input, every run and every
interleaving:

- the job protocol: `Create`, `Enqueue`, `Start`, `Stop`, the workers, and process crashes, over a bounded
  channel and two tables (`Protocol`, `Ownership`, `Lifecycle`, `Recovery`, `Orphans`, `Progress`,
  `Snapshots`, `Contents`), with the store and the manager as classes (`Stores`, `Managers`);
- the column fan-out of `ProfileTable` (`FanOut`);
- quality score, drift report, Luhn check, histogram and identifier quoting (`Quality`, `Drift`, `Luhn`,
  `Histogram`, `Quoting`), with the reference for the quality report in `Criteria`.

`Scenarios` holds runs from an empty database that show what the conditions leave open.
`Domain` holds the records and `Tables` what each SQL statement does to the two tables.
`dafny verify dfyconfig.toml` checks everything.

## How to read the protocol

`Protocol.Next` is the step relation. A step is what one participant does up to and including its next
access to something shared, so every interleaving of the goroutines is a sequence of steps, and
`Reachable` means: some run of some deployment, crashes and restarts included, gets there.

- The store answers each statement with `Ok`, `Refused` (an error, nothing done) or `Lost` (done, but the
  caller is told that it failed). Which one is not determined.
- A statement under a finished context fails without effect. A write that was admitted before the
  context ended may still be applied; that is why marking a row running and saving a profile are two steps
  each (`Mark`/`MarkDone`, `Save`/`SaveDone`).
- `Crash` wipes out everything except the tables. `CloseDb` is the closing of the database handle.
- Generated UUIDs are fresh, one process at a time uses the metadata database, and `Start` finishes before
  any `Create` or `Stop` begins, as in `cmd/server/main.go:39-44`. Process and database share one clock.
- `Stores.Store` can be `healthy`: then it acknowledges every statement on the open handle that no constraint
  forbids (`Answers()`). The contracts of the manager's methods say both what holds whatever the store answers
  and what exactly happens when it answers.
- `marks`, `issued`, `sent` and the `source` of a profile row are history variables: no step reads them,
  except that generated ids are not in `issued`.
- The methods of `Managers.Manager` are the code of one goroutine, run without interruption except in Stop's
  wait, with one clock reading per uninterrupted stretch. Their ghost field `g` follows them through the step
  relation (`Reaches(old(g), g)`), so the theorems about all interleavings hold of them. What the outside world
  supplies (UUID, clock, the measurements of a table, whether the job's timeout fired, what others do while Stop
  waits) is a parameter.

Go's strings are sequences of characters, one per byte. `float64` is modelled by `real`. Formatted details
of checks and changes are structured values.

## What the proofs turned up

- `cmd/server/main.go:46` closes the database before the deferred `jobs.Stop()` of line 41 runs, so on a
  regular shutdown no row can be marked failed or finished: `Progress.ClosedHandleFreezesTables`.
- `docs/Go_Data_Profiler_Master_Copy.md:153` says that stale recovery keeps a crash from leaving a job
  running for ever. Recovery happens only at boot and only for rows older than the threshold. A row that is
  running when a process boots stays running, untouched, for the whole life of that process exactly if it
  was started within the threshold or the statement was not applied: `Orphans.RunningForGood`.
- The listing at boot is limited to 1000 rows. It reaches every queued row exactly when there are at most
  1000 (`Recovery.ListingReachesAll`); what it passes over stays as it is until another boot
  (`Orphans.LeftOutStays`). That is the only way for a job to stay unfinished in a process to which nothing
  bad happens: `Progress.FinishesExactly`.
- A job can be lost to its process: unfinished and in nobody's hands. That is so exactly if the listing passed
  over it or its holder dropped it in one of eight ways, each a failed or unacknowledged statement or a
  cancellation (`Orphans.AdriftExactly`, `Recovery.Drops`). `Create` then still returns it as accepted, by either
  lookup (`Orphans.ReturnedAdrift`): when the acknowledgement of its insertion was lost
  (`Scenarios.AcceptedAndForgotten`), or when a worker's read failed (`Scenarios.AcceptedAndDropped`). Without a
  key, a lost acknowledgement makes `Create` report an error for a job that stays queued
  (`Orphans.OrphanedIffLost`).
- `docs/DATA_MODEL.md:5` speaks of snapshots per completed job. Every completed job has one
  (`Snapshots.SnapshotsCount`), but a job that is not completed has one too exactly if a worker is about to
  complete it, or a save was applied but not acknowledged, a final write was not applied, or a crash came between
  the two, and no later run of the job made up for it (`Snapshots.SnapshotWithoutCompletion`). Runs that end so:
  `Scenarios.FailedWithSnapshot`, `Scenarios.RunningWithSnapshot`, `Scenarios.FailedAfterCrash`.
- A snapshot may be compared with something other than its predecessor when two workers run jobs for one
  table at once (`Scenarios.SharedPredecessor`). It is compared with its predecessor exactly if the row it was
  compared with was the last saved one at the read and none of its table was saved between the read and the save
  (`Snapshots.PrecedesIffNoneSaved`). The history of a table telescopes whenever no worker reads the previous
  profile while another is about to save one of that table (`Snapshots.DriftTelescopes`).
- "Retry later" does not help a caller who sends the same idempotency key: a job that was rejected because
  the queue was full keeps its key for ever (`Lifecycle.RejectionSpendsKey`).
- `ProfileTable` can succeed with blank columns when its context is cancelled
  (`FanOut.CancelledSuccessIsBlank`). No such result is ever saved, because `SaveProfile` runs under the
  same context (`Snapshots.SavedMeansWhole`).
- The score is recomputable from the failed checks unless a text column reports a negative number of empty
  or blank values that is not allowed (`Quality.PenaltyIsRecomputable`).
- Raising the null threshold above 100 makes it fall back to 20 and can lower the score; it is harmless
  exactly when it stays in range or starts at 20 or below (`Quality.RaisingNullThreshold`).
- Every name of four or more characters ending in "id" counts as a key, "paid" included
  (`Quality.LikelyKeyIsSuffix`).
- The Luhn check misses the swap of 0 and 9, and no other swap of neighbours (`Luhn.SwapDetected`).

## Model

| member | source | states |
|---|---|---|
| Lifecycle.OneHolder | internal/worker/manager.go:39-129 | In every reachable state a job id is in one place at most (Start's list, channel, a worker, a Create call, Stop's drain) and once at most in the channel: no job is ever run by two workers. |
| Lifecycle.SentOnce | internal/worker/manager.go:83-87 | Within one process an id enters the channel at most once, whatever interleaves. |
| Ownership.OwnStep | internal/worker/manager.go:39-129 | Every step keeps exclusive ownership of ids, the fit of the flags with the progress of Start and Stop, and the channel bound. |
| Lifecycle.StatusWritesAreLegal | internal/worker/manager.go:75-129 | In every reachable state every step rewrites at most one row, along queued to running, queued to failed, running to completed or running to failed, and inserts only queued rows; recovery moves stale running rows to queued and nothing else. |
| Lifecycle.TimestampsFit | internal/worker/manager.go:75-129 | Timestamps fit the status of every row ever reachable: none when queued, started only when running, both when completed, finished when failed, and created <= started <= finished <= now. |
| Lifecycle.RowsPersist | internal/store/store.go:32-35 | Along any run rows persist with request, key and creation time; completed and failed rows are never written again. |
| Contents.ErrorsExplained | internal/worker/manager.go:75-129 | Over every run from an empty database: running and completed rows carry no error text, a queued row none or the recovery text, a failed row the text of the full queue, that of the shutdown, or the very error that a worker got in this run for this job from profiling or saving. |
| Contents.RowsAsRequested | internal/worker/manager.go:88-90 | In every state after a Create call, across restarts, the row of its id, once inserted, and the job in the hands of its worker hold exactly the request, key and creation time of that call. |
| Contents.InsertedRow | internal/store/store.go:27-31 | The inserted row, column by column: queued, the ticket's request, key and creation time, no error, no other times. |
| Contents.SnapshotsAsRequested | internal/worker/manager.go:118-123 | Every snapshot of a job, by whichever process it is saved, is of the table its Create call named and carries the quality report of its own columns under the rules of that call. |
| Contents.AsConfigured | internal/worker/manager.go:33-37 | In every state of every run: at least one worker, half an hour as the default threshold, that many workers while serving, and at most 1000 ids in the channel. |
| Lifecycle.CreateIsIdempotent | internal/worker/manager.go:88-104 | Any two Create calls with the same non-empty key that return a job, at any two moments of a run including both sides of restarts and with failing lookups, return the same job. |
| Lifecycle.KeyBinding | migrations/003_idempotency.sql:1-2 | A key stays bound to its row for ever and no second row ever gets it. |
| Lifecycle.EmptyKeyInserts | migrations/003_idempotency.sql:2 | Rows without a key never collide: their insertion is never refused by the index. |
| Recovery.RequeueNeverFails | internal/worker/manager.go:53-62 | The branch of Start for a failed requeue is unreachable: whenever a listed id is left, the channel has room and the manager is not stopped. |
| Recovery.RequeueAll | internal/worker/manager.go:56-63 | Start's loop moves exactly the listed ids into the channel, in order, and then spawns all workers idle. |
| Lifecycle.RejectionSpendsKey | internal/worker/manager.go:98-102 | After a keyed job was failed because the queue was full, in every later state, across restarts, each lookup of the key finds that failed job, each returned call for it returned that job, and no other row can take the key. |
| Recovery.CrashRecovery | internal/worker/manager.go:39-64 | Whenever a process boots after a crash in any state and its statements succeed, with time passing between them as it may: the channel holds the oldest min(1000, n) of the n queued rows, oldest first, all workers are idle, and a row is running exactly if it was started within staleAfter before the recovery; none is if the boot came late enough. |
| Recovery.BootCompletes | internal/worker/manager.go:39-64 | Such a boot can be carried through from every reachable state, for every admissible listing. |
| Recovery.RecoveryLeaves | internal/store/store.go:36-55 | Recovery leaves a row running if and only if it was started within the last staleAfter; the NOT NULL guard skips no running row. |
| Recovery.ListingReachesAll | internal/store/store.go:56-70 | After the listing every queued row is in someone's hands if and only if there are at most 1000 of them. |
| Recovery.NoJobIsLost | internal/worker/manager.go:39-129 | In a run without crash, Stop or store failure that lists at most 1000 rows, every queued row is in exactly one place at every moment and the channel holds at most 1000 ids. |
| Orphans.OnlyHoldersWrite | internal/worker/manager.go:75-129 | Recovery apart, only the participant holding a job writes its row. |
| Orphans.OrphansStay | internal/worker/manager.go:39-129 | A row that nobody holds once the listing is read stays exactly as it is until the process ends, whatever happens. |
| Orphans.LeftOutStays | internal/worker/manager.go:53-62 | Whatever the listing of a boot leaves out, and every row if it fails, stays exactly as it is along every crash-free run from there. |
| Orphans.RunningForGood | internal/store/store.go:36-55 | A row running at boot is still running and untouched at the end of every crash-free run exactly if the recovery was not applied or the row was started within staleAfter; otherwise it is queued at once. |
| Orphans.OrphanedIffLost | internal/worker/manager.go:94-97 | After the insertion of a Create call, with or without a key, the row is in the table and in nobody's hands if and only if the acknowledgement was lost; without a key the call then reports an error while the row stays queued. |
| Orphans.RetryFindsOwnIffLost | internal/worker/manager.go:95 | However much happens before the second lookup, the row it finds is the call's own if and only if the acknowledgement was lost, and then the job returned as accepted is queued and in nobody's hands. |
| Orphans.LostAcknowledgement | internal/worker/manager.go:94-97 | Wherever a keyed insertion is possible it can be orphaned: both steps are enabled and Create returns the orphan. |
| Scenarios.AcceptedAndForgotten | internal/worker/manager.go:88-104 | A run from an empty database ends with a Create call that returned a queued job in nobody's hands. |
| Scenarios.AcceptedAndDropped | internal/worker/manager.go:88-111 | So does a run in which every insertion is acknowledged, a worker's read fails, and a second Create call with the same key finds the job. |
| Recovery.KeptUnlessDropped | internal/worker/manager.go:39-129 | Every step of a process that has listed its jobs keeps an unfinished held row held, unless it is one of the drops. |
| Orphans.AdriftStep | internal/worker/manager.go:39-129 | A job is unfinished and in nobody's hands after a step if and only if it was so before or the step drops it. |
| Orphans.AdriftExactly | internal/worker/manager.go:53-129 | From the listing of any process, at the end of every crash-free run with any failures and Stop: a job is unfinished and in nobody's hands if and only if the listing passed over it (or failed) or some step of the run dropped it. |
| Orphans.ReturnedAdrift | internal/worker/manager.go:88-104 | Whichever way a Create call returns, by either lookup or by enqueueing, the job it returns is unfinished and in nobody's hands if and only if the listing had passed over it or some earlier step had dropped it. |
| Progress.SomeWorkerMoves | internal/worker/manager.go:105-129 | While a job that the process has taken on or accepted is unfinished, some worker has a step it can make. |
| Progress.WorkingRun | internal/worker/manager.go:53-129 | From the listing on, calm runs with any Create calls keep account of every unfinished row: someone holds it, unless the listing passed over it, and those nobody holds. |
| Progress.FinishesExactly | internal/worker/manager.go:53-129 | From the listing of any process, after any calm run with any Create calls, once neither workers nor calls can go on, a job is completed or failed exactly if it is not one of the unfinished rows the listing passed over; so is every job that a Create call returned. |
| Progress.EveryJobFinishes | internal/worker/manager.go:39-129 | For a boot late enough for the running rows and with at most 1000 queued rows: after any calm run, once nothing is left to do, every job in the table and every job Create returned is completed or failed. |
| Progress.AllAcceptedJobsFinish | internal/worker/manager.go:105-129 | From the listing on, after any calm run up to a moment with no Create in flight: under every schedule of the workers the rest is bounded, cannot get stuck before all jobs taken on or accepted are terminal, and has come there exactly when 2 x queued + running status writes were made from that moment on. |
| Progress.RestartServes | internal/worker/manager.go:39-64 | After a crash in any state and a fault-free restart with at most 1000 jobs to do, the new process holds every unfinished job. |
| Progress.RestartFinishesAll | internal/worker/manager.go:39-129 | From there, once the workers have nothing left to do, every job ever accepted before the crash is completed or failed, with its request, key and creation time unchanged. |
| Progress.StopTerminates | internal/worker/manager.go:65-74 | After Stop was called the steps of workers and Stop are bounded by a measure (ids in the channel, Enqueues that read stopped=false but have not sent yet, what workers have in hand), and until Stop returns one of them can move. |
| Progress.NothingRunsAfterStop | internal/worker/manager.go:65-74 | Once the workers are gone no row becomes running again in that process, and Start is a no-op. |
| Progress.DrainedJobsFail | internal/worker/manager.go:73-82 | Every id in the channel when the drain begins is marked failed by the time Stop returns, if the store answers. |
| Progress.ClosedHandleFreezesTables | cmd/server/main.go:39-47 | Once the database handle is closed neither table changes until the next boot, so the deferred Stop marks nothing. |
| Snapshots.SavedMeansWhole | internal/worker/manager.go:113-124 | Every profile row ever saved has one fully measured entry per discovered column, in discovery order. |
| Snapshots.SnapshotsCount | internal/worker/manager.go:109-129 | Every completed job has a saved profile, and a job never has more profiles than times it was marked running, across crashes. |
| Snapshots.SnapshotWithoutCompletion | internal/worker/manager.go:109-129 | Over every run from an empty database, with crashes and any answers: a job that is not completed has a snapshot if and only if a worker is about to complete it, or some step separated the two (unacknowledged save, final write of an error-free job not applied, crash between save and final write) and no later acknowledged save of the job followed. |
| Snapshots.StrayStep | internal/worker/manager.go:121-128 | The same for one step of anyone, in both directions. |
| Snapshots.FateOfSave | internal/worker/manager.go:121-128 | When a worker gets to its final write, whatever happened since the save: failed with a snapshot exactly if the save's acknowledgement was lost and the final write applied, left running in nobody's hands exactly if the final write was not applied. |
| Scenarios.FailedWithSnapshot | internal/worker/manager.go:123-128 | A run from an empty database ends with a failed job that has a snapshot. |
| Scenarios.RunningWithSnapshot | internal/worker/manager.go:123-128 | A run from an empty database ends with a running job that has a snapshot and that nobody holds. |
| Scenarios.FailedAfterCrash | internal/worker/manager.go:109-129 | A run with a crash between save and final write, recovery, and a second run that fails, ends with a failed job that has a snapshot. |
| Scenarios.SharedPredecessor | internal/worker/manager.go:121-123 | A run of two workers ends with two snapshots of one table compared with the same predecessor; the reported differences sum to -10 although the score fell by 5. |
| Snapshots.DriftTelescopes | internal/worker/manager.go:121-123 | For one table, any number of workers and any disorder elsewhere: if no worker reads the table's previous profile while another is about to save one, with its creation times increasing and its reads successful, every snapshot of the table after the first carries the comparison with its predecessor, and the score deltas sum to last score minus first, across restarts. |
| Snapshots.PrecedesIffNoneSaved | internal/worker/manager.go:122-123 | For any profiles table, however much happens between reading the previous profile and the save: the row compared with stands directly before the new one in the table's history if and only if it was the last saved one at the read (which increasing creation times ensure) and none of the table was saved in between; then the new snapshot carries the comparison with its predecessor. |
| Snapshots.HistoryFollows | internal/store/store.go:103-110 | A table whose snapshots are chained has a history that telescopes, whatever the other tables look like. |
| Snapshots.LatestIsLast | internal/store/store.go:103-110 | Where a table's creation times increase, the row the lookup of the previous profile returns is the last one of its history. |
| Snapshots.DriftEndpointIsLatest | internal/api/router.go:123-136 | Where a table's creation times increase, the drift endpoint's first history row is the newest snapshot; in a chained history it carries the comparison with the one before it. |
| Managers.Manager.constructor | internal/worker/manager.go:33-37 | The defaults for the number of workers and the stale threshold; a fresh memory on whatever tables earlier processes left. |
| Managers.Manager.Start | internal/worker/manager.go:39-64 | A second Start changes nothing; the first recovers, fills the channel with the oldest queued rows (or nothing when the listing fails, which needs a failing store) and leaves every worker idle, as a run of the step relation. |
| Managers.Manager.Recall | internal/worker/manager.go:40-55 | The flags and the two statements of Start, with the failure of either ignored. |
| Managers.Manager.RequeueListed | internal/worker/manager.go:56-63 | The loop over the listed jobs enqueues all of them, in order. |
| Managers.Manager.Enqueue | internal/worker/manager.go:83-87 | Accepts exactly when not stopped and the channel holds fewer than 1000 ids; then appends the id, otherwise changes nothing. |
| Managers.Manager.Create | internal/worker/manager.go:88-104 | A run of the step relation whose new Create call ends Returned or Errored; a returned job is in the table under the given key; only the new id's row changes, and only that id can enter the channel. If the store answers: a taken key returns its job and changes nothing, a stopped manager rejects without a trace, and otherwise the row holds the given request and key, queued and in the channel if that has fewer than 1000 ids, or failed with the text of the full queue. |
| Managers.Manager.Insert | internal/worker/manager.go:94-103 | Insertion with its second lookup on failure, then delivery, as steps of the call; the outcome is determined when the store answers. |
| Managers.Manager.Deliver | internal/worker/manager.go:98-103 | Delivered exactly when not stopped and there is room; otherwise the row is marked failed with the queue-full error, and left queued only if the store does not answer. |
| Managers.Manager.Stop | internal/worker/manager.go:65-74 | For workers in any state, with whatever everybody else does during the wait: once stopped, a no-op; otherwise ends stopped and cancelled with an empty channel; the rows of the ids in the channel after the wait, all queued, are failed with the shutdown text and time if the store answered, as a healthy one does, and no other row or column changes. |
| Managers.WaitKeeps | internal/worker/manager.go:71-72 | Nothing that anybody else does while Stop waits undoes the stop or the cancellation. |
| Managers.IdleWorkersLeave | internal/worker/manager.go:105-108 | Idle workers see the cancellation and leave, and the tables and the channel stay as they are. |
| Managers.Manager.FailQueuedJob | internal/worker/manager.go:75-82 | Writes nothing but this row, only if it was queued, to failed with the shutdown text and the time. |
| Managers.Manager.Receive | internal/worker/manager.go:105-108 | The select of a worker: takes the head of the channel, or exits if the context is cancelled. |
| Managers.Manager.Claim | internal/worker/manager.go:110-112 | Loads the row and marks it running, with the error cleared and the starting time, or gives up, which it does only if the context is cancelled or the store fails; no other row changes. |
| Managers.Manager.Appraise | internal/worker/manager.go:121-122 | The row to be saved is the measured profile with its quality report, and any drift it carries compares it with the newest snapshot of its table; under a living context and a healthy store it carries none only if there is no such snapshot. |
| Managers.Manager.Snapshot | internal/worker/manager.go:118-124 | Without an error exactly one profile row was appended, the one for the measured table; under a finished context nothing was. |
| Managers.Manager.Run | internal/worker/manager.go:109-129 | The worker ends idle. A persisted outcome is exactly: completed with no error text, or failed with the text of the error; started and finished stamped; request, key and creation time as before; no other row changed. Completed means that exactly the snapshot of what was found was saved, column by column with its labels, scored under the request's rules. Under a cancelled or expired context the job neither completes nor saves; with a healthy store and no cancellation it completes if and only if it was profiled in time, and is failed otherwise. |
| Managers.Manager.Conclude | internal/worker/manager.go:126-128 | The final status write, column by column: failed with the given text or completed, the finishing time, and everything else as it was. |
| Stores.Store.CreateJob | internal/store/store.go:27-31 | Inserts the row with the given status, request, key and creation time and nothing else, unless the id or the key is taken; a refused insertion changes nothing. |
| Stores.Store.UpdateJob | internal/store/store.go:32-35 | Rewrites status, error and the two timestamps of this row only. |
| Stores.Store.RecoverStaleRunningJobs | internal/store/store.go:36-55 | Requeues exactly the running rows started before now less the threshold, with the recovery text and no times, and returns their number. |
| Stores.Store.ListQueuedJobs | internal/store/store.go:56-70 | The oldest queued rows, at most the clamped limit, oldest first. |
| Stores.Store.GetJobByIdempotencyKey | internal/store/store.go:72-80 | A found id is one whose row carries the key. |
| Stores.Store.SaveProfile | internal/store/store.go:90-94 | Appends the row or changes nothing. |
| Stores.Store.GetPreviousProfile | internal/store/store.go:103-110 | A newest row of the schema and table. |
| Stores.Store.GetLatestProfile | internal/store/store.go:95-102 | A newest row of the job. |
| Stores.Store.GetProfileHistory | internal/store/store.go:111-125 | The newest rows of the schema and table, newest first, at most the clamped limit (20 when out of range). |
| FanOut.BoundedParallelism | internal/adapters/profile.go:68-100 | In every schedule at most min(4, number of columns) columns are being profiled at once. |
| FanOut.FullParallelism | internal/adapters/profile.go:69-76 | And that many can be: for every table some schedule has min(4, number of columns) columns in flight. |
| FanOut.RefinesSequential | internal/adapters/profile.go:68-105 | Under a live context every schedule fails exactly when some column fails, with the error of such a column, and otherwise yields the sequential result. |
| FanOut.ErrorSticks | internal/adapters/profile.go:91-103 | Any error that a column returned makes the table fail, even after cancellation. |
| FanOut.FanOutTerminates | internal/adapters/profile.go:80-101 | Every goroutine finishes: each step uses up work, and until all are done one can move. |
| FanOut.CancelledSuccessIsBlank | internal/adapters/profile.go:85-88 | For every table there is a cancelled schedule without an error in which every column is blank. |
| Drift.Compare | internal/drift/drift.go:9-77 | Lists every difference of the two profiles exactly once, whatever the map order; changed exactly when there is one. Of the two column lists: the last column of a name counts; type, nullability, distinct-count and PII changes if they differ, null and distinct percentages from 10 points on, outlier percentages from 5, up or down; removed and added names. |
| Drift.CompareColumn | internal/drift/drift.go:34-61 | The changes of one column, each exactly once, with the thresholds in points. |
| Drift.ReportSays | internal/drift/drift.go:9-85 | Every report, in whatever order, says exactly that of the two column lists. |
| Drift.OrderIndependent | internal/drift/drift.go:26-69 | Any two iteration orders report the same multiset of changes. |
| Drift.SelfCompare | internal/drift/drift.go:9-77 | A profile compared with itself reports nothing, even with repeated column names. |
| Drift.CompareMirrors | internal/drift/drift.go:9-85 | Comparing the other way round mirrors the report: added and removed, old and new swapped, the score delta negated. |
| Quality.Evaluate | internal/quality/quality.go:15-163 | The loop computes the closed-form report, and it fulfils the criteria: exactly the checks that each column's counts call for, in order, with verdict, severity, threshold and value, and 100 points less what they cost, floored at 0. |
| Quality.ReportFulfils | internal/quality/quality.go:33-163 | The same of the closed form, against a reference stated on the counts: types by the words they mention in either case, thresholds 20, 80 and 95 without rules or out of range, costs 10, 5, 3, 2, 3 and 5. |
| Quality.BlockIs | internal/quality/quality.go:33-152 | One column: each of the ten kinds of check appears exactly under its condition, once, in order, with its verdict and values. |
| Quality.TextIs | internal/quality/quality.go:184-187 | A type is text exactly if it mentions char, text or string, in capitals or small letters. |
| Quality.DateTimeIs | internal/quality/quality.go:189-192 | The same for date, time and timestamp. |
| Quality.NumericIs | internal/quality/quality.go:194-197 | The same for the seven numeric words. |
| Quality.Lower | internal/quality/quality.go:210-218 | In-place lower-casing changes exactly the ASCII capitals. |
| Quality.ContainsAny | internal/quality/quality.go:199-208 | The search loop finds a substring exactly when one of the values occurs. |
| Quality.PenaltyIsRecomputable | internal/quality/quality.go:33-158 | What is taken off equals the weights of the failed checks if and only if no text column has a negative count that is not allowed. |
| Quality.ScoreIsRecomputable | internal/quality/quality.go:154-163 | For non-negative counts the score is 100 minus the weights of the failed checks, floored at 0, and lies in 0..100. |
| Quality.ScoreIgnoresOrder | internal/quality/quality.go:33-158 | Permuting the columns leaves the score unchanged. |
| Quality.ColumnNeverRaisesScore | internal/quality/quality.go:33-158 | Adding a column anywhere never raises the score. |
| Quality.LaxerNeverLowersScore | internal/quality/quality.go:16-29 | Raising the resolved null threshold or allowing empties or whitespace never lowers the score. |
| Quality.ScoreIgnoresHints | internal/quality/quality.go:65-91 | Dominant-value and cardinality thresholds do not affect the score. |
| Quality.RaisingNullThreshold | internal/quality/quality.go:27 | Raising the configured null threshold from x to y never lowers a score if and only if y <= 100 or x <= 20. |
| Quality.LikelyKeyIsSuffix | internal/quality/quality.go:179-182 | A name is a likely key exactly when it is "id" or a longer name of at least four characters ending in "id". |
| Luhn.Check | internal/pii/detect.go:142-159 | The loop accepts exactly the strings of 13 to 19 characters whose digits in odd places from the right, and digit sums of doubles in even places, add up to a multiple of 10. |
| Luhn.DigitsOnly | internal/pii/detect.go:132-140 | Keeps exactly the ASCII digits, in order. |
| Luhn.MatchesCreditCard | internal/pii/detect.go:101-103 | The credit-card verdict is that on the digits: 13 to 19 of them, with that sum by places. |
| Luhn.SumByPlaces | internal/pii/detect.go:146-157 | The recursive Luhn sum is the sum by places. |
| Luhn.DoubledDigitSum | internal/pii/detect.go:148-154 | A doubled digit contributes the digit sum of its double. |
| Luhn.DigitsOneByOne | internal/pii/detect.go:132-140 | A digit is kept and everything else dropped, character by character. |
| Luhn.TestNumberAccepted | internal/pii/detect.go:101-103 | "4111 1111 1111 1111" is accepted. |
| Luhn.SingleErrorDetected | internal/pii/detect.go:146-158 | Changing one digit of a valid number of any length invalidates it. |
| Luhn.SwapDetected | internal/pii/detect.go:146-158 | Swapping two neighbours of a valid number keeps it valid if and only if they are equal or are 0 and 9. |
| Luhn.UniqueCheckDigit | internal/pii/detect.go:146-158 | Every payload has exactly one valid check digit. |
| Luhn.SeparatorsIgnored | internal/pii/detect.go:101-103 | Inserting non-digits anywhere never changes the credit-card verdict. |
| Quoting.ReadsIdentifier | internal/adapters/adapter.go:113 | A quoted name reads back as itself, whatever it contains, and the reader stops exactly where it ends. |
| Quoting.ReadsOnlyQuoted | internal/adapters/adapter.go:163 | Conversely the reader of delimited identifiers accepts nothing but quoted names. |
| Quoting.PostgresText | internal/adapters/adapter.go:113 | Quotation marks around the name, each of them doubled inside, nothing else changed. |
| Quoting.MySQLText | internal/adapters/adapter.go:163 | The same with backticks. |
| Quoting.SQLServerText | internal/adapters/adapter.go:207 | The same with brackets, the closing one doubled. |
| Quoting.ReadsList | internal/adapters/profile.go:109-111 | Joined quoted names read back as the list of names. |
| Quoting.GroupColumns | internal/adapters/profile.go:109-111 | The loop that quotes and joins the column names writes a list that reads back as those names. |
| Quoting.QuotingInjective | internal/adapters/profile.go:35 | Two tables never share a quoted schema.table, and two column lists never share a quoted list. |
| Histogram.AddNumericHistogram | internal/adapters/profile.go:272-299 | The loops over rows and buckets produce the bins, and none when limits or rows are missing. |
| Histogram.BucketIsBin | internal/adapters/adapter.go:180 | The bucket of a value is in 0..9 and is i exactly when the value lies in bin i (half-open, the last one closed). |
| Histogram.HistogramConserves | internal/adapters/profile.go:278-298 | For every non-empty column the counts of the bins sum to the number of values and the percentages to 100, equal limits included. |
| Histogram.HistogramIsTenths | internal/adapters/profile.go:278-298 | The histogram is exactly the inhabited tenths of the range in ascending order, each with its bounds, the number of values in it and their share; one full bin if all values are equal. |
| Histogram.EveryValueIsBinned | internal/adapters/profile.go:291-298 | Every value lies in a bin of the result, whose count is the number of values within its limits. |

## Left out

- HTTP routing, JSON encoding, configuration, logging, metrics and deployment files.
- Real database execution: the SQL of `profileColumn`, correlations, relationships, sampling and column
  discovery. What a column's queries answer is an arbitrary value or error.
- The PostgreSQL histogram expression (`internal/adapters/adapter.go:130`), whose parentheses do not balance.
  The MySQL expression stands for the bucket formula.
- Floating-point rounding: thresholds, percentages, scores and bins are exact. The width of Go's integers:
  counts are unbounded.
- Regular expressions, entropy, skewness, kurtosis, percentiles, IPv4 and the other value labels.
- `DetectProfile`'s matching of column names, whose label depends on map order; the label is an arbitrary
  value of the measurement step.
- The wording of details and changes (`Sprintf`): they are structured values.
- Several instances on one metadata database, which the repository does not support.
- A `Create` or `Stop` that overlaps `Start`: the server does not do that.
- The endless loop around the workers' select: `Managers.Manager.Receive` and `Managers.Manager.Run` are one
  round of it. How the rounds of several workers interleave is what `Protocol` models.
- Managers.Manager.Stop: what everybody else does while it waits is a parameter, a run of the step relation at
  whose end the workers have exited; that the wait ends is Progress.StopTerminates.
- Snapshots.DriftTelescopes: a run with concurrent jobs for one table can still telescope by chance, as when the
  profiles are equal; what is exact, snapshot by snapshot, is Snapshots.PrecedesIffNoneSaved.
- Progress.FinishesExactly: for runs without crash, Stop or store failure; after a crash Recovery.CrashRecovery
  and Progress.EveryJobFinishes apply to the next process.
- Progress.DrainedJobsFail: speaks of the ids in the channel when the workers are gone; a row whose
  `Create` was rejected meanwhile is failed by that call, or stays queued if its write fails.
