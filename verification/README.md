# Volli Cloud backend: a verified model

A model of the Volli Cloud backend in Dafny, and proofs about it. Every mutation
is one atomic transaction over tables; an action is a small program whose steps
interleave with everything else. Tables are maps, a mutation is a function from
tables to tables, the clock is a parameter, and nonces, run ids and ids are fresh
values. Each module holds three things: the functions, what is proved about all
runs of them, and a class whose methods change the fields in place, as the
backend does, and are proved to do what the functions say.

| file | what it models |
|---|---|
| `RunnerInbox*.dfy` | the lease queue of runner jobs, fenced by boot and attempt |
| `PurgeDrain.dfy`, `PurgePlan.dfy` | the budgeted tree delete of one purge link, and what the backend's purge plan reaches |
| `ProjectMove*.dfy` | moving a project, rolling back, cancelling, and the purge with its runs, object workers and cron |
| `ImportDigest.dfy` | row batches and the accumulators a commit verifies |
| `Secrets*.dfy` | setting, re-wrapping and delivering team secrets, and when a root key can be dropped |
| `GithubRefresh*.dfy`, `GithubFlows*.dfy`, `Reconcile.dfy` | the GitHub refresh lease, the connect and install flows, the installation reconcile |
| `Credentials.dfy`, `LinkAttempts.dfy`, `Handover.dfy` | runner credentials (the rotation of section 4.14.2 of RFC 9700), device-code attempts, the handover of a replaced runner's work |
| `Positions.dfy`, `Board.dfy` | position keys, and every writer of them on the board |
| `SponsorCascade.dfy` | withdrawing sponsored preview grants through the sponsor graph |

Five promises are false as stated. Each has a run from the start that shows it,
and the exact condition under which it holds:

- A purge run left behind by a restart can still delete after the move is purged
  (`convex/functions/projectImportPurge.ts:29-32` says it cannot). Run: `LateDelete`.
  It deletes nothing more if and only if it held no claimed batch when it was
  superseded (`NothingLeftToDeleteExactly`).
- A root key may not be dropped as soon as no data key is under it
  (`convex/functions/secretKeys.ts:11-14`). Run: `DropTooSoon`. Everything stays
  openable if and only if, besides, no set and no re-wrap pass under way can still
  put a data key under it (`MayDropExactlyWhen`); `CheckedBeforeDrop` is a check
  an operator can make.
- A lease can be forgotten when its check runs while the project is hidden. Run:
  `HiddenProjectForgetsALease`. It is not, if and only if no check is dropped then
  as the last one of its lease (`NoLeaseForgotten`); a claim from a new boot still
  takes a forgotten lease back (`NewBootTakesItBack`).
- A stopped purge can be restarted by the cron. Run: `StoppedIsRestarted`. It stays
  stopped if and only if the worker of its own run does not report a passing
  failure over the stop (`StoppedUntilOverwritten`), and the cron restarts it if and
  only if that worker's claims have also reset the restart count
  (`RestartedExactlyWhen`).
- A box can be stranded or cut off by its own request when that arrives after the
  box gave up on it, before or after the first use of what it saved. Runs:
  `DelayedBeforeFirstUse`, `DelayedRequestCutsOff`. It is not, if and only if no
  step is one of those of `StrandedExactlyWhen` (`GoesOnExactlyWhen`).

The refresh lease needs its two timing assumptions:
`SlowReaderStrandsTheConnection` and `LateReplyStrandsTheConnection` each break one
of them alone. The bound on device-code misses is sharper than twice the limit:
nineteen in any ten minutes, and nineteen are reached.

Check everything with `dafny verify dfyconfig.toml`.

## Model

| member | source | states |
|---|---|---|
| `RunnerInboxProofs.RunKeeps` | convex/functions/runnerJobs.ts:145-456 | every interleaving of claims, renewals, completions, checks, withdrawals, handovers and hidden projects keeps the row invariant, and every row only evolves forward |
| `RunnerInboxProofs.AttemptsAndBoots` | convex/functions/runnerJobs.ts:129-143 | over any run an attempt number never falls, never exceeds five, and one attempt keeps one boot |
| `RunnerInboxProofs.FinishedStaysFinished` | convex/functions/runnerJobs.ts:288-361 | `done`, `failed` and `cancelled` rows never change again; `expired` changes at most once, into `done` or `failed` |
| `RunnerInboxProofs.RecordedExactlyWhen` | convex/functions/lib/jobs.ts:500-533 | a completion is recorded if and only if the shown job is the caller's, the reference is its latest lease and that attempt has not told its last; otherwise nothing changes |
| `RunnerInboxProofs.RecordedAtMostOnce` | convex/functions/runnerJobs.ts:288-361 | over any run at most one completion per job and attempt is recorded |
| `RunnerInboxProofs.RetriedAfterBackoff` | convex/functions/runnerJobs.ts:376-402 | a failure that may be retried costs its attempt and five seconds to ten minutes: no claim touches the job before that, and a claim with room after it leases it at the next attempt or withdraws it |
| `RunnerInboxProofs.RenewalExtends` | convex/functions/runnerJobs.ts:235-265 | a renewal never shortens a lease, changes nothing else of the job but a queued status, and leaves the attempt able to report |
| `RunnerInboxProofs.OlderAttemptsAreFenced` | convex/functions/runnerJobs.ts:235-361 | once a newer attempt is leased, an older one's renewals and completions change nothing, and its checks only leave the schedule |
| `RunnerInboxProofs.ClaimLeavesNothingReady` | convex/functions/runnerJobs.ts:177-232 | a claim below its limits leaves no due job of a shown project waiting: it is leased to the caller at the next attempt, or withdrawn |
| `RunnerInboxProofs.MorePressingFirst` | convex/functions/runnerJobs.ts:189-210 | a claim never takes a due job and leaves a more urgent or older one |
| `RunnerInboxProofs.CoverLostExactlyWhen` | convex/functions/runnerJobs.ts:118-127 | one step loses the pending check of a lease that had one if and only if a check of the job fires while its project is hidden and no other check of that lease is pending |
| `RunnerInboxProofs.NoLeaseForgotten` | convex/functions/runnerJobs.ts:255-263 | over any stretch a leased job always has a check of its attempt due no later than its expiry, if and only if it had one at first and no such last check is dropped |
| `RunnerInboxProofs.HiddenProjectForgetsALease` | convex/functions/runnerJobs.ts:118-127 | a run from an empty inbox in which that happens: when the project is shown again the job is leased, past its expiry, and nothing is scheduled |
| `RunnerInboxProofs.ForgottenUntilActedOn` | convex/functions/runnerJobs.ts:433-456 | no check ever ends a forgotten lease: it lasts, boot and attempt unchanged, until a claim from another boot, a completion, a refused renewal or a withdrawal acts on it |
| `RunnerInboxProofs.NewBootTakesItBack` | convex/functions/runnerJobs.ts:173-188 | a claim from a new boot still takes a forgotten lease back: at the next attempt and checked again, withdrawn, or dead-lettered after the last attempt |
| `RunnerInboxProofs.DueChecksEndTheLease` | convex/functions/runnerJobs.ts:408-456 | once a covered lease has run out and the due checks ran in any order, the job is queued with its backoff, or dead-lettered on the last attempt |
| `RunnerInboxOutcomes.OutcomeStored` | convex/functions/runnerJobs.ts:288-402 | what a recorded completion stores and answers: a storable result makes the job done with it, one that is not storable fails it as `invalid_job_result`, and a failure with its code fails it, or queues it for 5, 20, 80 or 320 seconds exactly when it may be retried, is not the fifth and was not given up |
| `RunnerInboxOutcomes.ResultStays` | convex/functions/runnerJobs.ts:288-361 | over any run a stored result is there, and the job done, at every later moment |
| `RunnerInboxOutcomes.NotRecorded` | convex/functions/runnerJobs.ts:288-312 | a completion that records nothing changes nothing and answers gone, cancelled, fenced, or duplicate with the status there is |
| `RunnerInboxOutcomes.RenewalAnswers` | convex/functions/runnerJobs.ts:235-285 | a renewal extends exactly the latest attempt that runs or ran out without a word while its owner may work there, to the later of what it had and asked; otherwise it withdraws or changes nothing, and says why |
| `RunnerInboxOutcomes.AskedFor` | convex/functions/runnerJobs.ts:112-115 | a renewal asks for a minute unless it says, within a second and half an hour |
| `RunnerInboxOutcomes.LimitAsked` | convex/functions/runnerJobs.ts:112-115 | a claim asks for 32 jobs unless it says, within one and 32 |
| `RunnerInboxOutcomes.ChosenIsHandedOrWithdrawn` | convex/functions/runnerJobs.ts:212-232 | of the jobs a claim chose it leases exactly those of projects the owner may work in whose access was not lost, at the next attempt and with a check; it withdraws the others and says why |
| `RunnerInboxOutcomes.OthersInAClaim` | convex/functions/runnerJobs.ts:173-188 | any other job is as it was, but a lease of an earlier boot after its fifth attempt, which is given up |
| `RunnerInboxOutcomes.NotAnswered` | convex/functions/runnerJobs.ts:145-165 | a caller without a boot id, or whose release is barred, gets nothing and changes nothing |
| `RunnerInboxOutcomes.CheckLooks` | convex/functions/runnerJobs.ts:433-456 | a check queues a lease that ran out for its wait, or gives it up after five attempts; an early one moves to the lease's end; any other changes no job |
| `RunnerInboxOutcomes.WithdrawnFor` | convex/functions/lib/jobs.ts:472-491 | a withdrawal ends an open job for good with its reason and attempt; a finished one stays as it is |
| `RunnerInboxTable.Inbox.Claim` | convex/functions/runnerJobs.ts:145-232 | the claim in place is the claim on the tables, and answers exactly the jobs that one hands out |
| `RunnerInboxTable.Inbox.Renew` | convex/functions/runnerJobs.ts:235-265 | the renewal in place, with its reply and the new scheduled check |
| `RunnerInboxTable.Inbox.Complete` | convex/functions/runnerJobs.ts:288-361 | the completion in place, with its reply (`OutcomeStored` and `NotRecorded` say both by values) |
| `RunnerInboxTable.Inbox.ExpireLease` | convex/functions/runnerJobs.ts:433-456 | the scheduled check in place: nothing, a retry, or a dead letter |
| `PurgeDrain.ProjectPurgeFollows` | convex/functions/lib/projectPurge.ts:54-150 | the backend's purge plan gives a table the same children wherever it appears |
| `PurgeDrain.Purger.Drain` | convex/functions/projectImportPurge.ts:223-250 | draining a node deletes only the project's own rows reached under the owner, never leaves an orphan, counts what it deletes, and answers `Drained` only with nothing left under the owner |
| `PurgeDrain.Purger.Link` | convex/functions/projectImportPurge.ts:309-328 | one link deletes at most 256 rows and fewer bytes than the limit plus one row; out of budget it deleted at least one row; drained it left nothing reachable at any depth; a foreign row is really there, in the table it names, and says another project |
| `PurgeDrain.NothingLeft` | convex/functions/projectImportPurge.ts:223-250 | with nothing left under the owner and no orphan, nothing that was reachable is left at any depth |
| `PurgeDrain.LinksAddUp` | convex/functions/projectImportPurge.ts:309-328 | orphan-freedom composes over the links of a chain |
| `PurgeDrain.ChainEnds` | convex/functions/projectImportPurge.ts:309-328 | a chain has at most as many unfinished links as there were rows |
| `PurgeDrain.ChainPurgesEverything` | convex/functions/projectImportPurge.ts:309-328 | after the link that drains the plan nothing the first link could reach is left |
| `PurgePlan.PlanReachesExactly` | convex/functions/lib/projectPurge.ts:1-28 | whatever the tables hold the plan reaches exactly the rows of the project: those that name it, those that hang under one of them, and those that hang under these |
| `PurgePlan.LinkTakesOnlyItsOwn` | convex/functions/lib/projectPurge.ts:10-19 | a link takes only rows of the project that name no other; every other row, one that points into the project too, stays as it is |
| `PurgePlan.ChainTakesTheProject` | convex/functions/lib/projectPurge.ts:21-28 | after the link that drains the plan no row of the project is left |
| `PurgePlan.UnderIsTheProject` | convex/functions/lib/projectPurge.ts:5-15 | what a link counts under a project are the project's rows |
| `ProjectMoveProofs.StepKeeps` | convex/functions/projectImports.ts:307-1088 | every event of a move, its purge and its object workers keeps the move invariant |
| `ProjectMoveRuns.EmptyIsGood` | convex/functions/projectImports.ts:307-1088 | the backend without moves meets the invariant: every run can start there, as the two runs from it do |
| `ProjectMoveProofs.NeverTaken` | convex/functions/projectImportPurge.ts:258-276 | in a reachable state the purge of an aborting move never finds its project id taken by another |
| `ProjectMoveRuns.AtMostOneHolder` | convex/functions/projectImports.ts:355-368 | in any run two moves of one project are never both unpurged |
| `ProjectMoveRuns.BegunAgain` | convex/functions/projectImports.ts:325-353 | a reservation sent again, however late in the run, changes nothing and answers how far the move is; any other reservation under its id is a conflict |
| `ProjectMoveRuns.ReservedExactlyWhen` | convex/functions/projectImports.ts:355-368 | beginning writes exactly when the move id is new and neither an unfinished or committed move nor a project holds the project id |
| `ProjectMoveGuards.Reserves` | convex/functions/projectImports.ts:355-397 | a new move id reserves a free project; an unfinished move of it, else a committed one or a project there, refuses it by that name and nothing is written |
| `ProjectMoveGuards.RowsLand` | convex/functions/projectImports.ts:695-730 | rows land exactly for an open move whose project is stored hidden, and the project row once |
| `ProjectMoveRuns.ShownExactlyWhileCommitted` | convex/functions/projectImports.ts:860-885 | a moved project is shown exactly while its move is committed |
| `ProjectMoveRuns.OpenAndNeverRolledBack` | convex/functions/projectImports.ts:913-957 | an open move that was never rolled back was never committed at any earlier point of the run |
| `ProjectMoveRuns.RolledBackWasShown` | convex/functions/projectImports.ts:913-957 | a move marked rolled back was committed at some earlier point of the run |
| `ProjectMoveGuards.CommittedExactlyWhen` | convex/functions/projectImports.ts:816-905 | a commit goes through exactly when the move is open, its project in place and hidden, the manifest the reserved one and every stream arrived; then that project is shown, that move committed, and nothing else changes |
| `ProjectMoveGuards.RolledBackExactlyWhen` | convex/functions/projectImports.ts:920-957 | a roll back goes through exactly when the move is committed, its project there, not deleted and in its Workspace, and nothing changed or the caller confirmed; then that project is hidden, that move imports again, and nothing else changes |
| `ProjectMoveGuards.LeavesOnlyByRollBack` | convex/functions/projectImports.ts:913-957 | a committed project leaves the shown state only by its roll back, unconfirmed only when it is told unchanged |
| `ProjectMoveGuards.OnlyRollBack` | convex/functions/projectImports.ts:913-957 | of all events only that ends a move's being committed |
| `ProjectMoveGuards.ChangedLeavesOnlyConfirmed` | convex/functions/projectImports.ts:941-947 | over any run a project changed since its commit leaves the shown state only by a confirmed roll back |
| `ProjectMoveRuns.CancelledStays` | convex/functions/projectImports.ts:981-1010 | an aborting or purged move never opens again, and a purged one never changes |
| `ProjectMoveLinks.AbortedExactlyWhen` | convex/functions/projectImports.ts:981-1010 | an abort cancels exactly an open move and starts its purge, restarts exactly a purge that failed, stopped or is overdue, where it was and with no restart counted, and leaves anything else alone |
| `ProjectMoveLinks.RescuedExactlyWhen` | convex/functions/projectImports.ts:1025-1066 | the operator's abort restarts the purge of any move that is neither committed nor purged, and keeps when it was first cancelled |
| `ProjectMoveRuns.NoRowsWhileAborting` | convex/functions/projectImports.ts:695-730 | while a move is aborting no event adds a row to its project or brings its project row back |
| `ProjectMoveRuns.RowsOnlyLeave` | convex/functions/projectImports.ts:981-1010 | over any stretch of a cancelled move the rows of its project only leave |
| `ProjectMoveRuns.PurgedLeavesNothing` | convex/functions/projectImportPurge.ts:522-557 | a move becomes purged only from its objects phase, with its project row gone and no row left under it (`Imports.Step` derives the row counts from the drain) |
| `ProjectMoveLinks.LinkRecords` | convex/functions/projectImportPurge.ts:279-355 | what a link of the run in charge records: rows deleted and counted, a stop at a foreign row, the audit log page by page, and the project row taken, and the objects begun, only with the last page |
| `ProjectMoveLinks.ForeignRowStops` | convex/functions/projectImportPurge.ts:316-326 | a link that meets a foreign row stops the purge, and the cron then leaves it alone |
| `ProjectMoveLinks.PlansAll` | convex/functions/projectImportPurge.ts:371-403 | the worker in charge plans every prefix the purge may take, once the uploads of the cancelled move have expired and not before, and a claim is granted exactly for those |
| `ProjectMoveLinks.BatchByBatch` | convex/functions/projectImportPurge.ts:439-519 | a listed page goes eight keys at a time: a granted claim takes the first eight, each DELETE its object, and the worker lists again only with none left |
| `ProjectMoveLinks.BatchCounted` | convex/functions/projectImportPurge.ts:406-422 | a claim counts the batch before it exactly for the run in charge, and resets the restarts exactly when that deleted something |
| `ProjectMoveLinks.FinishedExactlyWhen` | convex/functions/projectImportPurge.ts:522-557 | a purge ends exactly by the finish of its run in charge in the objects phase, with its last deletes counted and what it skipped |
| `ProjectMoveLinks.EachObjectCountedOnce` | convex/functions/projectImportPurge.ts:406-557 | over each step of the worker in charge, what is counted or still to be counted rises by the object a DELETE took and by nothing else |
| `ProjectMovePurge.RowsOnlyWhileHidden` | convex/functions/projectImportPurge.ts:279-355 | whatever the tables hold, a link changes a project or its rows only for the run in charge and while the project is hidden under this move |
| `ProjectMovePurge.LinkCountsWhatItDeletes` | convex/functions/projectImportPurge.ts:309-355 | what a link adds to the purge's row count is what it deleted: rows, audit rows and at last the project row |
| `ProjectMovePurge.ProjectKeysOnlyWhenUnheld` | convex/functions/projectImportPurge.ts:371-422 | a claim of project-prefix keys is answered only for the run in charge, in its objects phase, while no project row holds the id |
| `ProjectMoveFrames.Frame` | convex/functions/projectImportPurge.ts:439-519 | a key leaves the store only by the DELETE of a claimed key, a worker changes only by its own steps, rows only by links and the tables' own events |
| `ProjectMovePurge.DeletesWereClaimed` | convex/functions/projectImportPurge.ts:406-422 | every key a worker is about to delete was claimed earlier in the run: its run in charge, the prefix its move's own, no project row holding the id, and the uploads of the move expired |
| `ProjectMovePurge.RestartSupersedes` | convex/functions/projectImportPurge.ts:128-146 | a restart supersedes the run in charge |
| `ProjectMovePurge.SupersededDoesNothing` | convex/functions/projectImportPurge.ts:117-121 | a superseded run's link, claim, count, error and finish all change nothing |
| `ProjectMovePurge.SupersededStays` | convex/functions/projectImportPurge.ts:128-146 | a superseded run is superseded for good |
| `ProjectMovePurge.LeftBehind` | convex/functions/projectImportPurge.ts:406-422 | a superseded run's claimed batch only shrinks, and held at most eight keys when it was superseded |
| `ProjectMovePurge.LeftBehindDeletes` | convex/functions/projectImportPurge.ts:439-519 | every key a superseded run still takes out of the store is one of that batch |
| `ProjectMovePurge.LeftBehindExactly` | convex/functions/projectImportPurge.ts:439-519 | a key can still be taken out of the store by a superseded run, after some continuation, if and only if it is in the batch it held; with no new upload of it, if and only if it is also stored |
| `ProjectMovePurge.NothingLeftToDeleteExactly` | convex/functions/projectImportPurge.ts:29-32 | so the documented promise holds exactly when the run was superseded with no batch under way; without uploads, exactly when its batch and the store are disjoint |
| `ProjectMoveLate.LateDelete` | convex/functions/projectImportPurge.ts:29-32 | the documented stronger promise is false: from an empty backend, a delayed DELETE of a superseded run removes an object of the project after the purge finished and the project was moved again and shown |
| `ProjectMoveCron.QuietShrinks` | convex/functions/projectImportPurge.ts:279-355 | while nobody acts on a purge no step adds to its work (rows, audit pages, keys), and a commit that resets the restart count made the work strictly smaller |
| `ProjectMoveCron.RestartsAreSpent` | convex/functions/projectImportPurge.ts:560-583 | every restart by the cron spends one of the restarts the remaining work allows, and nothing quiet adds one |
| `ProjectMoveCron.CronStops` | convex/functions/projectImportPurge.ts:560-583 | over any quiet stretch the cron's restarts of one purge are bounded by the work left at its start |
| `ProjectMoveCron.RestartsInARow` | convex/functions/projectImportPurge.ts:560-583 | between two commits that reset the count the cron restarts a purge at most five times |
| `ProjectMoveLinks.ResumedExactlyWhen` | convex/functions/projectImportPurge.ts:560-583 | the cron restarts exactly a purge never started, failed in passing or overdue, where it was and counting one restart, and stops it as stalled after five |
| `ProjectMoveCron.StoppedIsNotResumed` | convex/functions/projectImportPurge.ts:170-179 | the cron leaves a stopped purge as it is |
| `ProjectMoveCron.StoppedStays` | convex/functions/projectImportPurge.ts:358-368 | a stopped purge stays stopped through any step nobody acts with, if and only if the step is not the worker of its own run, still at work, reporting a passing failure over the stop |
| `ProjectMoveCron.StoppedUntilOverwritten` | convex/functions/projectImportPurge.ts:358-368 | over any stretch in which nobody acts on it a purge stays stopped if and only if its stop is never overwritten so |
| `ProjectMoveCron.RestartedExactlyWhen` | convex/functions/projectImportPurge.ts:560-583 | the next pass of the cron restarts a purge that had stopped if and only if that overwrite has just happened and the restart count is below its limit again |
| `ProjectMoveCron.RestartAfterStop` | convex/functions/projectImportPurge.ts:560-583 | whenever the cron restarts a purge that had stopped, some step since then overwrote the stop |
| `ProjectMoveCron.StoppedForGood` | convex/functions/projectImportPurge.ts:170-179 | a stop whose worker has ended lasts, and the cron leaves it, until somebody acts on the move |
| `ProjectMoveStopped.StoppedIsRestarted` | convex/functions/projectImportPurge.ts:560-583 | a run from an empty backend in which the cron gives up on a purge whose worker is only slow, nobody acts, and the cron restarts it |
| `ProjectMoveCron.FinishFindsNothing` | convex/functions/projectImportPurge.ts:464-486 | a worker that reaches its finish, with no upload under its prefixes since its plan, found them all empty, and they still are |
| `ProjectMoveTable.Imports.Begin` | convex/functions/projectImports.ts:307-399 | reserving in place, with its answer: the status of the same reservation sent again, a conflict, a move in progress, a project already there, or a new reservation |
| `ProjectMoveTable.Imports.Commit` | convex/functions/projectImports.ts:816-905 | committing in place: shown if and only if the move is open under that manifest, its hidden project is there, and every stream arrived as the manifest promised, which it checks itself |
| `ProjectMoveTable.Imports.Uncommit` | convex/functions/projectImports.ts:913-969 | rolling back in place, with its answer |
| `ProjectMoveTable.Imports.Abort` | convex/functions/projectImports.ts:981-1010 | cancelling in place, restarting a purge that failed or stalled |
| `ProjectMoveTable.DrainFits` | convex/functions/projectImportPurge.ts:309-328 | what a drain of the backend's plan leaves is what a link may do, counted over the rows the plan reaches under the project at any depth: the row counts the move's steps rely on are derived |
| `ProjectMoveTable.Imports.Step` | convex/functions/projectImportPurge.ts:279-355 | one link in place: it drains the plan or an audit page itself, deletes a row only for the run in charge while the project is hidden under this move, never one that names another project, and is always a legal step of the move |
| `ProjectMoveTable.Imports.ClaimObjectBatch` | convex/functions/projectImportPurge.ts:406-422 | claiming a batch in place, with its answer |
| `ProjectMoveTable.Imports.Finish` | convex/functions/projectImportPurge.ts:522-557 | finishing in place |
| `ProjectMoveTable.Imports.Resume` | convex/functions/projectImportPurge.ts:560-583 | the cron's loop in place, and how many purges it restarted |
| `ProjectMoveTable.ResumeAllRows` | convex/functions/projectImportPurge.ts:560-583 | one pass of the cron does to each aborting move what resuming it alone would, under a run minted in that pass, and leaves the others |
| `ProjectMoveTable.AuditRowsApart` | convex/functions/projectImportPurge.ts:329-355 | the audit rows a page drops are apart from the rows of any project |
| `ImportDigest.Stream.ImportRows` | convex/functions/lib/migrationImport.ts:257-337 | a batch in place: the rows, the accumulator, the counts and the indices of conflicts and rejections |
| `ImportDigest.BatchAccumulates` | convex/functions/projectImports.ts:682-730 | however a batch goes, the accumulator it leaves is the count and 128-bit sum over the rows stored for the project, each once |
| `ImportDigest.NeverOverwrites` | convex/functions/lib/migrationImport.ts:257-337 | a batch changes no stored row and adds only rows of the move's project |
| `ImportDigest.RecordAnswered` | convex/functions/lib/migrationImport.ts:257-337 | a record is `inserted`, `unchanged` or in `conflict` exactly as its key, digest, name and event stand in the table, else `rejected`, and only an inserted one writes, its own row |
| `ImportDigest.OutcomeOfEach` | convex/functions/lib/migrationImport.ts:257-337 | each record of a batch is answered by what the ones before it left |
| `ImportDigest.Split` | convex/functions/lib/migrationImport.ts:257-337 | a batch split anywhere has the same rows, outcomes and accumulator |
| `ImportDigest.ResendAddsNothing` | convex/functions/projectImports.ts:682-730 | sending any records again, in any order and number, inserts nothing and counts nothing |
| `ImportDigest.LandsIffCompatible` | convex/functions/lib/migrationImport.ts:257-337 | a batch lands entirely if and only if the table and its records are compatible, a condition on the set of its records |
| `ImportDigest.DeliveryOrdersAgree` | packages/shared/src/cloud/migration-import.ts:257-291 | two deliveries of the same records, ordered or repeated differently, land alike, store rows of the same digests and accumulate the same |
| `ImportDigest.Verify` | convex/functions/projectImports.ts:834-862 | the commit's check succeeds exactly when every stream arrived as promised (the schedules stream may be absent), and names exactly the streams that did not |
| `ImportDigest.AccumulatorsFollowTheRows` | convex/functions/projectImports.ts:695-730 | in every run of batches and other people's writes each stored accumulator is the fold over the distinct rows of the move |
| `ImportDigest.VerifiedMeansAsPromised` | convex/functions/projectImports.ts:816-872 | a verified commit of a move never shown has exactly the promised count and digest stored in every stream |
| `SecretsProofs.StepKeeps` | convex/functions/secrets.ts:155-375 | every event of concurrent sets, removals, exposures, project moves, rotations and re-wraps keeps the secrets invariant |
| `SecretsRoots.StepIsSafe` | convex/functions/secrets.ts:155-375 | and every root key still needed stays configured: nothing comes to need a root key that nothing needed, but the current one |
| `SecretsRoots.StartIsSafe` | convex/functions/secrets.ts:155-375 | a backend without secrets meets the invariant and needs no root key it lacks, so what is proved of runs holds from a real start |
| `SecretsRoots.OneKeyOneRowBounded` | convex/functions/secrets.ts:265-375 | in any run: one data key per owner, one row per scope and name, every scope within its count and bytes |
| `SecretsProofs.OpensToLastWritten` | convex/functions/secretsDelivery.ts:194-223 | every stored row opens to the value last written for its scope and name |
| `SecretsProofs.SetLeaves` | convex/functions/secrets.ts:343-375 | a set that goes through leaves one row at its scope and name, of the kind and exposure asked for or kept, one version on, and every other row as it was |
| `SecretsProofs.OpensNowhereElse` | convex/functions/lib/sealing.ts:198-208 | a sealed value opens under no other secret's id, scope or name |
| `SecretsProofs.StoreKeys` | convex/functions/secretKeys.ts:46-61 | storing a re-wrapped key changes what wraps it, never the key or its owner, and it opens under the new root key |
| `SecretsProofs.WriteFits` | convex/functions/secrets.ts:319-335 | a write that passed the limits leaves its scope within them and every other scope alone |
| `SecretsLayers.RefusedExactlyWhen` | convex/functions/secrets.ts:265-335 | a write is refused exactly without access to the place, else when its key or its row is not the place's any more, else when the place would exceed a hundred secrets or 64 KiB |
| `SecretsLayers.RefusedSetEnds` | convex/functions/secrets.ts:184-260 | a set that meets a conflict plans and seals once more; a second one, and any other refusal, is its answer, and stores nothing |
| `SecretsLayers.TakenUpExactlyWhen` | packages/shared/src/cloud/secrets.ts:247-254 | a set is taken up exactly with a name of at most 128 bytes and a value of at most 32 KiB without a NUL |
| `SecretsLayers.PlansItsRow` | convex/functions/secrets.ts:155-175 | a set plans to write the row that is there, or a new one, under the place's data key, or a first one |
| `SecretsLayers.RemovedOrNarrowed` | convex/functions/secrets.ts:421-446 | removing takes that secret alone; a new exposure changes where it reaches and nothing else |
| `SecretsLayers.PassStores` | convex/functions/secretKeys.ts:63-87 | a re-wrap pass ends on a key it cannot open; a key that is still under the root key it was read with it wraps under the newest and counts, any other it leaves alone |
| `SecretsRoots.MayDropExactlyWhen` | convex/functions/secretKeys.ts:11-14 | without an old root key every data key and every value stays openable, whatever happens next, if and only if no data key is under it, no re-wrap pass under way can put one under it, and no set under way brings the first data key of its owner under it |
| `SecretsRoots.CheckedBeforeDrop` | convex/functions/secretKeys.ts:4-13 | a check an operator can make after a rotation suffices: no data key names the old root key, and every set and re-wrap pass under way at the rotation is over |
| `SecretsRoots.DropTooSoon` | convex/functions/secretKeys.ts:11-14 | the documented check alone does not: a run from an empty deployment in which no data key is left under the old root key, it is dropped, and a set that sealed before the rotation stores a value nothing can open |
| `SecretsProofs.WinnerIsHighest` | packages/shared/src/cloud/secrets.ts:153-183 | the value of a name comes from the first layer that sets it |
| `SecretsLayers.SupplierIsWinner` | convex/functions/lib/secrets.ts:226-245 | of a Session's layers the highest that sets a name is the person's own for the project, else their personal one, else the project's, else its Workspace's |
| `SecretsLayers.NeverAnothers` | convex/functions/lib/secrets.ts:226-245 | nobody else's secret, and none of another project or Workspace, supplies a name |
| `SecretsLayers.RemovalUncovers` | convex/functions/lib/secrets.ts:226-245 | after the secret that supplies a name is removed, the next one is further out |
| `SecretsVault.Vault.Write` | convex/functions/secrets.ts:265-375 | the write in place, with its answer |
| `SecretsVault.Vault.Stale` | convex/functions/secretKeys.ts:25-43 | the stale query answers at most fifty keys, all of them when there are fewer |
| `SecretsVault.Vault.Rewrap` | convex/functions/secretKeys.ts:63-87 | one pass re-wraps a full batch or everything stale, and keeps every key and value |
| `SecretsVault.Vault.RewrapAll` | convex/functions/secretKeys.ts:63-87 | re-wrapping to the end leaves no data key under an old root key and every value openable |
| `SecretsVault.Vault.Deliver` | convex/functions/secretsDelivery.ts:124-223 | a delivery is refused, withheld by the runner's opt-out, or has exactly the names supplied by the person's own secret for the project, else their personal one, else the project's, else its Workspace's, when that row is for Sessions or the purpose is setup, each with the value last written there |
| `GithubRefresh.OvertakenChangesNothing` | convex/functions/githubTokens.ts:108-149 | a caller whose lease is gone changes the row by none of its steps, and stays overtaken until it has let go |
| `GithubRefresh.OvertakenForGood` | convex/functions/githubTokens.ts:108-149 | over any run a refresh whose lease is gone never holds it again: neither its late pair nor its late refusal reaches the row |
| `GithubRefresh.StoredPairIsHandedOut` | convex/functions/githubTokens.ts:211-240 | once a pair is stored every reader gets its access token until it is due, and then its refresh token is the one a caller sends |
| `GithubRefresh.NobodyReturnsHolding` | convex/functions/githubTokens.ts:165-208 | while no caller crashes, a lease in the row belongs to a caller still refreshing: none returns holding it |
| `GithubRefreshEnds.ReaderGets` | convex/functions/githubTokens.ts:211-240 | a reader gets the stored access token until half an hour before its end, then refreshes with the stored refresh token until that ends; without an active connection with tokens it is refused |
| `GithubRefreshEnds.BeginsExactlyWhen` | convex/functions/githubTokens.ts:88-105 | a caller takes the lease for a minute exactly when the token is due and the lease free or run out; else it reads again, at most twenty times, and gives up |
| `GithubRefreshEnds.ReplySays` | convex/functions/githubTokens.ts:181-187 | only GitHub's refusal of the token asks for a reconnect; any other failure answers that GitHub is unavailable |
| `GithubRefreshEnds.FailedRefreshLeaves` | convex/functions/githubTokens.ts:136-149 | a failed refresh leaves status, tokens and expiries as they were and the lease free, so that the next caller may begin at once; a refused token also leaves the tokens and asks for a reconnect; an overtaken caller leaves everything |
| `GithubRefreshEnds.OnlyTheHolderAsks` | convex/functions/githubTokens.ts:136-149 | a connection comes to need a reconnect only by its lease's holder |
| `GithubRefreshEnds.NeedsReconnectOnlyAfterRefusal` | convex/functions/githubTokens.ts:165-208 | over any run a connection that needs a reconnect came to it by a holder whom GitHub had answered that the token is no good |
| `GithubRefreshEnds.RefusedUntilConnect` | convex/functions/githubTokens.ts:211-240 | over any run every reader of such a connection is refused until a connect |
| `GithubRefreshEnds.ConnectAndRevoke` | convex/functions/githubFlows.ts:205-250 | a connect leaves an active connection with the new pair and no lease; disconnecting leaves none |
| `GithubRefresh.BeginTakesWhatIsStored` | convex/functions/githubTokens.ts:88-105 | under the timing assumptions a caller that takes the lease is alone, and what it read is what is stored |
| `GithubRefresh.OneRefreshOfTheStoredToken` | convex/functions/githubTokens.ts:165-258 | under the timing assumptions at most one refresh is in flight, its holder sends the stored refresh token, and nobody sends one whose successor was stored |
| `GithubRefresh.SlowReaderStrandsTheConnection` | convex/functions/githubTokens.ts:211-258 | a run that breaks only the bound on the gap between read and lease: a slow caller spends an old token and the connection needs a reconnect although its stored token is unused |
| `GithubRefresh.LateReplyStrandsTheConnection` | convex/functions/githubTokens.ts:165-208 | a run that breaks only the bound on round trips: two refreshes of one token are in flight, and the connection needs a reconnect while the valid token was never stored |
| `GithubRefresh.TokenRow.RefreshHoldingLease` | convex/functions/githubTokens.ts:165-208 | what each reply of GitHub leaves and answers: the stored pair, a row that asks for a reconnect, or only the lease given back; on every way out the caller no longer holds the lease |
| `GithubRefresh.TokenRow.Begin` | convex/functions/githubTokens.ts:88-105 | taking the lease in place |
| `GithubRefresh.TokenRow.Complete` | convex/functions/githubTokens.ts:108-133 | the holder's pair and its two expiries are stored and the lease is free; anybody else stores nothing |
| `Credentials.DeadStaysDead` | convex/functions/runners.ts:1118-1183 | a credential neither slot accepts is never accepted again, whoever presents what; presenting it changes nothing or cuts the runner off |
| `Credentials.HowItDies` | convex/functions/runners.ts:1118-1183 | a credential dies when its successor is used, when its successor rotates, and when it is dropped unused |
| `Credentials.ExchangedExactlyWhen` | convex/functions/runners.ts:1131-1183 | what an exchange stores and answers for each slot: the current credential or the one before, unused, rotates; the one before after a use ends the runner; anything else leaves the row |
| `Credentials.UsedExactlyWhen` | convex/functions/lib/runnerAuth.ts:123-142 | a write marks the first use exactly of a runner in service with a token of the current generation; registering again replaces exactly a first credential nobody used |
| `Credentials.ReuseCutsOff` | convex/functions/runners.ts:1150-1161 | the previous credential presented after the current one was used cuts the runner off for good |
| `Credentials.RevokedIsFrozen` | convex/functions/runners.ts:1148-1162 | once a runner was cut off nothing changes its row any more |
| `Credentials.StrangerChangesNothing` | convex/functions/runners.ts:1150-1155 | strangers who present neither slot's credential change nothing, however often |
| `Credentials.NeverCutOff` | convex/functions/lib/runnerAuth.ts:117-142 | a single box that saves a credential before it uses its token keeps a working one through any lost replies and crashes, registration included |
| `Credentials.NextExchangeWorks` | convex/functions/runners.ts:1131-1183 | so its next exchange is always answered with a new credential, or paused with its owner's access |
| `Credentials.StrandedExactlyWhen` | convex/functions/runners.ts:1131-1183 | with requests that arrive after the box gave up on them: exactly which step leaves a box that could go on without a working credential, read off the row |
| `Credentials.GoesOnExactlyWhen` | convex/functions/runners.ts:1131-1183 | over any run with late requests a box that saves before it uses can go on at every moment if and only if no such step occurs |
| `Credentials.StrandedForGood` | convex/functions/runners.ts:1131-1183 | a stranded box stays so: what it saved is never accepted again, whatever anybody presents |
| `Credentials.DelayedRequestCutsOff` | convex/functions/runners.ts:1150-1161 | a run in which a late request cuts the box off, after it saved and used the next credential |
| `Credentials.DelayedBeforeFirstUse` | convex/functions/runners.ts:1167-1182 | and one in which a late request drops the credential the box saved before its first use: the backend does not know it any more |
| `Credentials.Runner.RotateCredential` | convex/functions/runners.ts:1131-1183 | the exchange in place, with its answer |
| `Credentials.Runner.RequireForWrite` | convex/functions/lib/runnerAuth.ts:123-142 | the first-use mark in place |
| `Credentials.Runner.RetryDesktopRegistration` | convex/functions/runners.ts:690-713 | a repeated registration in place: only a first credential never used is replaced |
| `Positions.Midpoint` | packages/shared/src/cloud/positions.ts:54-63 | there is a key strictly between any two neighbours, either of which may be missing |
| `Positions.KeysAreBetween` | packages/shared/src/cloud/positions.ts:65-75 | any number of keys between two neighbours come out valid, ascending and inside the gap |
| `Positions.RewrittenKeys` | packages/shared/src/cloud/positions.ts:94-102 | the keys of a rewritten column, each by its place; none needs a rebalance up to 240 tickets |
| `Positions.Transitive` | packages/shared/src/cloud/positions.ts:89-92 | string order on keys is transitive |
| `Positions.Total` | packages/shared/src/cloud/positions.ts:89-92 | string order on keys is total |
| `Board.Columns.MoveGap` | convex/functions/board.ts:423-466 | the gap a move reads: two neighbours adjacent among the tickets that stay, on the side the command names |
| `Board.Columns.Beyond` | convex/functions/board.ts:469-483 | the nearest ticket that stays on one side of a key |
| `Board.MoveIsContiguous` | convex/functions/board.ts:494-580 | the moved group is one block: every ticket that stays is before all of it or after all of it |
| `Board.MoveKeepsDistinct` | convex/functions/board.ts:494-580 | after a move live tickets of a column still have distinct keys |
| `Board.LandsByTheNamed` | convex/functions/board.ts:423-464 | which neighbour a move keeps to: the ticket to land after, else the one to land before, else the start when only that was named, else the end |
| `Board.Columns.InBoardOrder` | packages/shared/src/cloud/board-rules.ts:684-693 | a group sorted in board order |
| `Board.OrderReadsAsTheBoard` | packages/shared/src/cloud/board-rules.ts:679-693 | such an order reads columns from left to right, in a column the lower key first, and of equal keys the lower number |
| `Board.Columns.MoveTickets` | convex/functions/board.ts:494-580 | a move in place: exactly when it is not found or refused, else the gap it used, the group inside it in board order, written unless it was settled there, and no other ticket written |
| `Board.Columns.CreateTicket` | convex/functions/board.ts:263-352 | a new ticket gets a key above every ticket of its column |
| `Board.Columns.ArchiveTicket` | convex/functions/board.ts:622-630 | archiving changes nothing else |
| `Board.Columns.UnarchiveTicket` | convex/functions/board.ts:633-644 | an unarchived ticket returns above every ticket of its column |
| `Board.Columns.RebalanceColumn` | convex/functions/board.ts:587-598 | a rebalance does nothing while no key is too long; else it rewrites exactly the column's live tickets, says how many, keeps their order, and leaves short keys up to 240 of them |
| `SponsorCascade.Preview.RevokeFor` | convex/functions/previewAccess.ts:150-167 | one sponsor's grants: the live ones somebody joined with are revoked, the unused ones deleted, and who joined is queued once |
| `SponsorCascade.Preview.RevokeSponsoredBy` | convex/functions/previewAccess.ts:139-175 | the walk ends on every graph; it withdraws exactly the live grants of the people the root reaches (of the root alone without `cascade`), zeroes exactly their seats, and its two counts are those grants |
| `SponsorCascade.ClosedHoldsAll` | convex/functions/previewAccess.ts:139-175 | a set closed under the live redeemed grants holds everyone the root reaches |
| `SponsorCascade.WithdrawnMeans` | convex/functions/previewAccess.ts:150-167 | withdrawing a sponsor revokes exactly their live grants somebody joined with, and deletes exactly the unused ones |
| `SponsorCascade.OneMore` | convex/functions/previewAccess.ts:150-167 | withdrawing sponsors one after another is withdrawing them together, and the counts add up |
| `LinkAttempts.Lookups.LookupLinkCode` | convex/functions/runners.ts:866-899 | the lookup in place, with its answer |
| `LinkAttempts.WindowCounts` | convex/functions/runners.ts:866-899 | a recorded window never counts more than ten misses, and counts only misses since it began |
| `LinkAttempts.AnsweredExactly` | convex/functions/runners.ts:866-899 | with misses left a code that waits is found at no cost, and any other costs one; with none left nothing is looked up |
| `LinkAttempts.FindingIsFree` | convex/functions/runners.ts:866-899 | however many codes that wait are entered, none costs a miss |
| `LinkAttempts.MissesInAnyInterval` | convex/functions/runners.ts:107-108 | in any interval of the window's length at most nineteen misses are answered: one fewer than twice the limit |
| `LinkAttempts.BoundIsMet` | convex/functions/runners.ts:107-108 | and nineteen are reached |
| `GithubFlows.OneAccountPerPerson` | convex/functions/githubFlows.ts:185-251 | in any run GitHub accounts and connected people correspond one to one, and links say exactly what connections say |
| `GithubFlows.OutcomeIsFinal` | convex/functions/githubFlows.ts:68-75 | once a flow has ended its row never changes while it is kept |
| `GithubFlows.WaitsOnce` | convex/functions/githubFlows.ts:125-136 | a flow waits for an owner at most once and never goes back to pending |
| `GithubFlows.ClaimExcludesOthers` | convex/functions/githubFlows.ts:78-115 | over any run, from a claim until it runs out nothing anybody else does claims, fails, completes or purges the flow; another's claim or confirm changes nothing at all |
| `GithubFlows.OnlyItsOwnRoundTrip` | convex/functions/githubFlows.ts:20-30 | over any run a connect that nobody confirms with its own secret in time is never newly claimed and never done |
| `GithubFlows.OvertakenConfirm` | convex/functions/githubFlows.ts:173-183 | over any run a confirm whose claim another took over, or that ended, stores nothing however late it comes |
| `GithubFlows.SealAgainConnects` | convex/functions/githubFlows.ts:202-204 | losing the race for the person's data key changes nothing, and sealing again under the winner's key connects |
| `GithubFlows.ConnectedMeans` | convex/functions/githubFlows.ts:205-250 | what a connect leaves: the connection, the person's one link, the flow done, and everybody else as they were |
| `GithubFlowsAnswers.FlowProblemMeans` | convex/functions/githubFlows.ts:20-31 | why a request with a flow's secret is refused: another flow, used, or expired, in that order |
| `GithubFlowsAnswers.CreatedExactlyWhen` | convex/functions/github.ts:127-178 | a flow is created exactly under a new id, and an install only for a connected person in good standing |
| `GithubFlowsAnswers.ClaimedExactlyWhen` | convex/functions/githubFlows.ts:101-117 | a confirm claims a flow for a minute exactly when it carries its secret in time and no other holds it |
| `GithubFlowsAnswers.FailedExactlyWhen` | convex/functions/githubFlows.ts:88-95 | a flow is failed exactly while it is open and nobody else holds it |
| `GithubFlowsAnswers.ConnectAnswers` | convex/functions/githubFlows.ts:148-204 | what a connect answers: the flow's problem, not holding it, an account that is gone, a GitHub account that is another's, sealing again, or connected, in that order |
| `GithubFlowsAnswers.ConnectLeaves` | convex/functions/githubFlows.ts:185-251 | another's account fails the flow, a connect stores the key it brings, and any other answer stores nothing |
| `GithubFlowsAnswers.RoundTripConnects` | convex/functions/githubFlows.ts:101-251 | from a granted claim the same confirm in time, for an active person and a free account, connects them |
| `GithubFlowsAnswers.InstallsExactlyWhen` | convex/functions/githubFlows.ts:125-136 | an install waits two weeks exactly from pending, and is done exactly by its own round trip in time |
| `GithubFlowsAnswers.ApprovedExactly` | convex/functions/githubIngest.ts:54-75 | an approval ends exactly the waiting flows of the person with that GitHub account |
| `GithubFlowsAnswers.ForgetAndPurge` | convex/functions/github.ts:386-405 | disconnecting takes the person's connection and links alone; a purge takes exactly the flows an hour past their end |
| `GithubFlowsAnswers.ConnectionLasts` | convex/functions/githubFlows.ts:148-251 | over any run a connection stays what it is until its person disconnects or confirms again, or GitHub's answers change its status |
| `GithubFlows.Flows.FailFlow` | convex/functions/githubFlows.ts:88-95 | failing a flow in place |
| `GithubFlows.Flows.ClaimFlow` | convex/functions/githubFlows.ts:101-115 | claiming a flow in place, with its answer |
| `GithubFlows.Flows.Complete` | convex/functions/githubFlows.ts:148-251 | completing a connect in place, with its answer |
| `GithubFlows.Flows.CompleteRequestedFlows` | convex/functions/githubIngest.ts:54-75 | the webhook's half in place |
| `Reconcile.Installations.ApplyInstallation` | convex/functions/githubIngest.ts:223-290 | both loops in place: every repository row ends as its snapshot says |
| `Reconcile.CompleteAgreesWithList` | convex/functions/githubIngest.ts:223-290 | after a complete reconcile listed rows point here with the name and access of the last entry about them, other rows that pointed here are out of selection, the rest are unchanged |
| `Reconcile.IncompleteRemovesNothing` | convex/functions/githubIngest.ts:218-222 | an incomplete list leaves unlisted rows as they were |
| `Reconcile.RemovedAppTakesItsRows` | convex/functions/githubIngest.ts:231-246 | after an uninstalled or suspended App exactly the rows that pointed at the installation say that it was removed; none of them is usable |
| `Reconcile.CutListAgrees` | convex/functions/githubIngest.ts:218-222 | a listed repository's rows say the same after a cut list as after a whole one |
| `Reconcile.ApplyingTwice` | convex/functions/githubIngest.ts:223-290 | applying a snapshot twice says the same as once, apart from timestamps |
| `Handover.PageProgress` | convex/functions/runners.ts:731-762 | the page that answers that nothing remains leaves nothing behind; any other page moves at least two hundred rows |
| `Handover.OnlyTheReplacedRunner` | convex/functions/runners.ts:715-730 | a page changes nothing on any other runner, raises a moved claim's generation by exactly one, and changes nothing of a moved job but its runner |
| `Handover.PageArrives` | convex/functions/runners.ts:731-762 | what a page takes is on the successor afterwards, and the rest where it was |
| `Handover.AllArrives` | convex/functions/runners.ts:731-773 | once all was moved the successor holds its own work and exactly the replaced runner's |
| `Handover.InboxKeeps` | convex/functions/runners.ts:721-726 | a page is one of the inbox's own steps, so the fencing by boot and attempt holds across it |
| `Handover.ChainEnds` | convex/functions/runners.ts:764-773 | with no row arriving meanwhile, two hundred times the pages that continued the chain, plus what is left, never exceeds what there was |
| `Handover.NothingLeftBehind` | convex/functions/runners.ts:764-773 | after the last page nothing is left on the replaced runner from then on |
| `Handover.Runners.MoveRunnerWork` | convex/functions/runners.ts:731-762 | one page in place, and whether more may remain |
| `Handover.Runners.MoveReplacedWork` | convex/functions/runners.ts:764-773 | the whole chain, uninterrupted, moves everything exactly once |

## Left out

- Authentication, membership and roles are inputs of the steps (a refused step changes nothing); audit rows, board events, receipts, notices and side-effect jobs are not modelled.
- RunnerInbox: the sweep that deletes old finished jobs, re-use of a deleted job's id, and the contents of payloads and results are not modelled.
- Drain: needs a purge tree that gives a table the same children wherever it appears, which the backend's plan is proved to be; approximate sizes are given as numbers.
- Link: a row's size is at most `cap`, the platform's limit on a document, which the byte bound is stated with.
- ProjectMove: counts the rows under a project instead of naming them (`PurgeDrain` has the rows, `DrainFits` joins the two); an object worker's pages per run and the check of foreign keys in a listing are not modelled, and a row imported by the operator's dry run does not occur.
- Uncommit: whether the project changed since its commit is an input (`changed`); `ChangedLeavesOnlyConfirmed` is stated for runs in which it tells of every write.
- Begin: the driver of a move is not modelled, and a number stands for its manifest and what that promises per stream.
- Step: the audit rows of a page are counted, not kept in a table.
- The object worker, the callers of the refresh and the `set` action are programs on values, one step an event, because their steps interleave; the mutations they call also run in place.
- CronStops: an upload under the move's prefixes and growth of the Workspace's audit log count as activity, because each really adds work.
- Rescue: reassigning a stranded move to another driver changes no field the model has.
- ImportRows: the mapping of a record to a document, the policy's checks and the schema are given per record; the lookup of an existing row is not cut at 64 candidates.
- DeliveryOrdersAgree: assumes that records of one key and one digest are the same row, and that the checks of a record do not depend on rows that arrive with it.
- Sealing, wrapping, hashing and tokens are symbolic: a ciphertext opens under the key and context it was made with, and fresh values differ.
- Deliver: the rows that entitle a runner (its claim, its owner's membership) are one input, as is its opt-out; the time of last use is not modelled; scope keys are targets, whose string form is injective.
- MayDropExactlyWhen: root keys come in in the order of their numbers and none comes back; a re-wrap pass reads its root keys and its batch in one step.
- OneRefreshOfTheStoredToken: stated under its two timing assumptions, which the step lemmas use; a run for each shows that it is needed.
- MintGithubToken: a caller's wait between two reads is any passing of time.
- NeverCutOff: assumes that a request the box gave up on is not processed later; `GoesOnExactlyWhen` is the statement without that assumption. Finding the runner by its registration id is not modelled.
- Midpoint: keys are the fractional part of the position library's keys; its integer part, a shorter form for keys at a column's ends, is not part of this model, nor is the library; without it a rewritten column has keys too long again beyond 240 tickets (`RewrittenKeys`).
- Columns: index ranges are read as a search for the nearest key instead of in order; ticket numbers are inputs. The positions that imported tickets bring with them are not modelled.
- RevokeSponsoredBy: the operator's way of naming the person is not modelled.
- OutcomeIsFinal: a flow's row is deleted an hour after it expires, and its id can then be used again.
- Handover: jobs that name a Working copy stay, as they do in the backend.
- HTTP routes, pages, webhook signatures, JWTs, read-only projections, Automation rules and the Session fold are not part of this model.
