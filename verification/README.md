# Dupearr: a verified model of its protocols

Dupearr finds duplicate media files and removes the copies nobody wants. Because it deletes, it is
built from small protocols that must hold while goroutines race, clocks jump, processes crash and
callers act on stale copies. This project models those protocols in Dafny and proves what the
program's comments and documentation promise of them, over every input and every run.

Each protocol is a state machine whose steps are the critical sections, transactions or file
operations of the program, and its results speak of all runs of that machine. Where the program
changes things in place, a class does too, and each of its methods is proved to do what the step of
the machine does. Where a promise does not hold in full, the exact condition under which it does is
proved, with an input that breaks it.

| file | part of the program |
|---|---|
| `CommandEntry.dfy`, `CommandProgress.dfy` | one command and the goroutines that write it to the store (two locks) |
| `CommandLanes.dfy`, `CommandQueue.dfy`, `CommandOutcomes.dfy` | the two lanes, the dispatch pass, enqueue, run, shutdown, recovery; what becomes of a command |
| `Scheduler.dfy` | when a scheduled task runs next, and what of it is saved |
| `Restore.dfy`, `RestoreProgress.dfy`, `RestoreApply.dfy` | swapping a staged restore into place across crashes, and when that gets to its end |
| `RestorePrune.dfy`, `RestoreStaging.dfy`, `RestorePlan.dfy` | old generations, staging and confirming, what a restore takes from a backup |
| `Session.dfy`, `SessionPassword.dfy`, `SessionToken.dfy` | session cookies: verification, renewal, logout, key rotation, passwords, token text |
| `ActionStore.dfy`, `ActionAnswers.dfy`, `ActionTables.dfy` | removal actions, duplicate groups and their versions, transaction by transaction |
| `Config.dfy`, `ConfigRules.dfy`, `ConfigManager.dfy`, `ConfigEnv.dfy`, `ConfigDocument.dfy` | settings, updates under environment overrides, config.xml as a document |
| `Limiter.dfy`, `LogSampler.dfy` | login backoff and sampled warnings |
| `NonNil.dfy` | the search of the type graph and the filling in of nil lists and maps |
| `Reevaluation.dfy`, `WebhookBucket.dfy` | the coalescing background worker, the token bucket |
| `Network.dfy` | the client address behind proxies, splitting outside quotes |
| `Migrate.dfy` | schema migrations by several processes at once |
| `Text.dfy`, `Wrappers.dfy`, `Measure.dfy` | string functions, the option type and the size of a subset, measures |

Findings, each proved in the member named:

- A logout holds for ever only while requests finish within 61 seconds, rounded as described in
  `Session.SlackIsExact`; beyond it a late renewal outlives the entry of the list.
- An update that cancels an action and moves it to another group can leave its old group queued with
  nothing to run (`ActionStore.UpdateStrandsExactly`).
- A removal that is done runs again if it is first recorded as failed, skipped or a dry run
  (`ActionStore.RevivedRunsAgain`).
- The end of the context does not stop everything at once: a dispatch pass that has tested it before
  still starts commands, and a goroutine that has looked at it before still calls its handler
  (`CommandQueue.NothingStartsAfterCancel`, `CommandQueue.CalledAfterCancelExactly`).
- The URL base is not settled by normalising once. Without overrides `"a / /"` is saved as a value the
  file's own validation rejects, although the program still starts on it
  (`ConfigManager.CleanFileGetsProblem`, `ConfigManager.AlwaysStartsAgain`), a file rewritten for a
  restore need not hold exactly the configuration returned with it
  (`ConfigDocument.RewrittenFileHolds`), and the preview of a restore can show a URL base as applied
  that is not the one staged (`RestorePlan.AppliedMeansStaged`). A live file with such a URL base does not
  keep it through a restore that leaves the security settings alone: another value is staged, which can
  be the backup's, shown as not applied (`RestorePlan.CurrentSecurityIsKept`, `RestorePlan.LiveExample`).
- Removing some environment overrides can make a configuration clash that is fine with all and with
  none (`ConfigManager.SwappedPortsClash`).
- A restore can stage an authentication method that is neither the current one nor Forms, if an
  override hides that the current one is unknown (`RestorePlan.MethodIsCurrentOrForms`).
- Confirming a restore compares the security settings and removes the marker one step later; settings that
  change in between do not stop it (`RestoreStaging.SettingsMayChangeAfterCheck`).
- A restore whose swap is blocked, by a side file of an earlier backup under the free name or because
  no name is free, stops every later start (`RestoreProgress.StuckForGood`). Crashes can bring that
  about, and how many it takes is exactly a matter of free names (`RestoreProgress.GetsPastExactly`).
- A re-evaluation asked for during a run is dropped if the server closes before the worker has decided
  to run again (`Reevaluation.ClosingDropsExactly`).
- The interval of a task past 64 bits wraps around, so that the task does not rest for it
  (`Scheduler.RestsForIntervalExactly`).

## Model

Rows that begin with "Bridge" are no results of their own: they tie a method that changes fields in
place to the function of the old state that the results speak of.

| member | source | states |
|---|---|---|
| CommandEntry.FinalWriteIsLast | internal/commands/commands.go:641-728 | In every interleaving of progress calls, timers, flushes and completion: once a final state is written it was the outcome decided, and no goroutine writes anything after it. |
| CommandEntry.EventsFollowWrites | internal/commands/commands.go:705-728 | Events leave in the order of the store writes and lag behind them by at most one; only the start record of a command that never ran goes unannounced. |
| CommandEntry.SettledOutcome | internal/commands/commands.go:548-684 | When every goroutine has returned, exactly one final state was written, last, and it was published last. |
| CommandEntry.LatestMessageNotLost | internal/commands/commands.go:599-638 | While a command is unfinished, an unwritten message has a pending timer or a flush that will still take a snapshot of it; with none left, the last write and event carry the current message. |
| CommandProgress.ProgressIsThrottled | internal/commands/commands.go:599-623 | A progress message is flushed at once if and only if an interval has passed since the last flush, or the start; otherwise a timer is set unless one is. Without a message, or once the command is finished, nothing happens. |
| CommandProgress.FlushesAreApart | internal/commands/commands.go:597-638 | On a clock that does not go back, no call within an interval after a flush flushes at once, however goroutines interleave. |
| CommandProgress.FinishedAsDecided | internal/commands/commands.go:641-698 | A finished command has the outcome and the message of one completion, or is aborted with the message of the abort; nothing changes that any more. |
| CommandProgress.StartDecides | internal/commands/commands.go:558-581 | A command whose start could not be saved fails without its handler; one whose start was saved is announced, and its handler runs if and only if the context is alive then. |
| CommandEntry.AttemptsGrow | internal/commands/commands.go:705-728 | Store writes are only ever appended, whatever runs later. |
| CommandEntry.NeverStuck | internal/commands/commands.go:599-728 | The two locks never deadlock: while a goroutine or timer is left, a step other than a new progress call is enabled. |
| CommandEntry.ProgressEnds | internal/commands/commands.go:599-728 | However the goroutines and timers left interleave, they take no more steps than a number fixed by where they are, unless the handler reports more progress: with NeverStuck, a command settles. |
| CommandEntry.Entry.Progress | internal/commands/commands.go:599-623 | Bridge: the progress callback is the critical section the interleavings are built from: ignore, coalesce, set the timer, or flush now. |
| CommandEntry.Entry.BeginFlush | internal/commands/commands.go:626-638 | Bridge: a flush takes the place of any timer still set and restarts the interval. |
| CommandEntry.Entry.TakeSnapshot | internal/commands/commands.go:705-728 | Bridge: a progress write of a finished or clean entry takes no snapshot; any other clears the dirty flag with the snapshot. |
| CommandEntry.Entry.MarkStarted | internal/commands/commands.go:548-582 | Bridge: starting sets the status and the start of the flush interval and leaves the rest. |
| CommandEntry.Entry.MarkComplete | internal/commands/commands.go:641-684 | Bridge: completion stops the timer and fixes the outcome in one critical section. |
| CommandEntry.Entry.MarkAborted | internal/commands/commands.go:687-698 | Bridge: an abort finishes the entry and touches neither timer nor interval. |
| CommandLanes.Manager.DispatchLocked | internal/commands/commands.go:500-532 | The pass over the queue, in place: what it starts and what it keeps are the in-order split of the old queue that the specification gives, and the buffer holds just the rest. |
| CommandOutcomes.DispatchInTwoSteps | internal/commands/commands.go:500-530 | Bridge: the pass of the system, which tests the context and then starts commands in a step of its own, does what the pass in place does. |
| CommandLanes.Manager.Consider | internal/commands/commands.go:500-532 | Bridge: one round of the pass: the command takes its lane when that has room, else it is kept in front of everything unread. |
| CommandLanes.Manager.Release | internal/commands/commands.go:535-545 | Bridge: freeing a lane and dispatching again are one critical section. |
| CommandLanes.Manager.Insert | internal/commands/commands.go:295-312 | Bridge: a command is refused when the manager stops, else appended at the end and the queue dispatched. |
| CommandLanes.Manager.StopAccepting | internal/commands/commands.go:472-482 | Bridge: shutdown takes the whole queue off, in order, and nothing is accepted or started any more. |
| CommandLanes.Manager.FindDuplicateLocked | internal/commands/commands.go:317-329 | An unfinished command of the same name and canonical body is found if and only if there is one, waiting or (unless a fresh one is asked for) running. |
| CommandOutcomes.RequestsJoinExactly | internal/commands/commands.go:252-330 | While requests are taken, one is not stored anew if and only if an unfinished command with its name and body is queued or, where joining is allowed, running; after the stop nothing is stored. |
| CommandOutcomes.StoredAsAsked | internal/commands/commands.go:252-302 | Every stored command has the name, the body and the lane some request asked for. |
| CommandQueue.LanesExact | internal/commands/commands.go:500-545 | In every reachable state the exclusive lane is busy exactly when one exclusive command runs, and the shared count is the number of other running commands, at most the workers. |
| CommandQueue.ExclusiveHandlersAlone | internal/commands/commands.go:548-582 | No two exclusive handlers run at the same time, in any run. |
| CommandQueue.NothingWaitsNeedlessly | internal/commands/commands.go:500-545 | Between the first pass and the end of the context, a waiting command has its lane occupied, unless a pass is just under way. |
| CommandOutcomes.NothingBeforeStart | internal/commands/commands.go:412-530 | Over every run in which Start has not been called no command is started and no handler called. |
| CommandOutcomes.StopsAtTheEnd | internal/commands/commands.go:412-484 | Over every run the queue stops only after the end of the context, or when Wait came before any Start; it is closed if and only if Wait was called. |
| CommandQueue.PassLeavesNothing | internal/commands/commands.go:500-532 | What a dispatch pass leaves in the queue has no capacity left for it. |
| CommandQueue.LanesAreFifo | internal/commands/commands.go:500-545 | Over a whole run each lane starts commands in the order they were accepted; the rest still waits in order or was drained by shutdown. |
| CommandQueue.QueuedOnce | internal/commands/commands.go:252-329 | At most one queued command per name and canonical body in every reachable state. |
| CommandQueue.UnfinishedOnce | internal/commands/commands.go:252-329 | With Enqueue alone, at most one unfinished command per name and body, wherever it is. |
| CommandQueue.HandlerAtMostOnce | internal/commands/commands.go:548-594 | A handler is called at most once per command, never before the start is in the store, and never for a command aborted before it could start: refused or drained by shutdown, or begun when the context had ended, whether its abort is still to be recorded or is on record. |
| CommandQueue.OneFinalState | internal/commands/commands.go:641-698 | A finished command has exactly one final state on record, any other none. |
| CommandOutcomes.OutcomeTellsHow | internal/commands/commands.go:548-698 | Over every run, told by its events alone: a command is Completed if and only if its handler returned without an error; Failed if and only if it returned one, or the command was given up, while the context lived; Aborted if and only if its abort was recorded after it was refused or drained, it was begun after the end of the context, or it ended with an error, or was given up, after that end. |
| CommandOutcomes.HandlerIsCalledExactly | internal/commands/commands.go:548-594 | A command that is done had its handler called if and only if its last look found the context alive; if not, it was aborted before it could start, its start could not be saved, or that look found the context ended. What is on record as started and as called is what the run did. |
| CommandOutcomes.AbortedExactly | internal/commands/commands.go:296-698 | The commands aborted before they could start are exactly those stored but turned down, those shutdown took off the queue, and those begun after the end of the context. |
| CommandQueue.ShutdownSettlesEverything | internal/commands/commands.go:456-496 | After shutdown, with nothing in flight, every command ever stored, those that raced the shutdown included, has exactly one final state. |
| CommandQueue.NeverStuck | internal/commands/commands.go:412-582 | Until all is quiet some step of a goroutine, a pass or an enqueue under way is enabled. |
| CommandQueue.ProgressEnds | internal/commands/commands.go:412-684 | From every reachable state, however the goroutines, passes and enqueues under way interleave, they take no more steps than a number fixed by that state: with NeverStuck, a queue that gets no new requests comes to rest (if handlers return). |
| CommandQueue.NothingStartsAfterCancel | internal/commands/commands.go:500-593 | Over every run after the end of the context: nothing is started but what the pass then under way starts, and every handler called later belongs to a command whose goroutine had already passed its last look at the context. |
| CommandQueue.CalledAfterCancelExactly | internal/commands/commands.go:571-593 | A command's handler is called in some run after the end of the context if and only if its goroutine had passed that look. |
| CommandQueue.StartedAfterCancelExactly | internal/commands/commands.go:500-532 | Anything is started in some run after the end of the context if and only if a pass is under way that finds room. |
| CommandQueue.PassIgnoresCancel | internal/commands/commands.go:500-532 | A pass interrupted by the end of the context starts just what it would have started. |
| CommandQueue.StartedAfterCancel | internal/commands/commands.go:504-530 | A real run in which the context ends between a pass's test and its starts, and a command is started. |
| CommandQueue.CalledAfterCancel | internal/commands/commands.go:571-580 | A real run in which the context ends between the last look and the call, and the handler is called. |
| CommandQueue.RecoverySparesOurs | internal/commands/commands.go:486-496 | Recovery aborts the rows of the previous process, all of them and no command of this one. |
| Scheduler.NextExecutionSettles | internal/commands/scheduler.go:327-360 | Computing the next run again changes nothing, and a change is reported exactly when there is one. |
| Scheduler.NextExecutionIsNear | internal/commands/scheduler.go:327-360 | The next run is never later than an interval from now, for every positive interval, clock and stored state. |
| Scheduler.HugeIntervalWraps | internal/commands/scheduler.go:334-356 | A concrete interval past 64 bits: the span wraps around and a new task's first run lies in the past. |
| Scheduler.QueuedExactlyWhenDue | internal/commands/scheduler.go:161-211 | For every positive interval a task is queued if and only if the startup grace is over and its span since the last run has passed, or its anchor has come. |
| Scheduler.NextRunNeverMovesLater | internal/commands/scheduler.go:327-360 | While nothing finishes, no sequence of checks on any clock, backward jumps included, moves the next run later. |
| Scheduler.AnchorNeverMovesLater | internal/commands/scheduler.go:344-352 | The anchor of a task that never ran never moves later, also while its interval changes. |
| Scheduler.NoTaskStarves | internal/commands/scheduler.go:161-211 | Once checked, a task is queued by any check an interval later and after the grace, whatever comes between. |
| Scheduler.RestsAfterRun | internal/commands/scheduler.go:241-293 | After a recorded run a task is not queued again before its span is over, whatever checks come between. |
| Scheduler.RestsForIntervalExactly | internal/commands/scheduler.go:334-343 | It rests for the whole interval if and only if the interval fits into 64 bits. |
| Scheduler.DisabledIsNeverQueued | internal/commands/scheduler.go:320-333 | With an interval of zero or less a task is never queued, whatever ran and was checked before, and its next run is cleared. |
| Scheduler.CheckSavesChanges | internal/commands/scheduler.go:200-268 | A check stores the interval it is given and is saved exactly when it changed something. |
| Scheduler.RecordTells | internal/commands/scheduler.go:262-283 | A recorded run is the last one, never later than the clock, and the next follows from it. |
| Scheduler.SavesAreAccounted | internal/commands/scheduler.go:286-312 | Over every run every change owes one save, every save begun pays for one, and every save that ended is one write; the task in memory is what its checks and runs made of it. |
| Scheduler.SpanWraps | internal/commands/scheduler.go:334-336 | A span is the 64-bit number that differs from the interval by a multiple of 2^64. |
| Scheduler.LastSaveIsNewest | internal/commands/scheduler.go:299-316 | Serialised saves write newer and newer states; once none is owed or under way the store holds what is in memory. |
| Scheduler.TaskState.ComputeNext | internal/commands/scheduler.go:327-360 | Bridge: the in-place computation, clock reset and anchor cap included, does what the results above are about. |
| Scheduler.TaskState.CheckTask | internal/commands/scheduler.go:184-207 | Bridge: one task of a check: what is saved and whether it is queued. |
| Scheduler.TaskState.RecordRun | internal/commands/scheduler.go:275-289 | Bridge: a finished run replaces the last execution before the next is computed. |
| Restore.RestoreIsAtomic | internal/backup/restore.go:806-864 | For every placement of crashes between file steps, a start that gets past the apply sees the restored database with the restored configuration, no side file of the old database, and everything replaced kept. |
| Restore.OldDatabaseSurvives | internal/backup/restore.go:927-987 | In every state on the way the old database is at its live name or one backup name, with its journal and WAL beside it once it has moved. |
| Restore.NoOldSideFiles | internal/backup/restore.go:927-957 | No state pairs the restored database with a side file of the old one. |
| Restore.SwapEndsUnlessBlocked | internal/backup/restore.go:927-987 | One swap gets to its end if and only if, for both files, a backup name is free and no side file of an earlier backup lies under it. |
| Restore.SwapInEndsUnlessBlocked | internal/backup/restore.go:927-987 | The same, file by file. |
| Restore.ApplyTells | internal/backup/restore.go:806-864 | The apply reports a restore as applied if and only if one was due, a swap begun or a complete staging awaiting no confirmation, and got to its end; with none due it is no error and touches nothing but an incomplete staging. |
| RestoreProgress.StuckForGood | internal/backup/restore.go:927-987 | A swap that is blocked stays blocked: no later start gets past the apply, however starts crash. |
| RestoreProgress.StrayJournalBlocks | internal/backup/restore.go:943-950 | A concrete directory, with a stray journal under the free name, that no start ever gets past. |
| RestoreProgress.GetsPastExactly | internal/backup/restore.go:806-987 | For a confirmed restore and any number of crashed starts, wherever they die: every first survivor gets past the apply if and only if there are free names enough. Each crash after config.xml was moved uses one up, because the next start creates a default one; a crash after the database was moved needs a second. |
| RestoreProgress.SurvivorRestores | internal/backup/restore.go:806-864 | With that room the first start that survives ends with the restore done. |
| RestoreProgress.UnconfirmedIsNeverApplied | internal/backup/restore.go:834-845 | Over any starts and crashes a restore that was not confirmed, or whose staging did not complete, is never applied, and no live or backup file changes. |
| Restore.SameName | internal/backup/restore.go:961-974 | While the live file has not moved, every restart finds the same backup name. |
| RestoreApply.DataDir.ApplyPendingRestore | internal/backup/restore.go:806-864 | Bridge: the apply as it runs, step by step: each state the directory passes through is one the results above speak of. |
| RestoreApply.DataDir.SwapIn | internal/backup/restore.go:927-957 | Bridge: side files, then the live file, then the staged file: in that order, and nothing once the file is in place. |
| RestoreApply.DataDir.FreeName | internal/backup/restore.go:961-974 | The name found is the first free one of the hundred tried, or none is free. |
| RestoreApply.DataDir.MoveIfExists | internal/backup/restore.go:977-987 | Bridge: a missing file is fine, an existing target is an error that moves nothing. |
| RestoreApply.DataDir.PruneRestoreBackups | internal/backup/restore.go:894-923 | Pruning passes only through directories between the old one and the one that keeps just the right generations. |
| RestorePrune.PruneKeepsOldDatabase | internal/backup/restore.go:894-923 | No state of pruning loses the old database the restore has just put aside. |
| RestorePrune.NewestGenerationsStay | internal/backup/restore.go:894-923 | Exactly `keep` generations stay, or all if there are fewer; one that goes is older than any that stays; the current one stays even when the clock went back. |
| RestorePrune.CurrentGenerationSurvives | internal/backup/restore.go:894-923 | Files of the current generation and files that are no backups are not touched. |
| RestorePrune.RankIsPlace | internal/backup/restore.go:908-915 | The place of a generation in the rearranged list is the number of newer ones, plus one for the current. |
| RestorePrune.GenerationOrder | internal/backup/restore.go:904-911 | Newest first, the current generation before all, each once. |
| RestoreStaging.OnlyAgreedIsApplied | internal/backup/restore.go:258-345 | In every run of stagings, confirmations and crashes a start applies only what was staged as confirmed or confirmed later; what is staged is complete, and marked while it awaits confirmation. |
| RestoreStaging.AgreementNeedsSameSecurity | internal/backup/restore.go:125-155 | A restore that awaits confirmation is agreed to only by a check that finds the security settings to be those it was staged under. This is about the check: the marker goes one step later. |
| RestoreStaging.SettingsMayChangeAfterCheck | internal/backup/restore.go:125-155 | Settings that change between that check and the removal of the marker do not stop the confirmation: the next start applies the restore. |
| RestoreStaging.FailedStagingKeepsOld | internal/backup/restore.go:258-345 | Staging that fails or dies before the swap of folders leaves the restore staged before as it was: giving up keeps it, and the start after a crash does to it what it does without the staging. |
| RestoreStaging.StagingStages | internal/backup/restore.go:258-345 | Undisturbed, staging ends with a complete new folder in place of any other, awaiting confirmation under the settings of the moment unless it was confirmed at once. |
| RestoreStaging.ConfirmingConfirms | internal/backup/restore.go:125-155 | A confirmation under the settings of the staging clears the marker; under others what is staged is gone and no start applies it. |
| RestoreStaging.EndsAreClean | internal/backup/restore.go:802-864 | A start applies exactly a complete folder that awaits no confirmation and leaves nothing staged; giving up and discarding remove their folder and nothing else. |
| RestorePlan.CurrentSecurityIsKept | internal/backup/restore_security.go:123-214 | For every backup and every current configuration that was normalised: the trust lists are the current ones; without opting in a security setting is the current one if and only if normalising does not change the current one again, which only a URL base can fail; other settings are the backup's. |
| RestorePlan.OptInTakesBackup | internal/backup/restore_security.go:123-181 | Asked for the security settings, the restore takes the backup's, but never the trust lists, nor a method that asks nobody to sign in, nor Forms for nobody. Users are the backup's if and only if asked for and not an empty list for an instance that has some. |
| RestorePlan.MethodIsCurrentOrForms | internal/backup/restore_security.go:170-181 | Whatever the current configuration was normalised from: the staged method is the current one or Forms, except if and only if the security settings are restored and the backup's method is an unknown one other than the current one; then the current one is unknown, too. |
| RestorePlan.OwnBackupIsPlanned | internal/backup/restore_security.go:123-214 | A backup of current settings that survive a save is never refused if they are valid under the environment: with or without opting in, no setting changes and none is shown as different. |
| RestorePlan.UnknownMethodIsTaken | internal/backup/restore_security.go:137-181 | That exception is real: under an override that hides an unknown method, a backup that differs in its unknown method is planned as it is. |
| RestorePlan.UnknownMethodExample | internal/backup/restore_security.go:137-181 | ... on a concrete file, backup and environment. |
| RestorePlan.FormsWithoutUsersIsNotNew | internal/backup/restore_security.go:141-181 | Whatever the current configuration was normalised from: Forms without a user is staged only where that was the state of things. |
| RestorePlan.DifferencesAreShownOnce | internal/backup/restore_security.go:150-198 | For every backup and every current configuration: every security or log setting that differs is recorded exactly once, and so are the users. |
| RestorePlan.UsersAreShown | internal/backup/restore_security.go:243-275 | The users are shown if and only if their lists differ in length, in a name but for its case, or in a password hash. |
| RestorePlan.ChangesShow | internal/backup/restore_security.go:150-198 | A change shows the values of both sides, but no API key; a log setting is marked as restored, the users as the plan has them. |
| RestorePlan.AppliedMeansStaged | internal/backup/restore_security.go:155-186 | A recorded difference is marked applied if and only if the staged value is the backup's, and not applied if and only if it is the current one. Both fail exactly for a URL base that normalising changes once more: one that is taken is not staged as it is, and one that is kept is not the current one any more and may become the backup's. The API key's values are not shown. |
| RestorePlan.AppliedExample | internal/backup/restore_security.go:155-186 | A concrete backup whose URL base is shown as applied while another one is staged. |
| RestorePlan.LiveExample | internal/backup/restore_security.go:155-186 | A concrete live config.xml with the URL base a / and a backup with /a: without opting in the difference is shown as not applied, yet /a is what is staged in the place of the current one. |
| RestorePlan.StagedFileIsSafe | internal/backup/restore_security.go:187-239 | The staged file reads back as the plan, takes everything that is no setting from the live file, has no new problem, and the program starts on it. |
| RestorePlan.StageSettings | internal/backup/restore_security.go:153-186 | The loop over the settings stages and records each by its own rule, whatever the others did to the configuration before. |
| Session.RevocationIsFinal | internal/auth/session.go:374-396 | Once RevokeSessions has swapped the state no later last check accepts a token issued before, nor one that a session accepted before renews afterwards. |
| Session.LoggedOutStaysOut | internal/auth/session.go:400-430 | After a logout no token of the session, signed with the state current then or an earlier one, passes a later last check, while requests keep within the slack. |
| Session.SlackIsExact | internal/auth/session.go:414-418 | A logout holds in every run if and only if the time to the last check plus the time to a renewal, rounded up to seconds, is within 61 s; outside it a concrete run revives the session. |
| Session.MinuteIsEnough | internal/auth/session.go:414-418 | Requests that finish within the minute the entry adds are within that slack. |
| Session.StateNeverReturns | internal/auth/session.go:374-390 | A signing state once replaced is never current again. |
| Session.AcceptedIsGenuine | internal/auth/session.go:257-285 | Whoever is accepted holds a token the server made for the user who logged in with that session, no longer than that login allowed; the list never exceeds 256. |
| SessionPassword.AcceptedIsSignedForHash | internal/auth/session.go:257-286 | In every run whoever is accepted holds a cookie signed with the current state for the password hash the user had when the request looked it up, and its session is not logged out. |
| SessionPassword.PasswordChangeIsFinal | internal/auth/session.go:257-309 | From the moment a user has another password hash, and until the old one is set again, no request that looks the user up is accepted with a cookie signed for the old one, whether issued before or renewed since. |
| SessionPassword.RenewalIsBound | internal/auth/session.go:296-309 | A cookie is renewed if and only if less than half of its lifetime is left, and then with the state and for the hash it was verified against, whatever they are by now. |
| SessionPassword.SessionIsAsSigned | internal/auth/session.go:285 | An accepted session carries the fields, the state and the hash its cookie was signed with, which is what a renewal signs. |
| SessionPassword.GoodCookieIsAccepted | internal/auth/session.go:257-286 | However other requests, logins, logouts and password changes interleave: a request whose cookie stays in force is never turned away, and is accepted once it has made its last check. |
| SessionPassword.GoodCookieGetsThrough | internal/auth/session.go:257-286 | Undisturbed, an issued cookie in force is accepted if it has neither expired nor more than its lifetime and a minute left; otherwise it is turned away at once. |
| SessionPassword.LoginIsInForce | internal/auth/session.go:135-164 | A login with the current hash gets a cookie that is in force, for its lifetime. |
| SessionPassword.KeptIsInForce | internal/auth/session.go:317-333 | A session kept through a change gets a cookie that is in force, signed anew. |
| SessionPassword.RotationRotates | internal/auth/session.go:374-396 | A rotation replaces the signing state by one of the next generation and empties the list; if no key could be saved it leaves everything as it was; there is one at a time. |
| Session.LogoutTakesEffect | internal/auth/session.go:400-430 | A logout is listed at once, or a full list makes it wait for a rotation, which then retires every token. |
| Session.RefusesLoggedOut | internal/auth/session.go:257-294 | The last check of a prompt request refuses a logged-out session: it is still listed, or its tokens had expired before the entry went. |
| Session.PruneKeepsListed | internal/auth/session.go:407-411 | Pruning forgets an entry only after the second it was made for. |
| Session.Service.Revoke | internal/auth/session.go:400-420 | Bridge: prune, then list or report a full list, never more than 256 entries. |
| Session.Service.IsRevokedOrRotated | internal/auth/session.go:289-294 | Bridge: revoked or no longer signed with the current state, in one critical section. |
| Session.Service.SwapState | internal/auth/session.go:385-388 | Bridge: state and list are replaced together. |
| SessionToken.ParseWritten | internal/auth/session.go:192-249 | What the server writes it reads back, field by field. |
| SessionToken.PayloadIsInjective | internal/auth/session.go:198-213 | The signature covers every field: equal payloads mean equal fields. |
| SessionToken.ReadIsIssuable | internal/auth/session.go:226-249 | However a token is spelled, what is verified is the canonical spelling of its fields. |
| SessionToken.ParseExactly | internal/auth/session.go:226-249 | Just the texts that spell a token are read, and as that token: five fields, numbers in 64 bits, 1 or 0, and hexadecimal texts of the right lengths in any case. |
| SessionToken.HexDigits | internal/auth/session.go:238-239 | Hexadecimal digits are read in both cases and nothing else is one. |
| ActionStore.PendingStaysRemovable | internal/database/repo_activity.go:351-447 | In every reachable state a pending removal targets a version marked for removal, neither protected nor kept by the user, in a group that exists and is neither ignored nor resolved. |
| ActionStore.QueuedTargetsRemovable | internal/database/repo_activity.go:80-154 | Any step that queues, changes while queued, or starts a removal sees its target removable in the same transaction. |
| ActionStore.NeverQueuedAgain | internal/database/repo_activity.go:174-190 | If callers never overwrite done or cancelled rows with failed, skipped or dry run, such a row is never pending or running again in any run. |
| ActionStore.RevivedRunsAgain | internal/database/repo_activity.go:174-190 | Recorded as failed, skipped or a dry run, a done or cancelled removal runs again if and only if its target is marked for removal. |
| ActionStore.DoneRunsAgain | internal/database/repo_activity.go:174-190 | A real run, from empty tables, in which a removal that succeeded runs a second time that way. |
| ActionStore.CancellationReopens | internal/database/repo_activity.go:364-421 | Every cancellation, whatever step made it, leaves the row's group with something to run, or not queued, unless an update moved the row to another group. |
| ActionStore.UpdateStrandsExactly | internal/database/repo_activity.go:250-253 | An update to cancelled leaves the row's own group queued with nothing to run if and only if it names another group and nothing else there is left. |
| ActionStore.UpdateStrands | internal/database/repo_activity.go:205-264 | A real run, from empty tables, in which that happens. |
| ActionStore.CancelIfPendingExact | internal/database/repo_activity.go:465-482 | Only a pending row is cancelled, nothing else changes, and its group reopens exactly when it was queued for nothing else. |
| ActionStore.RunningIsLeftAlone | internal/database/repo_activity.go:324-329 | No scan, exclusion, status change or deletion touches a running removal. |
| ActionAnswers.CreateAnswers | internal/database/repo_activity.go:114-154 | A removal is created unless it is to be queued for a version not marked for removal; else the tables stay as they were. |
| ActionAnswers.UpdateAnswers | internal/database/repo_activity.go:186-260 | What an update answers, told by the old tables: an end, the progress of a running removal and a cancellation are written whatever the target is by now; a start, and a return to the queue, if it is marked for removal. An accepted update writes just the row; a queued row whose target is gone is cancelled; every other refusal changes nothing. |
| ActionAnswers.UpdateReopens | internal/database/repo_activity.go:186-260 | An update touches at most the group whose removal it ends, and only to reopen it because nothing of it is left to run. |
| ActionAnswers.ExecutionIsNotInterrupted | internal/database/repo_activity.go:186-260 | Over every run: while its reports say that a removal runs, and at last how it ended, its row is what was reported last, whatever is scanned, overridden, ignored, deleted or cancelled meanwhile. |
| ActionAnswers.CancelledExactly | internal/database/repo_groups.go:704-964 | Just the pending removals of a group that is emptied, those a scan or an override leaves without a marked version, and the one asked for are cancelled; every other row stays. |
| ActionStore.CancelSpec | internal/database/repo_activity.go:364-421 | Cancelling only ends the rows it hits and reopens groups it emptied; no group it touched is left stranded. |
| ActionStore.ChoiceSurvives | internal/database/repo_groups.go:463-528 | A user's choice about a version survives any number of scans, also while the version is gone, until another is made or the group is deleted. |
| ActionStore.ScanLeavesKeeper | internal/database/repo_groups.go:530-538 | A scan never leaves an open group of versions without one to keep, other than for review. |
| ActionAnswers.ScanStores | internal/database/repo_groups.go:384-700 | A scan is accepted exactly for a key and proper versions and leaves just these in the group: known ones keep their ids, each has its choice and protection and is decided by them, an ignored group stays ignored, one without a version to keep goes to review; other groups are untouched. |
| ActionAnswers.ScanAccepts | internal/database/repo_groups.go:384-420 | A scan is accepted exactly when its key and every version have a name that is not blank and no two versions have the same; else nothing changes. |
| ActionAnswers.OverrideSets | internal/database/repo_groups.go:824-850 | An override stores the choice for the version named, decides to keep it if that is the choice, and changes no other version. |
| ActionAnswers.StatusSetsIf | internal/database/repo_groups.go:704-785 | A conditional status change is made if and only if the group has one of the statuses named, and changes that group only. |
| ActionAnswers.UnseenSets | internal/database/repo_groups.go:857-905 | Just the unseen groups that are open are resolved. |
| ActionStore.UpsertKeeps | internal/database/repo_groups.go:384-687 | A scan that rewrites a group keeps the invariant behind all this: stale removals are cancelled with it. |
| ActionStore.OverrideKeeps | internal/database/repo_groups.go:824-849 | So does an override. |
| ActionStore.UnseenKeeps | internal/database/repo_groups.go:857-907 | So does resolving what a scan no longer sees. |
| ActionStore.DeleteKeeps | internal/database/repo_groups.go:951-963 | So does deleting a group. |
| ActionStore.StatusChangeKeeps | internal/database/repo_groups.go:704-782 | So does a status change, into a blocking status or out of one. |
| ActionTables.Store.CreateAction | internal/database/repo_activity.go:114-154 | Bridge: the insert with its check, on the tables in place. |
| ActionTables.Store.UpdateAction | internal/database/repo_activity.go:205-264 | Bridge: the update with its refusals and the cancellation of a refused start. |
| ActionTables.Store.CancelActions | internal/database/repo_activity.go:364-400 | Row by row, then the groups the rows belong to; the count is that of the rows. |
| ActionTables.Store.ReopenEmptiedGroups | internal/database/repo_activity.go:407-421 | Exactly the queued groups among those given that have nothing pending or running. |
| ActionTables.Store.CancelOne | internal/database/repo_activity.go:465-482 | Bridge: true only for a row that was pending. |
| ActionTables.Store.SetStatus | internal/database/repo_groups.go:704-782 | Bridge: the status change with its cancellations. |
| ActionTables.Store.MergeFiles | internal/database/repo_groups.go:485-500 | Rows keep their ids and choices, new ones take the next ids, and a retained choice is taken up again. |
| ActionTables.Store.PutAside | internal/database/repo_groups.go:519-524 | Choices about versions that leave are retained. |
| ActionTables.Store.Scan | internal/database/repo_groups.go:384-687 | Bridge: the whole upsert. |
| Config.NormalTwice | internal/config/config.go:382-454 | Every setting but the URL base is settled by normalising once; the URL base if and only if it then ends in no white space. |
| Config.UrlBaseTwice | internal/config/config.go:413-419 | Normalising a URL base again changes it exactly when taking slashes off has laid white space bare. |
| Config.ListKeepsWords | internal/config/config.go:406-408 | A tidied list splits into the entries that were typed. |
| Config.ReadBack | internal/config/fields.go:68-125 | A printed value reads back as itself, its text trimmed. |
| ConfigRules.ValidExactly | internal/config/validate.go:29-140 | A configuration has no problem if and only if, normalised, it keeps every rule: addresses and ports, the path segments of the URL base, the key's length and characters, the certificate under SSL, the words of the enumerated settings, sizes and names without control characters. |
| ConfigRules.SpellingsOf | internal/config/config.go:382-454 | Case and white space around the enumerated settings do not matter, and older names are taken for the newer ones. |
| ConfigManager.NothingBadIsSaved | internal/config/config.go:291-347 | Over any sequence of updates: what is in effect is the environment over the file and valid, and while anything is overridden the file has no problem it did not have at load. |
| ConfigManager.UpdateAnswers | internal/config/config.go:291-347 | An update is saved if and only if what would be in effect is valid and, under an override, the file gains no problem; then file and effective configuration are the wanted one with the owned settings put in, and otherwise nothing changes. |
| ConfigManager.UpdateTakesEffect | internal/config/config.go:291-347 | After an update that is answered as saved every setting the environment does not own holds the wanted value, normalised, in the file and in effect; every owned one keeps the file's in the file and the environment's in effect. Only a URL base that normalising changes once more differs. |
| ConfigManager.FileIsNormalised | internal/config/config.go:160-347 | After any updates the settings of the file are ones that normalising gave, as the results on a restore ask of the current configuration. |
| ConfigManager.OwnedSettingsStay | internal/config/config.go:304-309 | Settings the environment owns keep their loaded values over any run, but for a URL base that ends in white space. |
| ConfigManager.LooseUrlBaseDrifts | internal/config/config.go:304-310 | That exception is real: the first saved update changes it. |
| ConfigManager.BaseDrifts | internal/config/config.go:304-310 | ... on a concrete file with the URL base "a /" under an override. |
| ConfigManager.AlwaysStartsAgain | internal/config/config.go:160-199 | A file clean at load: after any run the program starts on what was saved, with the same environment and with every override removed. |
| ConfigManager.ValidStarts | internal/config/config.go:173-191 | If the environment over a file is valid as it is, the program starts on that file, whatever reading it back trims or defaults. |
| ConfigManager.CheckedFileStarts | internal/config/file.go:97-112 | A file that passes CheckFile starts with this environment, and its own problems are problems the current file has. |
| ConfigManager.SavedFileIsClean | internal/config/config.go:311-347 | Without overrides what is saved is valid on its own if and only if normalising the wanted URL base twice lays no white space bare. |
| ConfigManager.CleanFileGetsProblem | internal/config/config.go:338-341 | On any clean file: the URL base "a / /" is saved as one that has a new problem. |
| ConfigManager.FewerOverrides | internal/config/validate.go:36-56 | With only some overrides left, a file valid with all and with none is valid if and only if the mix does not clash over the ports or the certificate. |
| ConfigManager.SwappedPortsClash | internal/config/validate.go:36-56 | For every file with SSL on, overrides that swap the ports make such a clash when one is removed. |
| ConfigManager.ValidIsSettled | internal/config/validate.go:27-96 | A valid configuration is settled: normalising its canonical form changes nothing. |
| ConfigEnv.LookupEnv | internal/config/fields.go:159-187 | The entry that decides is the documented spelling if set, else the smallest spelling, and the first of equal ones; none if and only if none is set. |
| ConfigEnv.OneDecides | internal/config/fields.go:182-187 | There is only one such entry. |
| ConfigEnv.CutAtFirst | internal/config/fields.go:159-164 | A name without "=" and any value are cut apart again at the first "=". |
| ConfigEnv.EntrySets | internal/config/fields.go:159-164 | Just an entry with an equals sign sets a variable, in any case of its name, and not with white space only. |
| ConfigEnv.ReadEnv | internal/config/fields.go:135-153 | Exactly the settings with a set variable are overridden, each by the entry that decides, and reading fails if and only if one of those cannot be read. |
| ConfigEnv.Manager.UpdateWith | internal/config/config.go:291-331 | Bridge: the update in place: owned fields restored one by one, then the checks, then the save, which alone changes file and effect. |
| ConfigEnv.Manager.ApplyEnv | internal/config/fields.go:190-197 | Field by field the environment's value or the file's. |
| ConfigDocument.ParseRender | internal/config/xmlfile.go:177-194 | A printed document reads as the same nodes with exactly the printed settings, and nothing to rewrite. |
| ConfigDocument.DuplicatesCollapse | internal/config/xmlfile.go:49-84 | Of a setting the first value that is not blank counts, of any other element the first stays, and all else stays in order. |
| ConfigDocument.ReadIsTidy | internal/config/xmlfile.go:135-173 | Whatever is read, each setting and each other name occurs once. |
| ConfigDocument.DecodeCompletes | internal/config/config.go:227-240 | Decoding completes a document: every setting once, all else as it was read. |
| ConfigDocument.RoundTrip | internal/config/config.go:227-259 | A configuration printed into a complete document decodes to itself with nothing to rewrite if and only if its values are settled, trimmed and not blank where a default would be put. |
| ConfigDocument.RenderOntoAdoptsSettingsOnly | internal/config/file.go:55-76 | Rendering onto a base takes nothing from elsewhere but the settings, each with the value asked for; the file reads back as them if and only if each lasts. |
| ConfigDocument.RewrittenFileHolds | internal/config/file.go:18-43 | The configuration RewriteFile returns is what its file holds if and only if each setting, before it was normalised, lasts: the URL base ends tight without its slashes, lists are trimmed, required texts are not blank. The documentation promises it always. |
| ConfigDocument.LooseFileDiffers | internal/config/file.go:18-43 | A concrete file for which it is not. |
| ConfigDocument.ParseDocument | internal/config/xmlfile.go:49-173 | The token loop does what the results on reading speak of. |
| ConfigDocument.RenderDocument | internal/config/xmlfile.go:177-194 | So does the printing loop. |
| ConfigDocument.DecodeParsed | internal/config/config.go:227-259 | So does decode, with its defaults, new key and rewrite flag. |
| Text.SplitJoin | internal/config/fields.go:50-54 | Entries joined by ", " split into the same entries. |
| Text.TrimAround | internal/config/config.go:413-419 | Trimming takes off what surrounds a text, and no more. |
| Text.AtoiItoa | internal/config/fields.go:68-93 | A printed number reads back, within 64 bits. |
| Text.AtoiExactly | internal/config/fields.go:68-93 | Just a text of an optional sign and digits whose number is within 64 bits is read, and as that number. |
| Limiter.GuessingIsSlow | internal/auth/limiter.go:91-126 | In every run, on any clock: since a key was last forgotten, evicted or reset, its n-th counted attempt comes at least the sum of all earlier delays after the first; the table never exceeds 10000 keys. An aborted attempt leaves its time behind, so an entry of the log can stand for one. |
| Limiter.CapPerAttempt | internal/auth/limiter.go:77-86 | Past the doubling every further attempt costs the full cap. |
| Limiter.DelayIsCappedDoubling | internal/auth/limiter.go:77-86 | The delay is the doubled base, capped, over unbounded numbers: the shift neither overflows nor its shortcut shows. |
| Limiter.DelayGrows | internal/auth/limiter.go:77-86 | More failures never mean a shorter wait, and none outlasts the cap. |
| Limiter.PoliciesAreSane | internal/auth/limiter.go:30-54 | Both policies meet what the two results above need. |
| Limiter.ForgettingIsHarmless | internal/auth/limiter.go:91-99 | A key is forgotten only after its wait is over. |
| Limiter.OnlyTheStalestGoesEarly | internal/auth/limiter.go:136-151 | A key still waiting leaves the table only as the stalest of a full table. |
| Limiter.AttemptAnswers | internal/auth/limiter.go:91-114 | An attempt waits if and only if its key was tried within the last hour and the delay after its failures is not over, and is told exactly what is left; one that may be made is counted, from one again after an hour. No other key is touched but those that leave a full table. |
| Limiter.AbortUndoes | internal/auth/limiter.go:117-126 | Taking an attempt back leaves the failures as they were before it, none for a new key. |
| Limiter.Table.BeginAttempt | internal/auth/limiter.go:91-114 | Bridge: forget, wait or count, with the eviction in between. |
| Limiter.Table.AbortAttempt | internal/auth/limiter.go:117-126 | Bridge: an aborted attempt is uncounted and keeps the time of the last. |
| Limiter.Table.EvictLocked | internal/auth/limiter.go:136-151 | The loop drops what has expired, and the stalest key if that frees no place. |
| LogSampler.NothingIsLost | internal/auth/limiter.go:209-227 | Every line asked for was logged, reported as suppressed, or is still counted to be. |
| LogSampler.StretchIsCapped | internal/auth/limiter.go:209-227 | In any minute of a clock that does not go back, at most twice the burst of each kind is logged. |
| LogSampler.WindowIsCapped | internal/auth/limiter.go:209-227 | Within one window, at most the burst. |
| LogSampler.AllowAnswers | internal/auth/limiter.go:209-227 | A line is logged if and only if a new window begins with it, a minute after the last or when the clock has gone back, or its kind had fewer than the burst in the window; it tells how many were suppressed, and touches no other kind. |
| LogSampler.Counter.AllowLine | internal/auth/limiter.go:209-227 | Bridge: one line, with a window opened by a clock that went back. |
| NonNil.SearchDecides | internal/api/nonnil.go:51-90 | The search over a cyclic type graph ends and answers yes if and only if a list that is no byte list, a map or an interface is reachable, whatever right answers it finds cached. |
| NonNil.SearchIsComplete | internal/api/nonnil.go:62-90 | What is reached by a shortest way is found although re-entered types count as no. |
| NonNil.SearchIsSound | internal/api/nonnil.go:62-90 | A yes is never wrong. |
| NonNil.Fixer.NeedsFix | internal/api/nonnil.go:51-58 | The cached query agrees with reachability and keeps the cache right. |
| NonNil.Fixer.ComputeNeedsFix | internal/api/nonnil.go:62-90 | The search with the visiting set changed and restored in place. |
| NonNil.FixLeavesNoNil | internal/api/nonnil.go:93-158 | No list or map the encoder looks at is nil afterwards, down to the depth bound. |
| NonNil.FixOnlyFills | internal/api/nonnil.go:93-158 | Nothing else changes: self-encoding types, byte lists, hidden members and nil pointers are as they were. |
| NonNil.FixKeepsGood | internal/api/nonnil.go:93-158 | A value with nothing to fill in comes back equal. |
| Reevaluation.RequestsAreServed | internal/api/settings.go:736-779 | At most one runner at any time, pending implies running, and every accepted request is followed by a run that starts after it, or one is due, unless the server was closed. |
| Reevaluation.QuietMeansServed | internal/api/settings.go:769-773 | With no runner and the server open, no request is left over. |
| Reevaluation.DueRunStarts | internal/api/settings.go:756-777 | A run that is due starts after at most three steps of its runner. |
| Reevaluation.CloseEndsIt | internal/api/api.go:168-178 | After Close at most the run already launched starts, and none once Close has waited. |
| Reevaluation.ClosingDropsExactly | internal/api/settings.go:769-776 | When the server closes, an accepted request that no run has followed can still be served, in some continuation, if and only if a runner is about to run. A run that starts after Close counts as serving, although Close has ended its context. |
| Reevaluation.CloseDropsPending | internal/api/settings.go:769-773 | A concrete run in which a request made before Close is dropped. |
| Reevaluation.NoRunUnasked | internal/api/settings.go:736-779 | In every run there are never more re-evaluations than accepted requests, those that are due included. |
| Reevaluation.WaitIsFinal | internal/api/api.go:168-178 | Waiting at the close ends only with no runner left, and then nothing runs any more. |
| Reevaluation.Worker.Ask | internal/api/settings.go:740-753 | Bridge: refuse, coalesce or launch, in one critical section. |
| Reevaluation.Worker.AfterRun | internal/api/settings.go:769-776 | Bridge: go round again only for a pending request on an open server. |
| WebhookBucket.WindowIsBounded | internal/api/webhooks.go:55-68 | In any window of a monotone clock at most the burst and one scan per refill the window lasts. |
| WebhookBucket.ScansArePaid | internal/api/webhooks.go:55-68 | On any clock, scans are paid from the bucket and the time that went forward. |
| WebhookBucket.JumpsPayTwice | internal/api/webhooks.go:59-62 | A clock that jumps back and forth pays twice for the same time. |
| WebhookBucket.RefillIsEnough | internal/api/webhooks.go:55-68 | A refill after any call a scan is allowed again. |
| WebhookBucket.Limiter.AllowScan | internal/api/webhooks.go:55-68 | Bridge: the bucket in place. |
| Network.SplitQuoted | internal/auth/network.go:423-438 | The pieces rejoined are the text, none holds a separator outside quotes, and each but the last ends outside quotes (section 4 of RFC 7239). |
| Network.SplitIsUnique | internal/auth/network.go:423-438 | There is only one way to split a text so. |
| Network.PrefixIsIgnored | internal/auth/network.go:482-495 | Once a chain holds an untrusted or unreadable entry, whatever is prepended changes nothing. |
| Network.ClientIs | internal/auth/network.go:462-492 | The function the other results speak of is the walk's answer, in terms of the chain. |
| Network.ClientIsWhoTheProxySaw | internal/auth/network.go:387-397 | Whatever X-Forwarded-For a client sends: behind a trusted proxy that adds the address it saw to the last line, the client is that address, or the proxy when it cannot be read. |
| Network.ClientIsNamed | internal/auth/network.go:469-496 | The answer is an address the chain names that is not a trusted proxy's; the left-most, when every hop is one; or the peer, and then there is no entry or an unreadable one. |
| Network.ClientIp | internal/auth/network.go:469-496 | The client: a peer that is no trusted proxy; else, in X-Forwarded-For if it has entries, else in Forwarded, else in X-Real-Ip, the right-most entry that is no trusted proxy's, or the peer if that one cannot be read; with none, the left-most; with no entry, the peer. |
| Network.LastDecisiveIs | internal/auth/network.go:482-495 | The entry that ends the walk is the right-most that is untrusted or unreadable. |
| Network.LineAppend | internal/auth/network.go:387-397 | What a proxy appends to a header line comes last in the chain. |
| Migrate.MigratedOnce | internal/database/migrate.go:64-152 | However processes race, crash or fail: no migration is executed twice or if recorded before, they are executed in ascending order, and a process that finishes leaves all recorded. |
| Migrate.NewerIsRefused | internal/database/migrate.go:98-108 | A database written by a newer build is left alone by everybody. |
| Migrate.EveryProcessFinishes | internal/database/migrate.go:110-121 | A process that goes on finishes. |
| Migrate.LoneProcess | internal/database/migrate.go:66-123 | A process that has the database to itself refuses a newer one, and otherwise executes just the missing migrations in order and leaves all recorded. |
| Migrate.Database.MigrateAll | internal/database/migrate.go:68-123 | Alone: refuse a newer database untouched, else execute just the missing ones in order. |
| Migrate.Database.ApplyMigration | internal/database/migrate.go:129-152 | Bridge: the check under the write lock decides; executing and recording are one. |

## Left out

- HTTP routing and handlers, server-sent events, the web interface, clients of media servers and *arr applications, notifications: input and output around the protocols.
- The scanner, the decision engine and the executor: the action store takes their decisions as given.
- SQL text, zip and XML syntax, base64, HMAC, bcrypt and JSON: tables, lists of document nodes, an ideal tag and canonical texts stand for them.
- Clocks, randomness and environment readings are parameters of the steps. Session.dfy lets the clock only go forward; the scheduler, the limiter, the sampler and the bucket take any clock unless a result says otherwise.
- Non-ASCII case folding and white space beyond Latin-1, and lengths of settings in bytes where characters take several: Text.dfy works on the characters it lists.
- File permissions and sizes, symbolic links, syncing of folders, leftover temporary files (`checkStagedDir`, `cleanupTemporaries`, size limits of config.xml).
- Removing a folder is one step; split into single unlinks, an unconfirmed restore could lose its marker first.
- Failing store writes other than that of a command's start and of a save of the configuration, and registering a command again under another spelling.
- The persisted copy of the revocation list and restarts of the process: Session.dfy covers one process, and the final clear of the stored list can overwrite a newer one.
- Device cookies, user limits on password hashing and the choice of cookie names.
- The queueing of a task around its completion: the scheduler's record of a run and the command's finished flag are separate steps that CommandQueue.dfy does not join to Scheduler.dfy.
- Loading rewrites a file that is not canonical; ConfigManager.Load takes the decoded settings, and ConfigDocument.Decode says when the file is to be rewritten.
- OnChange subscribers, and concurrent readers of the configuration: updates are serialised.
- Session.LoggedOutStaysOut: is stated for runs that keep to the spans, because SlackIsExact shows the promise fails outside them.
- ActionStore.NeverQueuedAgain: is stated for callers that do not overwrite done or cancelled rows with another outcome, because RevivedRunsAgain shows it fails otherwise.
- Reevaluation.RequestsAreServed: makes no promise once the server is closed, because ClosingDropsExactly shows when it fails.
- ConfigManager.AlwaysStartsAgain: is stated for removing every override, because FewerOverrides shows when removing some of them fails.
- Restore.Load: creates a missing config.xml; that the program also rewrites a live one that is not canonical, before the apply, is not modelled.
- Restore.RestoreIsAtomic: speaks of starts up to the pruning of old generations, which RestorePrune covers on its own.
- NonNil.Fix: values are finite trees; a cyclic value is cut at the depth bound only in the program. Map keys and the order of map entries are not modelled.
- WebhookBucket.Allow: uses real numbers, so rounding of floating point is not modelled.
- Network.Client: takes the reading of an address and the trusted ranges as functions; the parsing of addresses, ports and zones is not modelled, nor is the local-request check.
- RestorePlan.PlanRestore: the rebuilding of the database, its webhook token and the other recorded differences of the database are not modelled.
- Limiter.Evict: of equally stale keys any may be the victim, as in the iteration of a map.
- Migrate.Next: a failing migration is a process that stops; reading and sorting the embedded files is not modelled.
