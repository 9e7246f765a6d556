# A verified model of resticpal

resticpal backs up Windows machines with restic: a service schedules and runs backups, a management server may hand it
signed policies, and a desktop application shows and edits its configuration. This project models the parts of it in
which several threads, stores or streams have to agree, and proves what they keep in every run and for every input.

`dafny verify dfyconfig.toml` checks the whole project.

| modules | what they model |
|---|---|
| `Config`, `Schedule`, `Outcomes`, `Runtime`, `RuntimeObject` | the configuration, the schedule decision, the state behind the service's one mutex with every transition made under it, and the object whose methods make them |
| `ServiceSystem` | the running service as interleaved threads: event loop with its queue and stale configuration snapshots, the single request thread, the management thread, and backup, repository and install workers |
| `EventLoop` | the event loop and the backup worker as objects that call the runtime's methods while other threads run in between: what they do is a run of that system |
| `RuntimeLaws`, `ServiceSafety`, `ServiceTheorems` | the invariant of every run: one worker at a time, status and active backup coupled, backups only against the verified repository |
| `ServiceHold`, `ServiceRetention`, `ServiceRepository`, `ServiceLedger` | the update hold, what earns a prune, what a repository operation's result leaves, and when an unattended backup starts, over whole runs |
| `Enrollment` | enrollment and unenrollment as transactions over credential files, config.toml and the policy cache, with a journal of every disk state a crash could leave |
| `PolicySequence` | the anti-rollback sequence shared by the management worker, its cache file and restarts |
| `Status`, `OutputReader`, `FailureDetails`, `MergedCount`, `BackupOutcomes`, `History`, `BackupRun` | restic's output, from arbitrarily cut pipe reads through the bounded collectors of two streams to pruned history tables and the facts the reader is shown |
| `ConfigurationSync`, `PageReload` | the desktop application's single-flight configuration synchronization composed with its per-page reload plan |
| `WindowsPath`, `PathText`, `Command` | lexical Windows paths, their text and containment, the command lines built for restic and how restic reads them back |
| `Frame`, `FailureDelivery` | JSON framing of the failure-detail response and its way from the history tables to the reader |

A run is a sequence of steps, each enabled where it is taken; theorems over runs are by induction on their last step.
Times are integers in milliseconds and may move in any direction unless a theorem says otherwise. Failures of the
operating system, replies of servers, answers of callbacks, random reference suffixes and the moments at which threads
interleave are arbitrary.

Where the code does not keep what its design suggests, the model follows the code, shows a run or an input on which it
fails, and proves the exact condition:

- Unenrollment tests that nothing runs, releases the state mutex, and writes the status later. A backup that starts in
  between is shown as unconfigured (`UnenrollmentRacesABackup`) or, with a configured successor, gets a deadline while it
  runs (`UnenrollmentDatesABackup`); no other step can separate the status from the active backup (`CouplingBreaksIff`),
  and the race ends with the backup it raced (`RaceEndsWithItsBackup`). Workers still never overlap (`OneWorkerAtATime`).
  An update hold accepted in that time loses its status when the backup ends (`OverlappedHoldIsOverwritten`); every
  other hold keeps it (`HoldIsQuiet`).
- Unenrollment also skips the repository check the other writers make. The repository then counts as usable without being
  the verified one exactly when another one than the verified one is left, and exactly until something asks for its
  validation (`UnverifiedAfterStepIff`, `UnverifiedExactlySince`); a backup can start in that time
  (`UnenrollmentStartsUnverified`).
- A report that equals the revision observed before the one in flight is declined and lost
  (`ReturningRevisionIsLost`, `QuiescentObservesLatestIff`).
- A management worker whose first activation after a restart finds the runtime busy keeps minimum sequence zero, and a
  refresh may then apply an older policy (`BusyActivationRollsBack`, `RefreshRollsBackIff`).
- A manifest that expires before its cache is written leaves a cache no restart can use, and the restart may then apply an
  older policy (`ExpiredCacheRollsBack`, `RestartRollsBackIff`).
- A credential whose protection fails after the file was moved stays behind as an orphan when enrollment fails
  (`CommitEnrollment`), and retiring a reference that is still in use under another name leaves the configuration without
  its credential.
- Merged streams agree with one collector on the names and on whether something was omitted, but not on how much: the
  merged count is too high by the events whose name the second stream alone had no room for and too low by the repeats of
  names that only the second stream alone had room for (`MergedCountDiffers`). Both happen (`MergedCountCanExceed`,
  `MergedCountCanFallShort`), and neither while at most a hundred distinct names arrive (`FittingStreamsMergeExactly`).
- An evaluation that returns before deciding can leave a deadline that has passed, and then the loop does not sleep
  (`SleepsIff`, `NoBusySpin`). A run gets there without a race and with a forward clock (`SpinIsReached`).
- An evaluation decides under the configuration it read. A backup it starts finds the verified repository exactly when
  the configuration at the decision still names one and no unenrollment left another (`StartsAreVerified`); a policy that
  removes the repository in between does not stop the start (`StaleStartFindsNoRepository`).

## Model

| member | source | states |
|---|---|---|
| `Schedule.AutomaticStartIff` | crates/resticpal-core/src/schedule.rs:55-146 | an unattended decision starts exactly when a full interval has passed since the last success, the backoff is over and nothing blocks; a last success in the future is never due; it is idle exactly when not due |
| `Schedule.OverflowingIntervalIsDue` | crates/resticpal-core/src/schedule.rs:60-73 | where the interval cannot be added to the clock, only the backoff keeps the decision idle |
| `Schedule.ManualStartIff` | crates/resticpal-core/src/schedule.rs:77-146 | a requested backup ignores interval, backoff, wake grace and battery, but neither a missing nor a disallowed metered network |
| `Schedule.IdleDeadlineIsBounded` | crates/resticpal-core/src/schedule.rs:55-98 | no reported deadline is past, or later than one interval from now or the backoff time, however wrong the recorded success |
| `RuntimeObject.ServiceRuntime.EvaluateSchedule` | apps/resticpal-service/src/runtime/scheduler.rs:20-125 | the field updates amount to the evaluation function all theorems about runs use |
| `RuntimeObject.ServiceRuntime.LeaveHold` | apps/resticpal-service/src/runtime/scheduler.rs:52-65 | the hold is cleared, and the saved state and deadline return only to a status that still shows the update |
| `RuntimeObject.ServiceRuntime.ConsultSchedule` | apps/resticpal-service/src/runtime/scheduler.rs:66-124 | early returns change nothing; each decision sets status, deadline and request flags as the rescheduling function says |
| `RuntimeObject.ServiceRuntime.UpdateConfigurationStatus` | apps/resticpal-service/src/runtime/state.rs:299-342 | status and deadline follow configuration and repository state |
| `RuntimeObject.ServiceRuntime.FinishUpdateInstall` | apps/resticpal-service/src/runtime/lifecycle.rs:21-48 | completed, failed and indeterminate installs leave hold, status and the active flag as specified |
| `RuntimeObject.ServiceRuntime.BeginRetentionPhase` | apps/resticpal-service/src/runtime/lifecycle.rs:83-110 | an append-only repository gets no retention; otherwise the plan says whether a prune is due |
| `RuntimeObject.ServiceRuntime.FinishRetentionPhase` | apps/resticpal-service/src/runtime/lifecycle.rs:112-137 | only a successful retention records its time, only a pruning one the prune time |
| `RuntimeObject.ServiceRuntime.FinishBackupAt` | apps/resticpal-service/src/runtime/lifecycle.rs:175-212 | success clears backoff and failures; anything else sets the backoff of the failure count |
| `RuntimeObject.ServiceRuntime.FinishRepositoryOperation` | apps/resticpal-service/src/runtime/lifecycle.rs:278-329 | only the running operation is finished; only success records the configuration's identity as verified |
| `EventLoop.EventLoop.RunEventLoop` | apps/resticpal-service/src/main.rs:494-635 | the whole loop, with any steps of the other threads between its actions, is a run of the service's steps and keeps their invariant; a loop that left before its grace period ran out left no backup and no repository worker behind |
| `EventLoop.EventLoop.Act` | apps/resticpal-service/src/main.rs:504-635 | each action of the loop is one enabled step of the service or none, and it leaves only with both tokens clear or the grace period over |
| `EventLoop.EventLoop.Dispatch` | apps/resticpal-service/src/main.rs:506-607 | the tokens, calls and spawns for an event amount to the event's step |
| `EventLoop.EventLoop.EvaluateAndMaybeStart` | apps/resticpal-service/src/main.rs:637-667 | an evaluation and the worker it starts, or fails to start, amount to the evaluation's step under the configuration read before |
| `EventLoop.EventLoop.ApplyManagedPolicy` | apps/resticpal-service/src/runtime/enrollment.rs:345-406 | a changed source, an unresolvable policy and a busy runtime are told apart and each leaves the service as it was; otherwise the policy is the service's step |
| `EventLoop.EventLoop.RunBackupWorker` | apps/resticpal-service/src/main.rs:682-712 | the whole life of a backup worker, with any steps of the loop and the other threads between its actions, is a run of the service's steps and keeps their invariant |
| `EventLoop.EventLoop.Perform` | apps/resticpal-service/src/main.rs:691-711 | capturing the configuration, progress, the end of the backup, planning, running and recording retention, and the report each amount to the worker's step |
| `EventLoop.OthersKeepLoop` | apps/resticpal-service/src/main.rs:501-502 | no steps of the other threads touch the loop's tokens, position or stopping flag |
| `RuntimeLaws.ApplyConfigurationKeepsSound` | apps/resticpal-service/src/runtime/state.rs:299-342 | a configuration status keeps coupling, verification and every operation in flight |
| `RuntimeLaws.InstallManagedKeepsSound` | apps/resticpal-service/src/runtime/enrollment.rs:193-212 | after a managed configuration the usable repository is the verified one, whatever it was before and whichever it names |
| `RuntimeLaws.InstallLocalKeepsSound` | apps/resticpal-service/src/runtime/ipc.rs:1215-1317 | a local edit keeps it by demanding validation whenever the connection changes |
| `RuntimeLaws.FinishRepositoryKeepsSound` | apps/resticpal-service/src/runtime/lifecycle.rs:278-329 | recording a result under the current identity keeps coupling and verification |
| `RuntimeLaws.FinishBackupKeepsSound` | apps/resticpal-service/src/runtime/lifecycle.rs:175-212 | the end of a backup brings the coupling back, whatever was written while it ran |
| `RuntimeLaws.EvaluateKeepsSound` | apps/resticpal-service/src/runtime/scheduler.rs:20-125 | an evaluation starts a backup only unheld, outside enrollment and with a usable repository, and then the status is Running |
| `ServiceSafety.OperatingKeepsInv` | apps/resticpal-service/src/runtime/ipc.rs:362-473 | a repository request puts an operation in flight only where none is |
| `ServiceSafety.UpdatingKeepsInv` | apps/resticpal-service/src/runtime/ipc.rs:629-731 | so does an install request |
| `ServiceSafety.RunNowKeepsInv` | apps/resticpal-service/src/runtime/ipc.rs:229-271 | the acceptance of a run-now request, whatever changed since its check of configuration and repository, keeps the invariant |
| `ServiceSafety.DeferKeepsInv` | apps/resticpal-service/src/runtime/ipc.rs:280-312 | so does a deferral, with whatever configuration it saw |
| `ServiceSafety.HoldKeepsInv` | apps/resticpal-service/src/runtime/ipc.rs:475-553 | a prompted update hold keeps the invariant |
| `ServiceSafety.EditKeepsInv` | apps/resticpal-service/src/runtime/ipc.rs:891-1325 | edits of schedule, sources and repository keep the invariant |
| `ServiceSafety.EnrollmentKeepsInv` | apps/resticpal-service/src/runtime/enrollment.rs:59-87 | a committed enrollment keeps the invariant although it does not test again what runs |
| `ServiceSafety.ApplyUnenrolledKeepsInv` | apps/resticpal-service/src/runtime/enrollment.rs:317-326 | an unenrollment's status write keeps everything but the coupling, and the coupling unless a backup is active |
| `ServiceSafety.EvaluateKeepsInv` | apps/resticpal-service/src/main.rs:637-667 | an evaluation with a possibly stale configuration, and a failed spawn, keep the invariant |
| `ServiceSafety.HandleKeepsInv` | apps/resticpal-service/src/main.rs:504-635 | handling any event, also while stopping, keeps the invariant |
| `ServiceSafety.BackupKeepsInv` | apps/resticpal-service/src/main.rs:682-712 | every step of a backup worker keeps the invariant |
| `ServiceSafety.RunKeepsInv` | apps/resticpal-service/src/main.rs:494-609 | every interleaving of loop, requests, policies and workers keeps the invariant |
| `ServiceTheorems.OneWorkerAtATime` | apps/resticpal-service/src/main.rs:494-667 | in every reachable state at most one backup, repository or install worker exists; an install worker means an active install and no other operation |
| `ServiceTheorems.StartsMatchFinishes` | apps/resticpal-service/src/main.rs:541-544 | every start is matched by one finish, or its worker or report is still on the way |
| `ServiceTheorems.RunningMeansActive` | apps/resticpal-service/src/runtime/scheduler.rs:96-109 | except under a backup an unenrollment raced, the status is Running exactly while a backup is active, without a deadline, with a usable repository and no install or enrollment beside it |
| `ServiceTheorems.RaceEndsWithItsBackup` | apps/resticpal-service/src/runtime/lifecycle.rs:175-212 | in every run a race lasts no longer than the backup it raced, and handling that backup's end brings the coupling back |
| `ServiceTheorems.CouplingBreaksIff` | apps/resticpal-service/src/runtime/enrollment.rs:256-326 | a step breaks that exactly when it is unenrollment's status write under an active backup; Running and active part exactly when the new configuration is also incomplete |
| `ServiceTheorems.UnenrollmentRacesABackup` | apps/resticpal-service/src/runtime/enrollment.rs:264-326 | for every verified configuration and every unconfigured successor a run shows an active backup as Unconfigured |
| `ServiceTheorems.UnenrollmentDatesABackup` | apps/resticpal-service/src/runtime/enrollment.rs:264-326 | for every configured successor a run shows an active backup as Running with a deadline |
| `ServiceTheorems.UnverifiedExactlySince` | apps/resticpal-service/src/runtime/enrollment.rs:317-326 | in every run the usable repository is not the verified one exactly from an unenrollment that left it behind until something asks for its validation |
| `ServiceTheorems.UnverifiedAfterStepIff` | apps/resticpal-service/src/runtime/enrollment.rs:317-326 | of all steps only unenrollment's write brings that about, exactly when it leaves another repository than the verified one while that counts as usable; exactly a policy, an enrollment, a changed connection, an accepted repository operation or a fitting write ends it |
| `ServiceTheorems.StartsAreVerified` | apps/resticpal-service/src/runtime/scheduler.rs:66-106 | in every run a start finds the url, options and secret references last verified exactly when the configuration then names a repository and no unenrollment has left another one unvalidated |
| `ServiceTheorems.StaleStartFindsNoRepository` | apps/resticpal-service/src/runtime/scheduler.rs:20-106 | the configuration need not name one: for every verified configuration and every successor without a repository a run starts a backup that finds none |
| `ServiceTheorems.WorkersAreVerified` | apps/resticpal-service/src/state.rs:90-119 | except under a backup an unenrollment raced, the configuration a backup worker captured names no repository or the verified one for as long as it works, exactly unless it was captured after an unenrollment had left another one unvalidated |
| `ServiceTheorems.UnenrollmentStaysVerifiedIff` | apps/resticpal-service/src/runtime/enrollment.rs:317-326 | unenrollment leaves a usable, verified repository unverified exactly when the next configuration names one with another identity |
| `ServiceTheorems.UnenrollmentStartsUnverified` | apps/resticpal-service/src/runtime/enrollment.rs:317-326 | for every other successor a run starts a backup against the unverified repository |
| `ServiceRepository.ResultsAreRecorded` | apps/resticpal-service/src/main.rs:571-575 | in every run a reported repository result ends the operation the status shows and is never ignored; a saved success makes the repository usable and records exactly the identity of the configuration the worker read for its test, which is still the current one; a failure leaves it unusable |
| `ServiceRepository.ReachableUnderCurrent` | apps/resticpal-service/src/main.rs:713-735 | in every run the configuration a repository worker captured keeps the current identity until its result is handled |
| `ServiceHold.NoStartWhileHeld` | apps/resticpal-service/src/runtime/scheduler.rs:26-51 | no step of any run starts a backup while an install is active or its hold is unexpired |
| `ServiceHold.HoldIsQuiet` | apps/resticpal-service/src/runtime/ipc.rs:475-553 | while the clock has not gone back, every hold that did not begin beside a raced backup shows the update, keeps what to restore, and has no backup, repository operation or enrollment under way |
| `ServiceHold.OverlappedHoldIsOverwritten` | apps/resticpal-service/src/runtime/lifecycle.rs:175-188 | for every verified configuration and every unconfigured successor a run accepts a hold beside a raced backup, whose end overwrites the hold's status |
| `ServiceHold.HoldSaves` | apps/resticpal-service/src/runtime/ipc.rs:529-548 | an accepted update saves the status it replaces, or keeps what an earlier hold has not restored yet |
| `ServiceHold.UnrestoredStays` | apps/resticpal-service/src/runtime/scheduler.rs:52-65 | through any run without an unheld evaluation, a failed install or an untaken install request, what was saved stays the same, however holds expire and are renewed |
| `ServiceHold.FirstHoldIsRestored` | apps/resticpal-service/src/runtime/scheduler.rs:52-65 | what finally comes back after such a run is the status and deadline of before the first request, not those of a later one |
| `ServiceHold.HoldKeepsSaved` | apps/resticpal-service/src/runtime/scheduler.rs:26-51 | through any run that stays held, what will be restored does not change |
| `ServiceHold.HoldRestores` | apps/resticpal-service/src/runtime/scheduler.rs:52-65 | when such a run ends, an expired hold or a failed install brings back exactly the state and deadline of before the request, before rescheduling |
| `ServiceHold.IndeterminateNeverStarts` | apps/resticpal-service/src/runtime/lifecycle.rs:42-47 | after an indeterminate install no run of the process ever starts a backup again |
| `ServiceRetention.PrunesAreEarned` | apps/resticpal-service/src/main.rs:698-709 | in every run a forget directly follows a successful backup, a prune a successful forget, neither for an append-only repository, and with a forward clock each prune is at least the configured interval after the last recorded one |
| `ServiceRetention.PrunesAreApart` | apps/resticpal-service/src/runtime/lifecycle.rs:83-137 | in every run with a forward clock any prune is at least its configured interval after every earlier prune of the process that succeeded |
| `ServiceRetention.PlanKeepsDiligent` | apps/resticpal-service/src/runtime/lifecycle.rs:83-110 | the plan's verdict on the interval still holds when the prune runs |
| `ServiceLedger.BackoffDoubles` | apps/resticpal-service/src/runtime/lifecycle.rs:17-18 | the backoff is five minutes for the first failure and doubles up to 320 |
| `ServiceLedger.LedgerIsKept` | apps/resticpal-service/src/runtime/lifecycle.rs:175-212 | along every run failure count, earliest start and last success are those of the history of finishes, accepted requests, deferrals by their minutes, starts and lost configurations |
| `ServiceLedger.UnattendedStartIff` | apps/resticpal-service/src/runtime/scheduler.rs:75-124 | in every run an evaluation left to the schedule starts exactly when interval and backoff of that history have elapsed and nothing blocks, and an idle deadline is in the future but not beyond one interval or the backoff |
| `ServiceLedger.SleepsIff` | apps/resticpal-service/src/runtime/scheduler.rs:127-154 | after an evaluation that starts nothing the delay is positive exactly unless it returned early on a deadline that has passed |
| `ServiceLedger.NoBusySpin` | apps/resticpal-service/src/main.rs:504-506 | the same in every run |
| `ServiceLedger.SpinIsReached` | apps/resticpal-service/src/main.rs:504-506 | for every verified configuration a run without a race and with a forward clock reaches an evaluation after which the loop does not sleep |
| `Enrollment.DistinctRetiresNothingKept` | apps/resticpal-service/src/runtime/enrollment.rs:225-251 | pairwise distinct references suffice for retiring nothing that stays in use |
| `Enrollment.Machine.Put` | crates/resticpal-windows/src/credentials.rs:167-193 | a credential is written completely or not at all, and may be there although the write reports failure |
| `Enrollment.Machine.PutNew` | crates/resticpal-windows/src/credentials.rs:102-119 | a stored secret has a reference no credential had; a failed one leaves nothing or one orphan |
| `Enrollment.Machine.Remove` | crates/resticpal-windows/src/credentials.rs:153-160 | removal takes one credential or none |
| `Enrollment.Machine.Save` | apps/resticpal-service/src/config_store.rs:45-53 | config.toml is replaced completely or not at all |
| `Enrollment.Machine.RemoveAll` | apps/resticpal-service/src/runtime/enrollment.rs:249-251 | removals take only what is listed, all of it when all succeed, and keep every disk intact when nothing listed is needed |
| `Enrollment.Machine.StoreSecrets` | apps/resticpal-service/src/runtime/enrollment.rs:138-145 | each secret is stored under a new reference of its variable; a failure is known by its created references and at most one orphan |
| `Enrollment.Machine.StoreMaterial` | apps/resticpal-service/src/runtime/enrollment.rs:128-156 | token, key and secrets are all stored, or the created references say what to undo |
| `Enrollment.Machine.SaveThenCache` | apps/resticpal-service/src/runtime/enrollment.rs:180-191 | the policy cache changes only after config.toml has, so no disk pairs a new cache with the old configuration |
| `Enrollment.Machine.CommitEnrollment` | apps/resticpal-service/src/runtime/enrollment.rs:112-254 | stopped between any two writes every reference of the saved configuration has its credential, exactly when nothing retired stays in use, and the policy cache is the old one or that of the already saved new configuration; on failure with successful removals credentials, configurations and cache are as before but for an orphan; on success every new secret is held and every other reference kept |
| `Enrollment.Machine.RetireReplaced` | apps/resticpal-service/src/runtime/enrollment.rs:225-251 | retiring removes the old tokens and replaced secrets, never a new one, and breaks the disk exactly when one of them is still in use |
| `Enrollment.RetiredReferences` | apps/resticpal-service/src/runtime/enrollment.rs:226-248 | the list is exactly the old tokens and the old secrets of replaced variables |
| `Enrollment.EnrolledNeeds` | apps/resticpal-service/src/runtime/enrollment.rs:137-156 | the enrolled configuration needs the new credentials and the kept old ones, and nothing else |
| `Enrollment.Machine.Unenroll` | apps/resticpal-service/src/runtime/enrollment.rs:256-343 | unenrollment drops only the tokens and stays intact exactly when no token doubles as a repository secret; whether or not the cache could be removed no cached policy is left in force; refused while something runs, or failed, it changes nothing |
| `PolicySequence.LoadBestCovers` | apps/resticpal-service/src/management.rs:198-236 | a loaded policy is never behind the usable cache and is what the cache then holds |
| `PolicySequence.AppliedStrictlyIncrease` | apps/resticpal-service/src/main.rs:324-410 | in every run, from the worker's first applied policy on, applied sequences strictly increase |
| `PolicySequence.RestartNeverOlder` | apps/resticpal-service/src/management.rs:198-258 | unless a cache was written after expiry or a worker refreshed before its first applied policy, the cache is never behind what was applied and a restart never returns an older policy |
| `PolicySequence.RestartRollsBackIff` | apps/resticpal-service/src/management.rs:198-236 | some restart returns an older policy exactly when the cache is behind the last applied one, or unusable while that was not the first |
| `PolicySequence.ExpiredCacheRollsBack` | apps/resticpal-service/src/management.rs:279-331 | for every manifest that expires between its verification and its caching, activation and restart apply any older acceptable policy |
| `PolicySequence.RefreshRollsBackIff` | apps/resticpal-service/src/main.rs:373-396 | some refresh applies a sequence not above the last one exactly when the worker's minimum is below it, which is never after its first applied policy |
| `PolicySequence.BusyActivationRollsBack` | apps/resticpal-service/src/main.rs:297-353 | restart, busy activation and refresh apply any older acceptable policy |
| `PolicySequence.ManagementWorker.SaveCache` | apps/resticpal-service/src/management.rs:279-298 | the cache is replaced whole or not at all |
| `PolicySequence.ManagementWorker.LoadBestPolicy` | apps/resticpal-service/src/management.rs:198-236 | result and cache are those of the loading function |
| `PolicySequence.ManagementWorker.ActivateSource` | apps/resticpal-service/src/main.rs:324-371 | activation takes the step of the sequence model, with the minimum moved only by an applied policy |
| `PolicySequence.ManagementWorker.RefreshSource` | apps/resticpal-service/src/main.rs:373-410 | refreshing takes the step of the sequence model |
| `OutputReader.LinesPartition` | apps/resticpal-service/src/executor.rs:1143-1168 | splitting at newlines loses nothing and every line ends at its only newline |
| `OutputReader.PrefixCapturingReader.Read` | apps/resticpal-service/src/executor.rs:1112-1141 | the captured prefix is always the first bytes delivered, up to the limit |
| `OutputReader.JsonLineReader.FillBuffer` | apps/resticpal-service/src/executor.rs:1143-1150 | filling changes nothing that is unread and reports the end and errors only there |
| `OutputReader.JsonLineReader.TakePart` | apps/resticpal-service/src/executor.rs:1143-1168 | a part is a non-empty front of the next line, ending at its newline if it has one |
| `OutputReader.JsonLineReader.ReadBoundedLine` | apps/resticpal-service/src/executor.rs:1143-1168 | exactly the next line is consumed; it is kept in the bounded buffer exactly when it fits |
| `OutputReader.ReadJsonOutput` | apps/resticpal-service/src/executor.rs:1072-1101 | whatever the cuts, the result is the fold over the newline-split lines, a line being invalid by size exactly when too long |
| `OutputReader.ReadStderrOutput` | apps/resticpal-service/src/executor.rs:1104-1141 | the same for standard error, and exactly its first 64 KiB are captured |
| `OutputReader.MergedStreamsKeepFirst` | apps/resticpal-service/src/executor.rs:945-952 | merged details are the first hundred distinct safe names of standard output followed by standard error |
| `FailureDetails.PushAllKeepsFirst` | apps/resticpal-service/src/executor.rs:809-818 | pushing keeps the first hundred distinct safe names and counts an omission exactly when one was unsafe or did not fit |
| `FailureDetails.CollectKeepsFirst` | apps/resticpal-service/src/executor.rs:1090-1094 | the same for a whole stream with unlisted items |
| `FailureDetails.MergeIsConcatenation` | apps/resticpal-service/src/executor.rs:820-826 | merging two collectors retains the same names in the same order as one collector over both streams, and agrees on whether anything was omitted |
| `MergedCount.MergedCountIs` | apps/resticpal-service/src/executor.rs:820-826 | for all streams one collector counts what it lost, and the merged one counts that plus the excess less the shortfall, both saturating |
| `MergedCount.MergedCountDiffers` | apps/resticpal-service/src/executor.rs:820-826 | below saturation merged count plus shortfall is whole count plus excess, so the two agree exactly when excess and shortfall are equal |
| `MergedCount.FittingStreamsMergeExactly` | apps/resticpal-service/src/executor.rs:820-826 | with at most a hundred distinct safe names on both streams merging is collecting |
| `MergedCount.MergedCountCanExceed` | apps/resticpal-service/src/executor.rs:820-826 | a name retained on one stream that arrives on the other behind a hundred others is counted once too often |
| `MergedCount.MergedCountCanFallShort` | apps/resticpal-service/src/executor.rs:820-826 | a name that arrives twice on the second stream after a hundred others on the first is counted once too rarely |
| `MergedCount.CollectCounts` | apps/resticpal-service/src/executor.rs:809-818 | a collector's count is the number of events it does not name, saturating |
| `FailureDetails.BackupFailureDetails.PushItem` | apps/resticpal-service/src/executor.rs:809-818 | one push is the collector's step |
| `FailureDetails.BackupFailureDetails.MergeWith` | apps/resticpal-service/src/executor.rs:820-826 | the merge loop is the merge function |
| `BackupOutcomes.Retention` | apps/resticpal-service/src/executor.rs:218-266 | nothing runs for an append-only repository; prune runs only when due and after a successful forget; success and pruned are reported exactly then |
| `BackupOutcomes.SnapshotOutcome` | apps/resticpal-service/src/executor.rs:914-989 | for the exits that keep a snapshot the outcome tells fallback, partial source and cleanup failure apart and carries the merged details exactly when it warns |
| `BackupOutcomes.RetentionKeepsTheFacts` | apps/resticpal-service/src/executor.rs:761-776 | whatever retention adds, the stored code still tells exactly which of the three facts hold |
| `BackupOutcomes.StoreAndShow` | apps/ResticPal.UI/Services/BackupWarningPresentation.cs:100-116 | from two parsed streams and any retention result through the store to the reader, the three predicates recover exactly the facts and the names read back up to the signed 64-bit clamp |
| `BackupRun.StoreFinishedRun` | apps/resticpal-service/src/executor.rs:914-1141 | from the bytes of two arbitrarily cut pipes, any exit status and any retention result: exactly the runs that kept a snapshot are successes, their code shows exactly what some line of the pipes says, their names are those of both pipes, and every other run names nothing |
| `BackupRun.FoldFinds` | apps/resticpal-service/src/executor.rs:1072-1101 | a parsed stream has a fact or a summary exactly when some line of acceptable length says so |
| `BackupRun.BothPipesKeepFirst` | apps/resticpal-service/src/executor.rs:945-952 | the names of a run are the first hundred distinct safe ones of standard output followed by standard error, a failed pipe contributing none |
| `History.NormalizeKeepsCollected` | apps/resticpal-service/src/history.rs:469-488 | collected details are stored as they are, up to the clamp |
| `History.NormalizeFailureDetails` | apps/resticpal-service/src/history.rs:469-488 | the loop computes the normal form |
| `History.PruneKeepsFirst` | apps/resticpal-service/src/history.rs:425-436 | pruning keeps exactly the first 200 rows of the reading order |
| `History.PruningIsInvisible` | apps/resticpal-service/src/history.rs:32-135 | after any appends the table is the top 200 of everything ever appended, so no listing can tell |
| `History.TablesHoldHistory` | apps/resticpal-service/src/history.rs:32-92 | after any appends every stored row is the run of its id and the item table holds that run's normalized names |
| `History.HeldItemsReadBack` | apps/resticpal-service/src/history.rs:137-187 | names stored by ordinal read back in order |
| `History.InsertItems` | apps/resticpal-service/src/history.rs:60-83 | the insertion loop fills consecutive ordinals of the run and nothing else |
| `History.FindRow` | apps/resticpal-service/src/history.rs:137-187 | the row of an id is found exactly if there is one |
| `History.BackupHistoryStore.Append` | apps/resticpal-service/src/history.rs:32-92 | the store stays the pruned image of the whole history |
| `History.BackupHistoryStore.Recent` | apps/resticpal-service/src/history.rs:93-135 | every listing is that of an unpruned history |
| `History.BackupHistoryStore.ReadFailureDetails` | apps/resticpal-service/src/history.rs:137-187 | details exist exactly for the newest 200 runs and are the normalized ones of that run |
| `ConfigurationSync.AtMostOneRunner` | apps/ResticPal.UI/Services/ManagedConfigurationSynchronization.cs:52-134 | in every interleaving of calls at most one owns the runner loop, so at most one callback runs |
| `ConfigurationSync.ObservedMovesOnlyOnBaselineOrSuccess` | apps/ResticPal.UI/Services/ManagedConfigurationSynchronization.cs:64-134 | the observed revision moves only to a first baseline or a target whose callback returned true |
| `ConfigurationSync.ForceStaysRecorded` | apps/ResticPal.UI/Services/ManagedConfigurationSynchronization.cs:79-134 | a force request stays recorded until a callback starts with it |
| `ConfigurationSync.ThrownForceIsRetriedIff` | apps/ResticPal.UI/Services/ManagedConfigurationSynchronization.cs:136-150 | a thrown forced callback is retried with force exactly when nothing was queued behind it or what was queued is itself forced |
| `ConfigurationSync.SettlesOnLatestIff` | apps/ResticPal.UI/Services/ManagedConfigurationSynchronization.cs:64-134 | the revision the system is heading for is the latest reported one exactly when the latest report was not declined as stale |
| `ConfigurationSync.QuiescentObservesLatestIff` | apps/ResticPal.UI/Services/ManagedConfigurationSynchronization.cs:52-134 | at quiescence the observed revision is the latest reported one exactly under that condition |
| `ConfigurationSync.QuiescentObservesLatest` | apps/ResticPal.UI/Services/ManagedConfigurationSynchronization.cs:52-134 | which holds whenever revisions never return to an earlier value |
| `ConfigurationSync.ReturningRevisionIsLost` | apps/ResticPal.UI/Services/ManagedConfigurationSynchronization.cs:73-78 | a run in which a returning revision ends unobserved |
| `ConfigurationSync.ManagedConfigurationSynchronization.EnterLock` | apps/ResticPal.UI/Services/ManagedConfigurationSynchronization.cs:57-93 | the first lock section decides and records as the protocol's entry step |
| `ConfigurationSync.ManagedConfigurationSynchronization.KeepFailedTarget` | apps/ResticPal.UI/Services/ManagedConfigurationSynchronization.cs:136-150 | a failed target is kept unless something newer is pending |
| `ConfigurationSync.ManagedConfigurationSynchronization.ObserveAsync` | apps/ResticPal.UI/Services/ManagedConfigurationSynchronization.cs:52-134 | a whole call, against any script of callbacks and concurrent reports, is a run of the protocol; true means nothing is pending, false or an exception that something is |
| `PageReload.AdvanceMeansReloaded` | apps/ResticPal.UI/MainWindow.xaml.cs:229-341 | when the observed revision advances, every page eligible at that call was reloaded after the target was established |
| `PageReload.EachPageAtMostOncePerPass` | apps/ResticPal.UI/Services/ConfigurationReloadGate.cs:31-63 | no page is reloaded twice within one pass of a target |
| `PageReload.NeverOverwritesUnsavedEdits` | apps/ResticPal.UI/MainWindow.xaml.cs:402-418 | a page with unsaved edits starts to reload only in a callback that was asked to discard them |
| `PageReload.ConfigurationPageSynchronizationPlan.BeginTarget` | apps/ResticPal.UI/Services/ConfigurationReloadGate.cs:31-55 | a forced or new target starts afresh, the same one only adds newly eligible pages |
| `PageReload.PendingExactly` | apps/ResticPal.UI/Services/ConfigurationReloadGate.cs:31-63 | within a pass a page needs loading exactly when its first offer has not been followed by its completion, whatever else is offered or completed |
| `PageReload.MainWindow.SynchronizeConfigurationPages` | apps/ResticPal.UI/MainWindow.xaml.cs:229-341 | the callback succeeds exactly when nothing is pending, loads each page at most once, never over unsaved edits without discard, and closes its edit scope |
| `WindowsPath.AbsoluteIsNoFlag` | crates/resticpal-core/src/config.rs:384-392 | no absolute path can be read as a command-line flag |
| `WindowsPath.NormalizedWindowsPath` | crates/resticpal-core/src/restic.rs:363-393 | the push and pop loop computes the normal form, or nothing when `..` would climb above the root |
| `WindowsPath.ContainmentIsAPreorder` | crates/resticpal-core/src/restic.rs:349-361 | containment is reflexive exactly on paths that normalize, transitive, and mutual exactly for equal normal forms |
| `WindowsPath.DetourAfterRoot` | crates/resticpal-core/src/restic.rs:363-393 | inserting `.` or `name\..` after the root of a parsed path changes no containment |
| `WindowsPath.DetourInside` | crates/resticpal-core/src/restic.rs:363-393 | nor does inserting it after any later separator |
| `PathText.BodyIsFree` | crates/resticpal-core/src/restic.rs:363-393 | the text of every rooted path splits after its root separator, and whatever follows there is the body of the same root |
| `PathText.DetourInText` | crates/resticpal-core/src/restic.rs:349-393 | inserting `.` or `name\..` in the text of a rooted path, after its root separator or any later one, changes neither its normal form nor any containment |
| `Command.BackupArgumentsDecode` | crates/resticpal-core/src/restic.rs:108-134 | for every validated configuration the arguments read back as exactly its options, exclusions, required exclusions and sources |
| `Command.BackupArgumentsAreUnique` | crates/resticpal-core/src/restic.rs:108-134 | configurations with the same command line agree on all of these |
| `Command.DecodeRepeated` | crates/resticpal-core/src/restic.rs:114-127 | exclusions are read as values whatever they look like |
| `Command.BuildBackup` | crates/resticpal-core/src/restic.rs:77-145 | the builder refuses for the first failing check and otherwise yields exactly these arguments, the repository and the secret references |
| `Command.AcceptedBackup` | crates/resticpal-core/src/restic.rs:82-107 | an accepted backup has sources, none of them in a required exclusion, and its command line reads back |
| `Command.BuiltCommandReadsBack` | crates/resticpal-core/src/restic.rs:152-307 | every other invocation is of its builder's kind and allowed in the repository's mode, and its arguments read back as the operation asked for, the configuration's options and, for a forget, its four counts |
| `Command.Build` | crates/resticpal-core/src/restic.rs:152-307 | forget, prune and init are built only for a standard repository, and nothing outside a builder's kind |
| `Frame.StringRoundTrip` | crates/resticpal-protocol/src/lib.rs:410-434 | every byte string survives the escaping of section 7 of RFC 8259 |
| `Frame.DecodeEncode` | crates/resticpal-protocol/src/lib.rs:108-125 | every failure-detail response reads back equal |
| `Frame.EncodedResponseFits` | crates/resticpal-core/src/status.rs:8-32 | a response with at most a hundred safe names of at most 4096 bytes fits a 1 MiB frame |
| `Frame.FrameRoundTrip` | crates/resticpal-protocol/src/lib.rs:410-434 | a frame is read back whole whatever follows it, and no strict prefix of it is taken for one |
| `Frame.ByteStream.WriteFrame` | crates/resticpal-protocol/src/lib.rs:410-421 | a payload is appended with its length, or refused unwritten when too large |
| `Frame.ByteStream.ReadFrame` | crates/resticpal-protocol/src/lib.rs:423-434 | empty and oversized lengths and short streams are errors; otherwise exactly one payload is consumed |
| `Frame.DeliverFailureDetails` | crates/resticpal-protocol/src/lib.rs:410-434 | every deliverable response arrives equal and leaves the stream empty |
| `FailureDelivery.StoredDetailsAreDeliverable` | apps/resticpal-service/src/history.rs:164-186 | whatever was appended, the stored details of a run form a deliverable response |
| `FailureDelivery.ServeFailureDetails` | apps/resticpal-service/src/history.rs:137-187 | a stored run's names arrive at the reader as stored, and a run that is not stored yields nothing |

## Left out

- Cryptography: signatures, key agreement and data protection are abstract; a server reply is an authentic payload or nothing.
- Windows calls (pipes, access control, job objects, power requests, process control, the installer) are nondeterministic results.
- HTTP, TLS, TOML and general JSON: only string escaping, numbers and the one response's field order are modelled, for the frame.
- The SQL engine and schema migrations: tables are sequences and maps with increasing ids.
- Policy resolution (`resolve_config`) and field locks: a resolved configuration is an arbitrary value.
- Credential updates of the repository settings request: only their effect on identity and validation is modelled.
- The classification of a repository address as local or remote is a condition of the evaluation.
- Progress, display name, repository mode and managed revision shown in the status, diagnostics, and the cancellation token, which only makes a worker end earlier.
- The start of a service whose configuration file could not be loaded, which runs unconfigured with a failed status.
- The status reporting cadence and refresh delays of the management thread, version parsing, update feed selection, profile discovery, the tray application and page texts would only add easy members.
- Finer interleavings than the mutex allows: what a thread does under one acquisition of the state mutex, with the event it sends for it, is one step, and the event being handled stays at the head of the queue until it is handled.
- Frame.DecodeEncode: the reader takes the fields of a response in the order the writer puts them; other orders, which a general JSON reader accepts, are not modelled.
- Enrollment.Machine.Unenroll: the refusals of a caller that is no administrator and of a service without a configuration store are left out.
- Command.BackupArgumentsDecode: text limits of the configuration count Dafny characters, and blank addresses are recognized for ASCII white space only.
