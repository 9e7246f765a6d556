/** The runtime object: the methods that take the state mutex and update the state field by field
    (apps/resticpal-service/src/runtime/scheduler.rs, lifecycle.rs, state.rs, enrollment.rs). The configuration a
    method works under was read before it took the mutex, so it is a parameter. */
module RuntimeObject {
  import opened Common
  import opened Config
  import opened Outcomes
  import opened Schedule
  import opened Runtime

  class ServiceRuntime {
    var config: EffectiveConfig
    var state: RuntimeState

    constructor (service: ServiceState, effective: EffectiveConfig, now: Time)
      ensures config == effective && state == InitialState(service, effective, now)
    {
      config := effective;
      state := InitialState(service, effective, now);
    }

    method TransitionState(next: BackupState, now: Time)
      modifies this`state
      ensures state == Transition(old(state), next, now)
    {
      if state.state != next {
        state := state.(state := next, stateSince := now);
      }
    }

    method RecordResume(now: Time)
      modifies this`state
      ensures state == old(state).(resumedAt := Some(now))
    {
      state := state.(resumedAt := Some(now));
    }

    method EvaluateSchedule(snapshot: EffectiveConfig, now: Time, conditions: Conditions)
      returns (trigger: Option<Trigger>)
      modifies this`state
      ensures (state, trigger) == Evaluate(old(state), snapshot, now, conditions)
    {
      if state.installActive {
        TransitionState(BackupState.Waiting(Update), now);
        state := state.(nextDeadline := Some(now + CONDITION_RETRY));
        return None;
      }
      if HoldUnexpired(state, now) {
        TransitionState(BackupState.Waiting(Update), now);
        state := state.(nextDeadline := state.holdUntil);
        return None;
      }
      LeaveHold(now);
      trigger := ConsultSchedule(snapshot, now, conditions);
    }

    method LeaveHold(now: Time)
      modifies this`state
      ensures state == AfterHold(old(state), now)
    {
      state := state.(holdUntil := None);
      var taken := state.holdPrevious;
      state := state.(holdPrevious := None);
      if taken.Some? && state.state == BackupState.Waiting(Update) {
        state := state.(state := taken.value.0);
        state := state.(stateSince := now);
        state := state.(nextDeadline := taken.value.1);
      }
    }

    method ConsultSchedule(snapshot: EffectiveConfig, now: Time, conditions: Conditions)
      returns (trigger: Option<Trigger>)
      modifies this`state
      ensures (state, trigger) == Reschedule(old(state), snapshot, now, conditions)
    {
      if !IsConfigured(snapshot) || state.managementActive || !AllowsBackup(state.repository) {
        return None;
      }
      match Decide(snapshot.schedule, SnapshotOf(state, now, conditions)) {
        case AlreadyRunning =>
          return None;
        case Start(decided) =>
          state := state.(state := Running(PreparingSnapshot), stateSince := now);
          state := state.(lastAttempt := Some(now), nextDeadline := None);
          state := state.(manualRequested := false, resumedAt := None, notBefore := None);
          return Some(decided);
        case Idle(deadline) =>
          state := state.(nextDeadline := Some(deadline));
          if state.state.Waiting? {
            TransitionState(BackupState.Idle, now);
          }
          state := state.(resumedAt := None);
          return None;
        case Waiting(blockers, retryAt) =>
          TransitionState(BackupState.Waiting(ReasonOf(blockers[0])), now);
          state := state.(nextDeadline :=
            if retryAt.Some? then retryAt else if state.notBefore.Some? then state.notBefore else Some(now));
          return None;
      }
    }

    method UpdateConfigurationStatus(effective: EffectiveConfig, now: Time)
      modifies this`state
      ensures state == ApplyConfigurationStatus(old(state), effective, now)
    {
      if IsConfigured(effective) {
        if !AllowsBackup(state.repository) {
          TransitionState(BackupState.Waiting(RepositoryValidation), now);
          state := state.(nextDeadline := None);
          return;
        }
        var scheduled := CompletionDeadline(state.lastSuccess, now, effective.schedule.intervalHours);
        state := state.(nextDeadline := Some(Later(scheduled, state.notBefore)));
        if state.state.Unconfigured? || state.state == BackupState.Waiting(RepositoryValidation) {
          TransitionState(BackupState.Idle, now);
        }
      } else {
        TransitionState(Unconfigured, now);
        state := state.(nextDeadline := None);
        state := state.(manualRequested := false);
        state := state.(notBefore := None);
      }
    }

    method FinishUpdateInstall(outcome: InstallOutcome, now: Time)
      modifies this`state
      ensures state == FinishInstall(old(state), outcome, now)
    {
      match outcome {
        case InstallCompleted =>
          state := state.(installActive := false);
        case InstallFailed =>
          state := state.(installActive := false);
          state := state.(holdUntil := None);
          var taken := state.holdPrevious;
          state := state.(holdPrevious := None);
          if taken.Some? {
            state := state.(state := taken.value.0);
            state := state.(stateSince := now);
            state := state.(nextDeadline := taken.value.1);
          }
        case InstallIndeterminate =>
          state := state.(installActive := true);
      }
    }

    method ReportProgress()
      modifies this`state
      ensures state == UpdateProgress(old(state))
    {
      if state.state.Running? {
        state := state.(state := Running(Uploading));
      }
    }

    method BeginRetentionPhase(now: Time) returns (plan: Option<bool>)
      modifies this`state
      ensures (state, plan) == BeginRetention(old(state), config, now)
    {
      if config.repository.mode != Standard {
        return None;
      }
      state := state.(state := Running(RetentionPhase));
      state := state.(stateSince := now);
      plan := Some(PruneDue(state.service, config, now));
    }

    method FinishRetentionPhase(outcome: RetentionResult, now: Time)
      modifies this`state
      ensures state == FinishRetention(old(state), outcome, now)
    {
      match outcome {
        case RetentionSucceeded(pruned) =>
          state := state.(service := state.service.(lastRetention := Some(now)));
          if pruned {
            state := state.(service := state.service.(lastPrune := Some(now)));
          }
          state := state.(service := state.service.(lastRetentionError := None));
        case RetentionFailed(code) =>
          state := state.(service := state.service.(lastRetentionError := Some(code)));
        case RetentionCancelled =>
          state := state.(service := state.service.(lastRetentionError := Some("retention_cancelled")));
      }
    }

    method FinishBackupAt(now: Time, intervalHours: nat, kind: OutcomeKind)
      modifies this`state
      ensures state == FinishBackup(old(state), intervalHours, kind, now)
    {
      state := state.(state := FinalState(kind));
      if IsSuccess(kind) {
        state := state.(lastSuccess := Some(now));
        state := state.(service := state.service.(lastSuccess := Some(now)));
        state := state.(nextDeadline := Some(CompletionDeadline(Some(now), now, intervalHours)));
        state := state.(notBefore := None);
        state := state.(consecutiveFailures := 0);
      } else {
        if kind.Failed? {
          state := state.(consecutiveFailures := Min(state.consecutiveFailures + 1, U32_MAX));
        }
        var retryAt := now + BackoffMinutes(state.consecutiveFailures) * MINUTE;
        state := state.(notBefore := Some(retryAt));
        state := state.(nextDeadline := Some(retryAt));
      }
      state := state.(resumedAt := None);
      state := state.(stateSince := now);
    }

    method FinishRepositoryOperation(snapshot: EffectiveConfig, operation: OperationKind, outcome: ExecutionResult,
                                     saved: bool, now: Time)
      modifies this`state
      ensures state == FinishRepository(old(state), snapshot, operation, outcome, saved, now)
    {
      if state.repository != OperationRunning(operation) {
        return;
      }
      match outcome {
        case ExecutionSucceeded =>
          state := state.(service := MarkVerified(state.service, snapshot, now));
          if saved {
            state := state.(repository := OperationSucceeded(operation, now));
          } else {
            state := state.(repository := OperationFailed(operation, now, "state_save_failed"));
          }
        case ExecutionFailed(code) =>
          state := state.(repository := OperationFailed(operation, now, code));
        case ExecutionCancelled =>
          state := state.(repository := OperationFailed(operation, now, "repository_operation_cancelled"));
      }
      UpdateConfigurationStatus(snapshot, now);
    }

    /** Take a managed configuration unless something is running that it would disturb. */
    method InstallManagedPolicy(next: EffectiveConfig, now: Time) returns (applied: bool)
      modifies this
      ensures applied == !PolicyBusy(old(state), now)
      ensures config == if applied then next else old(config)
      ensures state == if applied then InstallManaged(old(state), next, now) else old(state)
    {
      if PolicyBusy(state, now) {
        return false;
      }
      if RequiresValidation(state.service, next) {
        state := state.(service := RequireValidation(state.service));
        state := state.(repository := ValidationRequired);
      }
      config := next;
      UpdateConfigurationStatus(next, now);
      return true;
    }
  }
}
