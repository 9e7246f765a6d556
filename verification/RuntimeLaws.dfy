/** What each transition under the state mutex keeps, whatever thread makes it. */
module RuntimeLaws {
  import opened Common
  import opened Config
  import opened Outcomes
  import opened Schedule
  import opened Runtime

  /** The verified identity is the configuration's own, or the configuration names no repository. */
  predicate VerifiedOrBlank(service: ServiceState, config: EffectiveConfig) {
    config.repository.url.Some? ==> service.verified == Some(IdentityOf(config))
  }

  predicate NothingRunningSaved(s: RuntimeState) {
    s.holdPrevious.Some? ==> !s.holdPrevious.value.0.Running?
  }

  /** The status shows a running backup exactly while the loop has one; such a status has no deadline, a usable
      repository, and neither an update nor an enrollment beside it. */
  predicate Coupled(s: RuntimeState, active: bool) {
    && (active <==> s.state.Running?)
    && (active ==> s.nextDeadline.None? && AllowsBackup(s.repository) && !s.installActive && !s.managementActive)
  }

  predicate Verified(s: RuntimeState, config: EffectiveConfig) {
    AllowsBackup(s.repository) ==> VerifiedOrBlank(s.service, config)
  }

  /** `coupled` says whether the past vouches for the coupling; `verified` says exactly whether the repository that
      counts as usable is the verified one. */
  predicate Sound(s: RuntimeState, config: EffectiveConfig, active: bool, coupled: bool, verified: bool) {
    && NothingRunningSaved(s)
    && (coupled ==> Coupled(s, active))
    && (verified <==> Verified(s, config))
  }

  /** The parts of the state that say which operations are in flight. */
  predicate SameOperations(s: RuntimeState, t: RuntimeState) {
    && t.repository.OperationRunning? == s.repository.OperationRunning?
    && t.installActive == s.installActive
    && t.managementActive == s.managementActive
  }

  predicate SameVerified(s: RuntimeState, t: RuntimeState) {
    t.service.verified == s.service.verified
  }

  // ---------------------------------------------------------------- configuration

  lemma ApplyConfigurationKeepsSound(s: RuntimeState, config: EffectiveConfig, now: Time, active: bool, coupled: bool,
                                     verified: bool)
    requires Sound(s, config, active, coupled, verified) && (coupled ==> !s.state.Running?)
    ensures
      var t := ApplyConfigurationStatus(s, config, now);
      Sound(t, config, active, coupled, verified) && SameOperations(s, t) && SameVerified(s, t)
  {
    var t := ApplyConfigurationStatus(s, config, now);
    assert t.repository == s.repository && t.service == s.service && t.managementActive == s.managementActive;
    assert coupled ==> !t.state.Running?;
  }

  /** A managed configuration brings the verified law about, even when it names another repository. */
  lemma InstallManagedKeepsSound(s: RuntimeState, before: EffectiveConfig, config: EffectiveConfig, now: Time,
                                 active: bool, coupled: bool, verified: bool)
    requires Sound(s, before, active, coupled, verified) && (coupled ==> !s.state.Running?)
             && !s.repository.OperationRunning?
    ensures
      var t := InstallManaged(s, config, now);
      Sound(t, config, active, coupled, true) && SameOperations(s, t)
  {
    var checked := if RequiresValidation(s.service, config)
                   then s.(service := RequireValidation(s.service), repository := ValidationRequired) else s;
    ApplyConfigurationKeepsSound(checked, config, now, active, coupled, true);
  }

  lemma InstallLocalKeepsSound(s: RuntimeState, before: EffectiveConfig, config: EffectiveConfig, changed: bool,
                               now: Time, active: bool, coupled: bool, verified: bool)
    requires Sound(s, before, active, coupled, verified) && (coupled ==> !s.state.Running?)
    requires changed ==> !s.repository.OperationRunning?
    requires !changed ==> IdentityOf(config) == IdentityOf(before)
    ensures
      var t := InstallLocal(s, config, changed, now);
      Sound(t, config, active, coupled, verified || changed) && SameOperations(s, t)
  {
    var checked := if changed then s.(service := RequireValidation(s.service), repository := ValidationRequired) else s;
    ApplyConfigurationKeepsSound(checked, config, now, active, coupled, verified || changed);
  }

  // ---------------------------------------------------------------- requests

  lemma RequestBackupKeepsSound(s: RuntimeState, sent: bool, now: Time, config: EffectiveConfig, active: bool,
                                coupled: bool, verified: bool)
    requires Sound(s, config, active, coupled, verified)
    ensures
      var t := RequestBackup(s, sent, now).0;
      Sound(t, config, active, coupled, verified) && SameOperations(s, t) && SameVerified(s, t)
  {
  }

  lemma DeferBackupKeepsSound(s: RuntimeState, seen: EffectiveConfig, minutes: nat, now: Time,
                              config: EffectiveConfig, active: bool, coupled: bool, verified: bool)
    requires Sound(s, config, active, coupled, verified)
    ensures
      var t := DeferBackup(s, seen, minutes, now).0;
      Sound(t, config, active, coupled, verified) && SameOperations(s, t) && SameVerified(s, t)
  {
  }

  /** A repository operation starts only where no backup, install or other operation is. */
  lemma BeginRepositoryKeepsSound(s: RuntimeState, seen: EffectiveConfig, operation: OperationKind, saved: bool,
                                  sent: bool, now: Time, config: EffectiveConfig, active: bool, coupled: bool,
                                  verified: bool)
    requires Sound(s, config, active, coupled, verified)
    ensures
      var (t, accepted) := BeginRepository(s, seen, operation, saved, sent, now);
      && Sound(t, config, active, coupled, verified || !RepositoryRefused(s, seen, operation, now))
      && (accepted ==>
            t.repository == OperationRunning(operation) && !s.repository.OperationRunning? && !s.installActive)
      && (!accepted ==> t.repository.OperationRunning? == s.repository.OperationRunning?)
      && t.installActive == s.installActive && t.managementActive == s.managementActive
      && (SameVerified(s, t) || !s.state.Running?)
  {
  }

  lemma PrepareKeepsSound(s: RuntimeState, config: EffectiveConfig, seconds: nat, now: Time, active: bool,
                          coupled: bool, verified: bool)
    requires Sound(s, config, active, coupled, verified)
    ensures
      var t := PrepareForUpdate(s, config, seconds, now).0;
      Sound(t, config, active, coupled, verified) && SameOperations(s, t) && SameVerified(s, t)
  {
  }

  lemma BeginInstallKeepsSound(s: RuntimeState, config: EffectiveConfig, sent: bool, now: Time, active: bool,
                               coupled: bool, verified: bool)
    requires Sound(s, config, active, coupled, verified)
    ensures
      var (t, accepted) := BeginInstall(s, config, sent, now);
      && Sound(t, config, active, coupled, verified) && SameVerified(s, t)
      && t.repository == s.repository && t.managementActive == s.managementActive
      && (accepted ==> t.installActive && !s.installActive && !s.repository.OperationRunning?)
      && (!accepted ==> t.installActive == s.installActive)
  {
  }

  // ---------------------------------------------------------------- lifecycle

  lemma RescheduleKeepsSound(s: RuntimeState, snapshot: EffectiveConfig, now: Time, c: Conditions,
                             config: EffectiveConfig, coupled: bool, verified: bool)
    requires Sound(s, config, false, coupled, verified) && (coupled ==> !s.installActive)
    ensures
      var (t, trigger) := Reschedule(s, snapshot, now, c);
      && Sound(t, config, trigger.Some?, coupled, verified)
      && t.repository == s.repository && t.installActive == s.installActive && t.managementActive == s.managementActive
      && SameVerified(s, t)
      && (trigger.Some? ==> AllowsBackup(s.repository) && !s.managementActive && t.state.Running?)
  {
  }

  lemma EvaluateKeepsSound(s: RuntimeState, snapshot: EffectiveConfig, now: Time, c: Conditions,
                           config: EffectiveConfig, coupled: bool, verified: bool)
    requires Sound(s, config, false, coupled, verified)
    ensures
      var (t, trigger) := Evaluate(s, snapshot, now, c);
      && Sound(t, config, trigger.Some?, coupled, verified)
      && t.repository == s.repository && t.installActive == s.installActive && t.managementActive == s.managementActive
      && SameVerified(s, t)
      && (trigger.Some? ==> !Held(s, now) && AllowsBackup(s.repository) && !s.managementActive && t.state.Running?)
  {
    if !Held(s, now) {
      RescheduleKeepsSound(AfterHold(s, now), snapshot, now, c, config, coupled, verified);
    }
  }

  /** The end of a backup brings the coupling about, whatever an unenrollment wrote while it ran. */
  lemma FinishBackupKeepsSound(s: RuntimeState, hours: nat, kind: OutcomeKind, now: Time, config: EffectiveConfig,
                               coupled: bool, verified: bool)
    requires Sound(s, config, true, coupled, verified)
    ensures
      var t := FinishBackup(s, hours, kind, now);
      && Sound(t, config, false, true, verified)
      && t.repository == s.repository && t.installActive == s.installActive && t.managementActive == s.managementActive
      && SameVerified(s, t)
  {
  }

  /** Finishing the running operation under a configuration with the current identity. */
  lemma FinishRepositoryKeepsSound(s: RuntimeState, snapshot: EffectiveConfig, operation: OperationKind,
                                   outcome: ExecutionResult, saved: bool, now: Time, config: EffectiveConfig,
                                   active: bool, coupled: bool, verified: bool)
    requires Sound(s, config, active, coupled, verified)
    requires outcome.ExecutionSucceeded? ==> IdentityOf(snapshot) == IdentityOf(config)
    requires coupled && s.repository.OperationRunning? ==> !s.state.Running?
    ensures
      var t := FinishRepository(s, snapshot, operation, outcome, saved, now);
      && Sound(t, config, active, coupled, verified)
      && t.installActive == s.installActive && t.managementActive == s.managementActive
      && (t.repository.OperationRunning? ==> s.repository.OperationRunning?)
      && (SameVerified(s, t) || s.repository.OperationRunning?)
  {
    if s.repository == OperationRunning(operation) {
      var recorded := RecordRepository(s, snapshot, operation, outcome, saved, now);
      assert Sound(recorded, snapshot, active, coupled, verified);
      ApplyConfigurationKeepsSound(recorded, snapshot, now, active, coupled, verified);
    }
  }

  lemma FinishInstallKeepsSound(s: RuntimeState, outcome: InstallOutcome, now: Time, config: EffectiveConfig,
                                active: bool, coupled: bool, verified: bool)
    requires Sound(s, config, active, coupled, verified) && (coupled ==> !active)
    ensures
      var t := FinishInstall(s, outcome, now);
      && Sound(t, config, active, coupled, verified) && SameVerified(s, t)
      && t.repository == s.repository && t.managementActive == s.managementActive
      && (t.installActive <==> outcome.InstallIndeterminate?)
  {
  }

  /** What a backup worker may turn the state into. */
  predicate WorkerState(s: RuntimeState, t: RuntimeState, config: EffectiveConfig, coupled: bool, verified: bool) {
    Sound(t, config, true, coupled, verified) && SameOperations(s, t) && SameVerified(s, t)
  }

  lemma WorkerKeepsSound(s: RuntimeState, config: EffectiveConfig, now: Time, result: RetentionResult, coupled: bool,
                         verified: bool)
    requires Sound(s, config, true, coupled, verified)
    ensures WorkerState(s, UpdateProgress(s), config, coupled, verified)
    ensures WorkerState(s, BeginRetention(s, config, now).0, config, coupled, verified)
    ensures WorkerState(s, FinishRetention(s, result, now), config, coupled, verified)
  {
  }
}
