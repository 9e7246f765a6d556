/** The state behind the service's one mutex and every transition made under it
    (apps/resticpal-service/src/runtime). */
module Runtime {
  import opened Common
  import opened Config
  import opened Outcomes
  import opened Schedule

  // ---------------------------------------------------------------- state

  datatype WaitingReason =
    | WakeGrace | Network | PolicyBackoff | Battery | MeteredNetwork | RepositoryValidation | Update

  datatype BackupPhase = PreparingSnapshot | Uploading | RetentionPhase

  datatype BackupState =
    | Unconfigured
    | Idle
    | Waiting(reason: WaitingReason)
    | Running(phase: BackupPhase)
    | Succeeded
    | SucceededWithWarnings
    | Failed(code: string)
    | Cancelled

  datatype OperationKind = Validate | Initialize

  datatype RepositoryStatus =
    | NotRun
    | ValidationRequired
    | OperationRunning(operation: OperationKind)
    | OperationSucceeded(operation: OperationKind, completedAt: Time)
    | OperationFailed(operation: OperationKind, completedAt: Time, code: string)

  /** What survives a restart in the state file. */
  datatype ServiceState = ServiceState(
    lastSuccess: Option<Time>,
    lastRetention: Option<Time>,
    lastPrune: Option<Time>,
    lastRetentionError: Option<string>,
    validationRequired: bool,
    verified: Option<RepositoryIdentity>,
    verifiedAt: Option<Time>)

  datatype RuntimeState = RuntimeState(
    state: BackupState,
    stateSince: Time,
    lastAttempt: Option<Time>,
    lastSuccess: Option<Time>,
    nextDeadline: Option<Time>,
    resumedAt: Option<Time>,
    notBefore: Option<Time>,
    holdUntil: Option<Time>,
    holdPrevious: Option<(BackupState, Option<Time>)>,
    installActive: bool,
    manualRequested: bool,
    consecutiveFailures: nat,
    repository: RepositoryStatus,
    service: ServiceState,
    managementActive: bool)

  datatype Conditions = Conditions(networkRequired: bool, networkAvailable: bool, onBattery: bool, meteredNetwork: bool)

  datatype InstallOutcome = InstallCompleted | InstallFailed | InstallIndeterminate

  const CONDITION_RETRY: int := 60 * SECOND
  const MIN_UPDATE_HOLD_SECONDS: nat := 60
  const MAX_UPDATE_HOLD_SECONDS: nat := 30 * 60
  const U32_MAX: nat := 0xFFFF_FFFF

  predicate AllowsBackup(status: RepositoryStatus) {
    status.OperationSucceeded?
  }

  predicate HoldUnexpired(s: RuntimeState, now: Time) {
    s.holdUntil.Some? && s.holdUntil.value > now
  }

  /** An update owns the machine: an install is active or its hold has not expired. */
  predicate Held(s: RuntimeState, now: Time) {
    s.installActive || HoldUnexpired(s, now)
  }

  /** The update hold is left alone. */
  predicate SameHold(s: RuntimeState, t: RuntimeState) {
    t.holdUntil == s.holdUntil && t.holdPrevious == s.holdPrevious && t.installActive == s.installActive
  }

  predicate SamePrune(s: RuntimeState, t: RuntimeState) {
    t.service.lastPrune == s.service.lastPrune
  }

  /** Failures and the last success are left alone. */
  predicate SameCounters(s: RuntimeState, t: RuntimeState) {
    t.consecutiveFailures == s.consecutiveFailures && t.lastSuccess == s.lastSuccess
  }

  predicate SameSchedule(s: RuntimeState, t: RuntimeState) {
    SameCounters(s, t) && t.notBefore == s.notBefore
  }

  /** The earliest start goes exactly when the configuration does. */
  predicate Configured(s: RuntimeState, config: EffectiveConfig, t: RuntimeState) {
    SameCounters(s, t) && t.notBefore == if IsConfigured(config) then s.notBefore else None
  }

  /** The repository status is left alone, or ends up with no operation running. */
  predicate KeepsOperation(s: RuntimeState, t: RuntimeState) {
    t.repository == s.repository || !t.repository.OperationRunning?
  }

  function Transition(s: RuntimeState, next: BackupState, now: Time): (r: RuntimeState)
    ensures SameHold(s, r) && SamePrune(s, r)
    ensures SameSchedule(s, r)
    ensures KeepsOperation(s, r)
  {
    if s.state != next then s.(state := next, stateSince := now) else s
  }

  // ---------------------------------------------------------------- repository identity

  predicate RequiresValidation(service: ServiceState, config: EffectiveConfig) {
    config.repository.url.Some? && (service.validationRequired || service.verified != Some(IdentityOf(config)))
  }

  /** The repository counts as usable although the one the configuration names is not the verified one. */
  predicate Misplaced(s: RuntimeState, config: EffectiveConfig) {
    AllowsBackup(s.repository) && config.repository.url.Some? && s.service.verified != Some(IdentityOf(config))
  }

  function RequireValidation(service: ServiceState): ServiceState {
    service.(validationRequired := true, verified := None, verifiedAt := None)
  }

  function MarkVerified(service: ServiceState, config: EffectiveConfig, now: Time): ServiceState {
    service.(validationRequired := false, verified := Some(IdentityOf(config)), verifiedAt := Some(now))
  }

  function InitialRepository(service: ServiceState, config: EffectiveConfig): RepositoryStatus {
    if RequiresValidation(service, config) then ValidationRequired
    else if service.verifiedAt.Some? then OperationSucceeded(Validate, service.verifiedAt.value)
    else NotRun
  }

  function InitialState(service: ServiceState, config: EffectiveConfig, now: Time): RuntimeState {
    var repository := InitialRepository(service, config);
    var ready := AllowsBackup(repository);
    RuntimeState(
      if IsConfigured(config) && !ready then BackupState.Waiting(RepositoryValidation)
      else if IsConfigured(config) then BackupState.Idle
      else Unconfigured,
      now, None, service.lastSuccess,
      if IsConfigured(config) && ready
      then Some(CompletionDeadline(service.lastSuccess, now, config.schedule.intervalHours)) else None,
      None, None, None, None, false, false, 0, repository, service, false)
  }

  // ---------------------------------------------------------------- schedule

  /** Leaving a hold: the state and deadline saved when it began come back if the status still shows it. */
  function AfterHold(s: RuntimeState, now: Time): RuntimeState {
    var cleared := s.(holdUntil := None, holdPrevious := None);
    if s.holdPrevious.Some? && s.state == BackupState.Waiting(Update)
    then cleared.(state := s.holdPrevious.value.0, stateSince := now, nextDeadline := s.holdPrevious.value.1)
    else cleared
  }

  function SnapshotOf(s: RuntimeState, now: Time, c: Conditions): Snapshot {
    Snapshot(now, s.lastSuccess, s.resumedAt, s.notBefore, s.manualRequested, s.state.Running?,
             c.networkRequired, c.networkAvailable, c.onBattery, c.meteredNetwork)
  }

  function ReasonOf(blocker: Blocker): WaitingReason {
    match blocker
    case WakeGrace => WaitingReason.WakeGrace
    case NetworkUnavailable => Network
    case BatteryDisallowed => Battery
    case MeteredNetworkDisallowed => MeteredNetwork
  }

  /** What an evaluation does once no hold is in the way. */
  function Reschedule(s: RuntimeState, config: EffectiveConfig, now: Time, c: Conditions)
    : (RuntimeState, Option<Trigger>)
  {
    if !IsConfigured(config) || s.managementActive || !AllowsBackup(s.repository) then (s, None)
    else
      match Decide(config.schedule, SnapshotOf(s, now, c))
      case AlreadyRunning => (s, None)
      case Start(trigger) =>
        (s.(state := Running(PreparingSnapshot), stateSince := now, lastAttempt := Some(now), nextDeadline := None,
            manualRequested := false, resumedAt := None, notBefore := None), Some(trigger))
      case Idle(deadline) =>
        var rescheduled := s.(nextDeadline := Some(deadline), resumedAt := None);
        (if s.state.Waiting? then Transition(rescheduled, BackupState.Idle, now) else rescheduled, None)
      case Waiting(blockers, retryAt) =>
        var waiting := Transition(s, BackupState.Waiting(ReasonOf(blockers[0])), now);
        (waiting.(nextDeadline :=
                    if retryAt.Some? then retryAt else if s.notBefore.Some? then s.notBefore else Some(now)),
         None)
  }

  function Evaluate(s: RuntimeState, config: EffectiveConfig, now: Time, c: Conditions)
    : (RuntimeState, Option<Trigger>)
  {
    if s.installActive then
      (Transition(s, BackupState.Waiting(Update), now).(nextDeadline := Some(now + CONDITION_RETRY)), None)
    else if HoldUnexpired(s, now) then
      (Transition(s, BackupState.Waiting(Update), now).(nextDeadline := s.holdUntil), None)
    else Reschedule(AfterHold(s, now), config, now, c)
  }

  /** The loop's next time-out, in milliseconds. */
  function NextEvaluationDelay(s: RuntimeState, now: Time): nat {
    if s.managementActive then CONDITION_RETRY
    else if s.state.Waiting? && s.state.reason in {Network, Battery, MeteredNetwork} then CONDITION_RETRY
    else match s.nextDeadline
      case None => HOUR
      case Some(deadline) => Max(deadline - now, 0)
  }

  function ApplyConfigurationStatus(s: RuntimeState, config: EffectiveConfig, now: Time): (r: RuntimeState)
    ensures SameHold(s, r) && SamePrune(s, r)
    ensures Configured(s, config, r)
    ensures r.repository == s.repository && r.service == s.service
  {
    if !IsConfigured(config) then
      Transition(s, Unconfigured, now).(nextDeadline := None, manualRequested := false, notBefore := None)
    else if !AllowsBackup(s.repository) then
      Transition(s, BackupState.Waiting(RepositoryValidation), now).(nextDeadline := None)
    else
      var scheduled := CompletionDeadline(s.lastSuccess, now, config.schedule.intervalHours);
      var dated := s.(nextDeadline := Some(Later(scheduled, s.notBefore)));
      if s.state.Unconfigured? || s.state == BackupState.Waiting(RepositoryValidation)
      then Transition(dated, BackupState.Idle, now) else dated
  }

  // ---------------------------------------------------------------- lifecycle

  function RestoreHeld(s: RuntimeState, now: Time): (r: RuntimeState)
    ensures SameSchedule(s, r)
    ensures KeepsOperation(s, r)
  {
    match s.holdPrevious
    case None => s
    case Some(previous) =>
      s.(state := previous.0, stateSince := now, nextDeadline := previous.1, holdPrevious := None)
  }

  function FinishInstall(s: RuntimeState, outcome: InstallOutcome, now: Time): (r: RuntimeState)
    ensures SameSchedule(s, r)
    ensures KeepsOperation(s, r)
  {
    match outcome
    case InstallCompleted => s.(installActive := false)
    case InstallFailed => RestoreHeld(s.(installActive := false, holdUntil := None), now)
    case InstallIndeterminate => s.(installActive := true)
  }

  function UpdateProgress(s: RuntimeState): (r: RuntimeState)
    ensures SameHold(s, r) && SamePrune(s, r)
    ensures SameSchedule(s, r)
    ensures KeepsOperation(s, r)
  {
    if s.state.Running? then s.(state := Running(Uploading)) else s
  }

  predicate PruneDue(service: ServiceState, config: EffectiveConfig, now: Time) {
    service.lastPrune.Some? ==> now - service.lastPrune.value >= config.retention.pruneIntervalDays * DAY
  }

  /** Whether retention follows, and if so whether it prunes. */
  function BeginRetention(s: RuntimeState, config: EffectiveConfig, now: Time): (r: (RuntimeState, Option<bool>))
    ensures SameHold(s, r.0) && SamePrune(s, r.0)
    ensures SameSchedule(s, r.0)
    ensures KeepsOperation(s, r.0)
  {
    if config.repository.mode != Standard then (s, None)
    else (s.(state := Running(RetentionPhase), stateSince := now), Some(PruneDue(s.service, config, now)))
  }

  function FinishRetention(s: RuntimeState, outcome: RetentionResult, now: Time): (r: RuntimeState)
    ensures SameHold(s, r) && (!outcome.RetentionSucceeded? ==> SamePrune(s, r))
    ensures SameSchedule(s, r)
    ensures KeepsOperation(s, r)
  {
    match outcome
    case RetentionSucceeded(pruned) =>
      s.(service := s.service.(lastRetention := Some(now), lastRetentionError := None,
                               lastPrune := if pruned then Some(now) else s.service.lastPrune))
    case RetentionFailed(code) => s.(service := s.service.(lastRetentionError := Some(code)))
    case RetentionCancelled => s.(service := s.service.(lastRetentionError := Some("retention_cancelled")))
  }

  function FinalState(kind: OutcomeKind): BackupState {
    match kind
    case Succeeded => BackupState.Succeeded
    case SucceededWithWarnings => BackupState.SucceededWithWarnings
    case Failed(code) => BackupState.Failed(code)
    case Cancelled => BackupState.Cancelled
  }

  function Pow2(n: nat): nat {
    if n == 0 then 1 else 2 * Pow2(n - 1)
  }

  /** The pause after `failures` failures in a row, in minutes. */
  function BackoffMinutes(failures: nat): (minutes: nat) {
    5 * Pow2(Min(Max(failures - 1, 0), 6))
  }

  function FailuresAfter(failures: nat, kind: OutcomeKind): nat {
    if IsSuccess(kind) then 0 else if kind.Failed? then Min(failures + 1, U32_MAX) else failures
  }

  function FinishBackup(s: RuntimeState, intervalHours: nat, kind: OutcomeKind, now: Time): (r: RuntimeState)
    ensures SameHold(s, r) && SamePrune(s, r)
    ensures KeepsOperation(s, r)
  {
    var failures := FailuresAfter(s.consecutiveFailures, kind);
    var finished := s.(state := FinalState(kind), stateSince := now, resumedAt := None,
                       consecutiveFailures := failures);
    if IsSuccess(kind) then
      finished.(lastSuccess := Some(now), service := s.service.(lastSuccess := Some(now)), notBefore := None,
                nextDeadline := Some(CompletionDeadline(Some(now), now, intervalHours)))
    else
      var retryAt := now + BackoffMinutes(failures) * MINUTE;
      finished.(notBefore := Some(retryAt), nextDeadline := Some(retryAt))
  }

  /** The operation's result and, when it succeeded, the identity it vouches for. */
  function RecordRepository(s: RuntimeState, config: EffectiveConfig, operation: OperationKind,
                            outcome: ExecutionResult, saved: bool, now: Time): (r: RuntimeState)
    ensures SameHold(s, r) && SamePrune(s, r)
    ensures SameSchedule(s, r)
    ensures KeepsOperation(s, r)
  {
    match outcome
    case ExecutionSucceeded =>
      s.(service := MarkVerified(s.service, config, now),
         repository := if saved then OperationSucceeded(operation, now)
                       else OperationFailed(operation, now, "state_save_failed"))
    case ExecutionFailed(code) => s.(repository := OperationFailed(operation, now, code))
    case ExecutionCancelled => s.(repository := OperationFailed(operation, now, "repository_operation_cancelled"))
  }

  function FinishRepository(s: RuntimeState, config: EffectiveConfig, operation: OperationKind,
                            outcome: ExecutionResult, saved: bool, now: Time): (r: RuntimeState)
    ensures SameHold(s, r) && SamePrune(s, r)
    ensures if s.repository == OperationRunning(operation) then Configured(s, config, r) else r == s
    ensures KeepsOperation(s, r)
  {
    if s.repository != OperationRunning(operation) then s
    else ApplyConfigurationStatus(RecordRepository(s, config, operation, outcome, saved, now), config, now)
  }

  // ---------------------------------------------------------------- requests

  /** The second half of a run-now request; its first half looks at the configuration and the repository only. */
  predicate BackupRefused(s: RuntimeState, now: Time) {
    s.state.Running? || Held(s, now)
  }

  function RequestBackup(s: RuntimeState, sent: bool, now: Time): (r: (RuntimeState, bool))
    ensures SameHold(s, r.0) && SamePrune(s, r.0)
    ensures SameCounters(s, r.0)
    ensures KeepsOperation(s, r.0)
  {
    if BackupRefused(s, now) then (s, false)
    else (s.(manualRequested := sent, notBefore := None), sent)
  }

  function DeferBackup(s: RuntimeState, config: EffectiveConfig, minutes: nat, now: Time): (r: (RuntimeState, bool))
    ensures SameHold(s, r.0) && SamePrune(s, r.0)
    ensures SameCounters(s, r.0)
    ensures KeepsOperation(s, r.0)
  {
    if !(1 <= minutes <= 24 * 60) || !IsConfigured(config) || !AllowsBackup(s.repository) || s.state.Running?
    then (s, false)
    else
      var deadline := UnwrapOr(CheckedAdd(now, minutes * MINUTE), now);
      (s.(manualRequested := false, notBefore := Some(deadline), nextDeadline := Some(deadline)), true)
  }

  predicate RepositoryRefused(s: RuntimeState, config: EffectiveConfig, operation: OperationKind, now: Time) {
    || config.repository.url.None? || ResticPassword !in config.repository.secretRefs
    || (operation == Initialize && config.repository.mode == AppendOnly)
    || Held(s, now) || s.state.Running? || s.repository.OperationRunning?
  }

  function BeginRepository(s: RuntimeState, config: EffectiveConfig, operation: OperationKind,
                           saved: bool, sent: bool, now: Time): (r: (RuntimeState, bool))
    ensures SameHold(s, r.0) && SamePrune(s, r.0)
    ensures SameSchedule(s, r.0)
  {
    if RepositoryRefused(s, config, operation, now) then (s, false)
    else
      var shown := if IsConfigured(config)
                   then Transition(s, BackupState.Waiting(RepositoryValidation), now).(nextDeadline := None) else s;
      var required := shown.(service := RequireValidation(s.service));
      if !saved then (required.(repository := OperationFailed(operation, now, "state_save_failed")), false)
      else if !sent then (required.(repository := OperationFailed(operation, now, "service_stopping")), false)
      else (required.(repository := OperationRunning(operation)), true)
  }

  predicate UpdateRefused(s: RuntimeState, now: Time) {
    Held(s, now) || s.state.Running? || s.repository.OperationRunning? || s.managementActive
  }

  function BeginHold(s: RuntimeState, seconds: nat, install: bool, now: Time): (r: RuntimeState)
    ensures SameSchedule(s, r)
    ensures KeepsOperation(s, r)
  {
    var deadline := UnwrapOr(CheckedAdd(now, seconds * SECOND), now);
    Transition(
      s.(holdPrevious := if s.holdPrevious.None? then Some((s.state, s.nextDeadline)) else s.holdPrevious,
         installActive := install, holdUntil := Some(deadline), manualRequested := false, resumedAt := None,
         nextDeadline := Some(deadline)),
      BackupState.Waiting(Update), now)
  }

  function PrepareForUpdate(s: RuntimeState, config: EffectiveConfig, seconds: nat,
                            now: Time): (r: (RuntimeState, bool))
    ensures SameSchedule(s, r.0)
    ensures KeepsOperation(s, r.0)
  {
    if config.automaticInstall || !(MIN_UPDATE_HOLD_SECONDS <= seconds <= MAX_UPDATE_HOLD_SECONDS)
       || UpdateRefused(s, now)
    then (s, false)
    else (BeginHold(s, seconds, false, now), true)
  }

  function BeginInstall(s: RuntimeState, config: EffectiveConfig, sent: bool, now: Time): (r: (RuntimeState, bool))
    ensures SameSchedule(s, r.0)
    ensures KeepsOperation(s, r.0)
  {
    if !config.automaticInstall || UpdateRefused(s, now) then (s, false)
    else
      var held := BeginHold(s, MAX_UPDATE_HOLD_SECONDS, true, now);
      if sent then (held, true) else (RestoreHeld(held.(installActive := false, holdUntil := None), now), false)
  }

  /** Another operation owns the state, so enrollment and unenrollment are refused. */
  predicate ManagementRefused(s: RuntimeState, now: Time) {
    s.state.Running? || s.repository.OperationRunning? || s.managementActive || Held(s, now)
  }

  /** Installing a managed configuration: a repository that is not the verified one must be validated. */
  function InstallManaged(s: RuntimeState, config: EffectiveConfig, now: Time): (r: RuntimeState)
    ensures SameHold(s, r) && SamePrune(s, r)
    ensures Configured(s, config, r)
    ensures KeepsOperation(s, r)
  {
    ApplyConfigurationStatus(
      if RequiresValidation(s.service, config)
      then s.(service := RequireValidation(s.service), repository := ValidationRequired) else s,
      config, now)
  }

  predicate PolicyBusy(s: RuntimeState, now: Time) {
    s.state.Running? || s.repository.OperationRunning? || Held(s, now)
  }

  /** Local edits that keep the connection (sources, schedule) or change it (repository settings). */
  function InstallLocal(s: RuntimeState, config: EffectiveConfig, connectionChanged: bool, now: Time): (r: RuntimeState)
    ensures SameHold(s, r) && SamePrune(s, r)
    ensures Configured(s, config, r)
    ensures KeepsOperation(s, r)
  {
    ApplyConfigurationStatus(
      if connectionChanged
      then s.(service := RequireValidation(s.service), repository := ValidationRequired) else s,
      config, now)
  }
}
