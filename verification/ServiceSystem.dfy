/** The running service as interleaved threads: the event loop (apps/resticpal-service/src/main.rs), the single
    request thread (runtime/ipc.rs, runtime/enrollment.rs), the management thread, and the backup, repository and
    install workers. A step is what one thread does while it holds the state mutex, or one read or write of the
    configuration outside it. */
module ServiceSystem {
  import opened Common
  import opened Config
  import opened Outcomes
  import opened Schedule
  import opened Runtime

  datatype Event =
    | Stop
    | Resume
    | Nudge
    | RunNow
    | RepositoryRequested(operation: OperationKind)
    | RepositoryFinished(operation: OperationKind, outcome: ExecutionResult)
    | InstallRequested
    | InstallFinished(installed: InstallOutcome)
    | BackupFinished(kind: OutcomeKind)

  /** Where the event loop stands. The event being handled stays at the head of the queue until it is done. */
  datatype LoopPoint =
    | Receiving
    | Handling(snapshot: EffectiveConfig)
    | EvaluationDue
    | Evaluating(snapshot: EffectiveConfig)
    | Stopped

  /** Where the request thread stands; unenrollment and the retention edit hold the mutation lock. */
  datatype RequestPoint =
    | Ready
    | Enrolling
    | Enrolled
    | UnenrollChecked
    | UnenrollWritten
    | BackupChecked
    | RetentionChecked(retention: RetentionConfig)

  /** Where a backup worker stands. */
  datatype Worker =
    | Starting
    | BackingUp(config: EffectiveConfig)
    | RetentionDue(config: EffectiveConfig, kind: OutcomeKind)
    | Forgetting(config: EffectiveConfig, kind: OutcomeKind, plan: Plan)
    | Pruning(config: EffectiveConfig, kind: OutcomeKind, plan: Plan)
    | Recording(kind: OutcomeKind, result: RetentionResult)
    | Reporting(kind: OutcomeKind)

  /** The retention plan: whether it prunes, when that was decided, and the interval it was decided by. */
  datatype Plan = Plan(prune: bool, decidedAt: Time, intervalDays: nat)

  /** A repository worker and, once it has read it, the configuration it works under. */
  datatype RepositoryWorker = RepositoryWorker(operation: OperationKind, config: Option<EffectiveConfig>)

  /** What workers did, oldest first. */
  datatype Deed =
    | DidBackup(kind: OutcomeKind)
    | DidForget(result: ExecutionResult, mode: RepositoryMode)
    | DidPrune(result: ExecutionResult, mode: RepositoryMode, at: Time, lastPrune: Option<Time>, intervalDays: nat)

  /** What moved the schedule, oldest first. */
  datatype Entry = Finished(kind: OutcomeKind, at: Time) | Cleared | Deferred(until: Time)

  /** What has happened so far; no step reads it. `tested` is the identity the last repository worker reported on.
      `raced` says that unenrollment wrote the status under the active backup, `reidentified` that unenrollment left
      another repository than the verified one and nothing has asked for its validation since, `strayed` that the last
      backup worker read its configuration in that time, and `overlapped` that the last update hold began beside an
      active backup. */
  datatype Past = Past(
    starts: nat,
    finishes: nat,
    deeds: seq<Deed>,
    ledger: seq<Entry>,
    tested: Option<RepositoryIdentity>,
    raced: bool,
    reidentified: bool,
    strayed: bool,
    overlapped: bool,
    clockWentBack: bool)

  datatype World = World(
    clock: Time,
    config: EffectiveConfig,
    state: RuntimeState,
    queue: seq<Event>,
    loop: LoopPoint,
    stopping: bool,
    activeBackup: bool,
    activeRepository: bool,
    requests: RequestPoint,
    backups: seq<Worker>,
    repositoryWorkers: seq<RepositoryWorker>,
    installWorkers: nat,
    past: Past)

  function Initial(service: ServiceState, config: EffectiveConfig, now: Time): World {
    World(now, config, InitialState(service, config, now), [], EvaluationDue, false, false, false, Ready, [], [], 0,
          Past(0, 0, [], [], None, false, false, false, false, false))
  }

  datatype EnvironmentStep =
    | SetClock(to: Time)
    | Signal(event: Event)
    | CaptureRepository(worker: nat)
    | ReportRepository(worker: nat, outcome: ExecutionResult)
    | ReportInstall(installed: InstallOutcome)
    | ApplyPolicy(next: EffectiveConfig)

  datatype LoopStep =
    | Receive
    | Timeout
    | Handle(spawned: bool, saved: bool)
    | ReadConfiguration
    | EvaluateSchedule(conditions: Conditions, spawned: bool)
    | Exit

  datatype BackupStep =
    | CaptureConfiguration
    | ReportProgress
    | EndBackup(kind: OutcomeKind)
    | PlanRetention
    | Forget(result: ExecutionResult)
    | Prune(result: ExecutionResult)
    | RecordRetention(saved: bool)
    | ReportBackup

  datatype RequestStep =
    | CheckRunNow(seen: EffectiveConfig)
    | RunBackupNow
    | Defer(seen: EffectiveConfig, minutes: nat)
    | RepositoryOperation(seen: EffectiveConfig, operation: OperationKind, saved: bool)
    | HoldForUpdate(seconds: nat)
    | InstallUpdate
    | SetAutomaticInstall(automatic: bool)
    | EditSchedule(schedule: ScheduleConfig)
    | EditSources(paths: seq<string>, exclusions: seq<string>)
    | EditRepository(repository: RepositoryConfig, connectionChanged: bool)
    | CheckRetention(retention: RetentionConfig)
    | WriteRetention
    | BeginEnrollment
    | CommitEnrollment(next: EffectiveConfig)
    | EndEnrollment
    | CheckUnenrollment
    | WriteUnenrolled(next: EffectiveConfig)
    | ApplyUnenrolled

  datatype Step =
    | Environment(environment: EnvironmentStep)
    | Loop(loop: LoopStep)
    | Backup(worker: nat, backup: BackupStep)
    | Request(request: RequestStep)

  // ---------------------------------------------------------------- small moves

  /** The request thread, the configuration and the flags of the past are left alone; a race may end. */
  predicate SameElsewhere(w: World, r: World) {
    && r.config == w.config && r.requests == w.requests
    && (r.past.raced ==> w.past.raced) && r.past.reidentified == w.past.reidentified
    && r.past.overlapped == w.past.overlapped
    && r.past.clockWentBack == w.past.clockWentBack && r.past.tested == w.past.tested
  }

  predicate SameDeeds(w: World, r: World) {
    r.clock == w.clock && r.past.deeds == w.past.deeds
  }

  /** The loop, the workers and what they did are left alone. */
  predicate SameThreads(w: World, r: World) {
    && SameDeeds(w, r)
    && r.loop == w.loop && r.stopping == w.stopping
    && r.activeBackup == w.activeBackup && r.activeRepository == w.activeRepository
    && r.backups == w.backups
    && r.repositoryWorkers == w.repositoryWorkers && r.installWorkers == w.installWorkers
    && r.past.clockWentBack == w.past.clockWentBack
    && r.past.starts == w.past.starts && r.past.finishes == w.past.finishes && r.past.tested == w.past.tested
  }

  function Send(w: World, event: Event): World {
    w.(queue := w.queue + [event])
  }

  /** After an event that calls for an evaluation; a stopping loop only drains. */
  function ThenEvaluate(w: World): World {
    w.(loop := if w.stopping then Receiving else EvaluationDue)
  }

  function Note(w: World, entry: Entry): World {
    w.(past := w.past.(ledger := w.past.ledger + [entry]))
  }

  function Did(w: World, deed: Deed): World {
    w.(past := w.past.(deeds := w.past.deeds + [deed]))
  }

  function Remove<T>(s: seq<T>, i: nat): seq<T>
    requires i < |s|
  {
    s[..i] + s[i + 1..]
  }

  /** `finish_backup` together with clearing the loop's token. A race ends with the backup it raced. */
  function CloseBackup(w: World, intervalHours: nat, kind: OutcomeKind): (r: World)
    ensures SameElsewhere(w, r) && SameDeeds(w, r)
    ensures SameHold(w.state, r.state) && SamePrune(w.state, r.state)
    ensures r.past.starts == w.past.starts
    ensures KeepsOperation(w.state, r.state)
  {
    Note(w.(state := FinishBackup(w.state, intervalHours, kind, w.clock), activeBackup := false,
            past := w.past.(finishes := w.past.finishes + 1, raced := false)),
         Finished(kind, w.clock))
  }

  /** A configuration and its status are installed and the loop is woken. Losing the configuration ends a backoff. */
  function Install(w: World, config: EffectiveConfig, state: RuntimeState): (r: World)
    ensures SameThreads(w, r)
    ensures r.past.raced == w.past.raced && r.past.reidentified == w.past.reidentified
    ensures r.past.overlapped == w.past.overlapped && r.past.strayed == w.past.strayed
    ensures r.state == state && r.config == config && r.queue == w.queue + [Nudge]
  {
    var installed := w.(config := config, state := state, queue := w.queue + [Nudge]);
    if IsConfigured(config) then installed else Note(installed, Cleared)
  }

  // ---------------------------------------------------------------- the event loop

  function HandleEvent(w: World, snapshot: EffectiveConfig, event: Event, spawned: bool, saved: bool): (r: World)
    ensures SameElsewhere(w, r) && SameDeeds(w, r)
    ensures r.past.starts == w.past.starts && r.queue == w.queue && r.backups == w.backups
    ensures SamePrune(w.state, r.state)
    ensures KeepsOperation(w.state, r.state)
  {
    match event
    case Stop => w.(loop := Receiving, stopping := true)
    case Resume => ThenEvaluate(if w.stopping then w else w.(state := w.state.(resumedAt := Some(w.clock))))
    case Nudge => ThenEvaluate(w)
    case RunNow => ThenEvaluate(w)
    case BackupFinished(kind) => CloseBackup(w, snapshot.schedule.intervalHours, kind).(loop := Receiving)
    case RepositoryRequested(operation) =>
      if w.stopping then w.(loop := Receiving)
      else if w.activeBackup || w.activeRepository then
        FinishRepositoryIn(w, snapshot, operation, ExecutionFailed("repository_operation_conflict"), saved)
          .(loop := Receiving)
      else if spawned then
        w.(activeRepository := true, repositoryWorkers := w.repositoryWorkers + [RepositoryWorker(operation, None)],
           loop := Receiving)
      else
        FinishRepositoryIn(w, snapshot, operation, ExecutionFailed("executor_start_failed"), saved).(loop := Receiving)
    case RepositoryFinished(operation, outcome) =>
      ThenEvaluate(FinishRepositoryIn(w, snapshot, operation, outcome, saved).(activeRepository := false))
    case InstallRequested =>
      if w.stopping then w.(loop := Receiving)
      else if w.activeBackup || w.activeRepository || !spawned then
        w.(state := FinishInstall(w.state, InstallFailed, w.clock), loop := Receiving)
      else w.(installWorkers := w.installWorkers + 1, loop := Receiving)
    case InstallFinished(outcome) =>
      if w.stopping then w.(loop := Receiving)
      else ThenEvaluate(w.(state := FinishInstall(w.state, outcome, w.clock)))
  }

  function Conclude(w: World, state: RuntimeState, cleared: bool): World {
    if cleared then Note(w.(state := state), Cleared) else w.(state := state)
  }

  function FinishRepositoryIn(w: World, snapshot: EffectiveConfig, operation: OperationKind, outcome: ExecutionResult,
                              saved: bool): (r: World)
    ensures SameElsewhere(w, r) && SameDeeds(w, r)
    ensures r.past.starts == w.past.starts
    ensures SameHold(w.state, r.state) && SamePrune(w.state, r.state)
    ensures KeepsOperation(w.state, r.state)
  {
    Conclude(w, FinishRepository(w.state, snapshot, operation, outcome, saved, w.clock),
             w.state.repository == OperationRunning(operation) && !IsConfigured(snapshot))
  }

  /** The loop after a start: a worker, or at once the failure to spawn one. */
  function Started(w: World, state: RuntimeState, spawned: bool): (r: World)
    ensures SameElsewhere(w, r) && SameDeeds(w, r)
    ensures state.service.lastPrune == w.state.service.lastPrune ==> SamePrune(w.state, r.state)
    ensures r.backups == w.backups || r.backups == w.backups + [Starting]
    ensures KeepsOperation(w.state, state) ==> KeepsOperation(w.state, r.state)
  {
    var started := Note(w.(state := state, loop := Receiving, past := w.past.(starts := w.past.starts + 1)), Cleared);
    if spawned then started.(activeBackup := true, backups := w.backups + [Starting])
    else CloseBackup(started, w.config.schedule.intervalHours, OutcomeKind.Failed("executor_start_failed"))
  }

  function EvaluateIn(w: World, snapshot: EffectiveConfig, conditions: Conditions, spawned: bool): (r: World)
    ensures SameElsewhere(w, r) && SameDeeds(w, r)
    ensures r.queue == w.queue && r.installWorkers == w.installWorkers && r.repositoryWorkers == w.repositoryWorkers
    ensures SamePrune(w.state, r.state)
    ensures r.backups == w.backups || r.backups == w.backups + [Starting]
    ensures KeepsOperation(w.state, r.state)
  {
    var (state, trigger) := Evaluate(w.state, snapshot, w.clock, conditions);
    if trigger.None? then w.(state := state, loop := Receiving) else Started(w, state, spawned)
  }

  // ---------------------------------------------------------------- backup workers

  function RetentionOf(result: ExecutionResult, whenDone: RetentionResult, generic: string): RetentionResult {
    match result
    case ExecutionSucceeded => whenDone
    case ExecutionCancelled => RetentionCancelled
    case ExecutionFailed(code) => RetentionFailure(code, generic)
  }

  /** A forget is only built for a standard repository. */
  function AfterForget(worker: Worker, result: ExecutionResult): Worker
    requires worker.Forgetting?
  {
    if worker.config.repository.mode == AppendOnly then Recording(worker.kind, RetentionFailed("retention_forbidden"))
    else if result.ExecutionSucceeded? && worker.plan.prune then Pruning(worker.config, worker.kind, worker.plan)
    else Recording(worker.kind, RetentionOf(result, RetentionSucceeded(false), "retention_forget_failed"))
  }

  /** A worker moves on and leaves this state. */
  function Advance(w: World, i: nat, worker: Worker, state: RuntimeState): World
    requires i < |w.backups|
  {
    w.(state := state, backups := w.backups[i := worker])
  }

  function CaptureIn(w: World, i: nat): (r: World)
    requires i < |w.backups|
    ensures SameElsewhere(w, r) && r.clock == w.clock && r.loop == w.loop && r.past.raced == w.past.raced
    ensures r.past.starts == w.past.starts && r.past.ledger == w.past.ledger
    ensures SameHold(w.state, r.state) && SamePrune(w.state, r.state)
    ensures SameSchedule(w.state, r.state)
    ensures KeepsOperation(w.state, r.state)
  {
    w.(backups := w.backups[i := BackingUp(w.config)], past := w.past.(strayed := w.past.reidentified))
  }

  function EndIn(w: World, i: nat, kind: OutcomeKind): (r: World)
    requires i < |w.backups| && w.backups[i].BackingUp?
    ensures SameElsewhere(w, r) && r.clock == w.clock && r.loop == w.loop && r.past.raced == w.past.raced
    ensures r.past.starts == w.past.starts && r.past.ledger == w.past.ledger
    ensures SameHold(w.state, r.state) && SamePrune(w.state, r.state)
    ensures SameSchedule(w.state, r.state)
    ensures KeepsOperation(w.state, r.state)
  {
    var next := if IsSuccess(kind) then RetentionDue(w.backups[i].config, kind) else Reporting(kind);
    Did(w.(backups := w.backups[i := next]), DidBackup(kind))
  }

  function ForgetIn(w: World, i: nat, result: ExecutionResult): (r: World)
    requires i < |w.backups| && w.backups[i].Forgetting?
    ensures SameElsewhere(w, r) && r.clock == w.clock && r.loop == w.loop && r.past.raced == w.past.raced
    ensures r.past.starts == w.past.starts && r.past.ledger == w.past.ledger
    ensures SameHold(w.state, r.state) && SamePrune(w.state, r.state)
    ensures SameSchedule(w.state, r.state)
    ensures KeepsOperation(w.state, r.state)
  {
    var worker := w.backups[i];
    var next := w.(backups := w.backups[i := AfterForget(worker, result)]);
    if worker.config.repository.mode == AppendOnly then next
    else Did(next, DidForget(result, worker.config.repository.mode))
  }

  function PruneIn(w: World, i: nat, result: ExecutionResult): (r: World)
    requires i < |w.backups| && w.backups[i].Pruning?
    ensures SameElsewhere(w, r) && r.clock == w.clock && r.loop == w.loop && r.past.raced == w.past.raced
    ensures r.past.starts == w.past.starts && r.past.ledger == w.past.ledger
    ensures SameHold(w.state, r.state) && SamePrune(w.state, r.state)
    ensures SameSchedule(w.state, r.state)
    ensures KeepsOperation(w.state, r.state)
  {
    var worker := w.backups[i];
    Did(w.(backups := w.backups[i :=
          Recording(worker.kind, RetentionOf(result, RetentionSucceeded(true), "retention_prune_failed"))]),
        DidPrune(result, worker.config.repository.mode, w.clock, w.state.service.lastPrune, worker.plan.intervalDays))
  }

  function PlanIn(w: World, i: nat): (r: World)
    requires i < |w.backups| && w.backups[i].RetentionDue?
    ensures SameElsewhere(w, r) && r.clock == w.clock && r.loop == w.loop && r.past.raced == w.past.raced
    ensures r.past.starts == w.past.starts && r.past.ledger == w.past.ledger
    ensures SameHold(w.state, r.state) && SamePrune(w.state, r.state)
    ensures SameSchedule(w.state, r.state)
    ensures KeepsOperation(w.state, r.state)
  {
    var worker := w.backups[i];
    var (state, plan) := BeginRetention(w.state, w.config, w.clock);
    Advance(w, i,
            if plan.None? then Reporting(worker.kind)
            else Forgetting(worker.config, worker.kind,
                            Plan(plan.value, w.clock, w.config.retention.pruneIntervalDays)),
            state)
  }

  function RecordIn(w: World, i: nat, saved: bool): (r: World)
    requires i < |w.backups| && w.backups[i].Recording?
    ensures SameElsewhere(w, r) && r.clock == w.clock && r.loop == w.loop && r.past.raced == w.past.raced
    ensures r.past.starts == w.past.starts && r.past.ledger == w.past.ledger
    ensures SameHold(w.state, r.state)
    ensures SameSchedule(w.state, r.state)
    ensures KeepsOperation(w.state, r.state)
  {
    var worker := w.backups[i];
    var warned := !worker.result.RetentionSucceeded? || !saved;
    Advance(w, i, Reporting(if warned then OutcomeKind.SucceededWithWarnings else worker.kind),
            FinishRetention(w.state, worker.result, w.clock))
  }

  // ---------------------------------------------------------------- requests

  /** Some request holds the configuration-mutation lock across steps. */
  predicate MutationLocked(w: World) {
    w.requests.UnenrollChecked? || w.requests.UnenrollWritten? || w.requests.RetentionChecked?
  }

  predicate EditRefused(w: World, repositoryToo: bool) {
    Held(w.state, w.clock) || w.state.state.Running? || (repositoryToo && w.state.repository.OperationRunning?)
  }

  /** The state a request leaves and, if it was accepted, the event it sends. */
  function Answer(w: World, answer: (RuntimeState, bool), event: Event): (r: World)
    ensures SameThreads(w, r)
    ensures SameElsewhere(w, r) && r.past == w.past
  {
    if answer.1 then Send(w.(state := answer.0), event) else w.(state := answer.0)
  }

  /** A request that is not refused ends a backoff, even if the stopped loop can no longer be told. */
  function RunNowIn(w: World): (r: World)
    ensures SameThreads(w, r)
    ensures SameElsewhere(w.(requests := Ready), r) && r.past.raced == w.past.raced && r.past.strayed == w.past.strayed
    ensures SameHold(w.state, r.state) && SamePrune(w.state, r.state)
    ensures r.queue == w.queue || r.queue == w.queue + [RunNow]
    ensures KeepsOperation(w.state, r.state)
  {
    var answered := Answer(w.(requests := Ready), RequestBackup(w.state, w.loop != Stopped, w.clock), RunNow);
    if BackupRefused(w.state, w.clock) then answered else Note(answered, Cleared)
  }

  /** When a deferral by so many minutes ends. */
  function DeferredUntil(now: Time, minutes: nat): Time {
    if now + minutes * MINUTE <= MAX_TIME then now + minutes * MINUTE else now
  }

  function DeferIn(w: World, seen: EffectiveConfig, minutes: nat): (r: World)
    ensures SameThreads(w, r)
    ensures SameElsewhere(w, r) && r.past.raced == w.past.raced && r.past.strayed == w.past.strayed
    ensures SameHold(w.state, r.state) && SamePrune(w.state, r.state)
    ensures r.queue == w.queue || r.queue == w.queue + [Nudge]
    ensures KeepsOperation(w.state, r.state)
  {
    var answer := DeferBackup(w.state, seen, minutes, w.clock);
    var answered := Answer(w, answer, Nudge);
    if answer.1 then Note(answered, Deferred(DeferredUntil(w.clock, minutes))) else answered
  }

  /** An operation that is not refused asks for a validation first. */
  function RepositoryOperationIn(w: World, seen: EffectiveConfig, operation: OperationKind, saved: bool): (r: World)
    ensures SameThreads(w, r)
    ensures r.config == w.config && r.requests == w.requests && r.past.raced == w.past.raced
    ensures r.past.overlapped == w.past.overlapped && r.past.strayed == w.past.strayed
    ensures r.past.ledger == w.past.ledger && SameSchedule(w.state, r.state)
    ensures r.past.reidentified == (w.past.reidentified && RepositoryRefused(w.state, seen, operation, w.clock))
    ensures SameHold(w.state, r.state) && SamePrune(w.state, r.state)
    ensures r.queue == w.queue || r.queue == w.queue + [RepositoryRequested(operation)]
  {
    var refused := RepositoryRefused(w.state, seen, operation, w.clock);
    Answer(w.(past := w.past.(reidentified := w.past.reidentified && refused)),
           BeginRepository(w.state, seen, operation, saved, w.loop != Stopped, w.clock),
           RepositoryRequested(operation))
  }

  /** What an update request leaves; a hold that begins is noted as overlapping an active backup or not. */
  function Hold(w: World, answer: (RuntimeState, bool)): (r: World)
    ensures SameThreads(w, r)
    ensures r.config == w.config && r.requests == w.requests && r.queue == w.queue && r.state == answer.0
    ensures r.past.raced == w.past.raced && r.past.reidentified == w.past.reidentified
    ensures r.past.strayed == w.past.strayed
  {
    w.(state := answer.0, past := w.past.(overlapped := if answer.1 then w.activeBackup else w.past.overlapped))
  }

  function InstallUpdateIn(w: World): (r: World)
    ensures SameThreads(w, r)
    ensures r.config == w.config && r.requests == w.requests
    ensures r.past.raced == w.past.raced && r.past.reidentified == w.past.reidentified
    ensures r.past.strayed == w.past.strayed && r.past.ledger == w.past.ledger && SameSchedule(w.state, r.state)
    ensures r.queue == w.queue || r.queue == w.queue + [InstallRequested]
    ensures SamePrune(w.state, r.state)
    ensures KeepsOperation(w.state, r.state)
  {
    var answer := BeginInstall(w.state, w.config, w.loop != Stopped, w.clock);
    if answer.1 then Send(Hold(w, answer), InstallRequested) else Hold(w, answer)
  }

  /** A configuration whose repository the runtime itself checks. */
  function Checked(w: World): World {
    w.(past := w.past.(reidentified := false))
  }

  /** The runtime takes the unenrolled configuration's status without testing again what is running. */
  function ApplyUnenrolledIn(w: World): (r: World)
    ensures SameThreads(w, r)
    ensures r.past.raced == (w.past.raced || w.activeBackup) && r.past.reidentified == w.past.reidentified
    ensures SameHold(w.state, r.state) && SamePrune(w.state, r.state)
    ensures r.queue == w.queue + [Nudge]
    ensures KeepsOperation(w.state, r.state)
  {
    Install(w.(requests := Ready, past := w.past.(raced := w.past.raced || w.activeBackup)),
            w.config, ApplyConfigurationStatus(w.state, w.config, w.clock))
  }

  // ---------------------------------------------------------------- steps

  predicate EnvironmentEnabled(w: World, step: EnvironmentStep) {
    match step
    case SetClock(_) => true
    case Signal(event) => event.Stop? || event.Resume? || event.Nudge?
    case CaptureRepository(i) => i < |w.repositoryWorkers| && w.repositoryWorkers[i].config.None?
    case ReportRepository(i, _) => i < |w.repositoryWorkers| && w.repositoryWorkers[i].config.Some?
    case ReportInstall(_) => w.installWorkers > 0
    case ApplyPolicy(_) => !MutationLocked(w) && !PolicyBusy(w.state, w.clock)
  }

  function EnvironmentApply(w: World, step: EnvironmentStep): (r: World)
    requires EnvironmentEnabled(w, step)
    ensures r.past.raced == w.past.raced && r.past.overlapped == w.past.overlapped && r.past.strayed == w.past.strayed
    ensures r.past.reidentified == (w.past.reidentified && !step.ApplyPolicy?)
    ensures r.past.starts == w.past.starts && r.past.deeds == w.past.deeds && r.backups == w.backups && r.loop == w.loop
    ensures SameHold(w.state, r.state) && SamePrune(w.state, r.state)
    ensures w.past.clockWentBack ==> r.past.clockWentBack
    ensures r.past.clockWentBack || w.clock <= r.clock
    ensures KeepsOperation(w.state, r.state)
  {
    match step
    case SetClock(to) => w.(clock := to, past := w.past.(clockWentBack := w.past.clockWentBack || to < w.clock))
    case Signal(event) => Send(w, event)
    case CaptureRepository(i) =>
      w.(repositoryWorkers := w.repositoryWorkers[i := w.repositoryWorkers[i].(config := Some(w.config))])
    case ReportRepository(i, outcome) =>
      var worker := w.repositoryWorkers[i];
      Send(w.(repositoryWorkers := Remove(w.repositoryWorkers, i),
              past := w.past.(tested := Some(IdentityOf(worker.config.value)))),
           RepositoryFinished(worker.operation, outcome))
    case ReportInstall(installed) => Send(w.(installWorkers := w.installWorkers - 1), InstallFinished(installed))
    case ApplyPolicy(next) => Install(Checked(w), next, InstallManaged(w.state, next, w.clock))
  }

  predicate LoopEnabled(w: World, step: LoopStep) {
    match step
    case Receive => w.loop.Receiving? && w.queue != []
    case Timeout => w.loop.Receiving? && !w.stopping && w.queue == []
    case Handle(_, _) => w.loop.Handling? && w.queue != []
    case ReadConfiguration => w.loop.EvaluationDue?
    case EvaluateSchedule(_, _) => w.loop.Evaluating?
    case Exit => w.loop.Receiving? && w.stopping
  }

  function LoopApply(w: World, step: LoopStep): (r: World)
    requires LoopEnabled(w, step)
    ensures SameElsewhere(w, r) && SameDeeds(w, r)
    ensures SamePrune(w.state, r.state)
    ensures r.backups == w.backups || r.backups == w.backups + [Starting]
    ensures KeepsOperation(w.state, r.state)
  {
    match step
    case Receive => w.(loop := Handling(w.config))
    case Timeout => w.(loop := EvaluationDue)
    case Handle(spawned, saved) =>
      HandleEvent(w.(queue := w.queue[1..]), w.loop.snapshot, w.queue[0], spawned, saved)
    case ReadConfiguration => w.(loop := if w.activeBackup then Receiving else Evaluating(w.config))
    case EvaluateSchedule(conditions, spawned) => EvaluateIn(w, w.loop.snapshot, conditions, spawned)
    case Exit => w.(loop := Stopped)
  }

  predicate BackupEnabled(w: World, i: nat, step: BackupStep) {
    && i < |w.backups|
    && match step
       case CaptureConfiguration => w.backups[i].Starting?
       case ReportProgress => w.backups[i].BackingUp?
       case EndBackup(_) => w.backups[i].BackingUp?
       case PlanRetention => w.backups[i].RetentionDue?
       case Forget(_) => w.backups[i].Forgetting?
       case Prune(_) => w.backups[i].Pruning?
       case RecordRetention(_) => w.backups[i].Recording?
       case ReportBackup => w.backups[i].Reporting?
  }

  function BackupApply(w: World, i: nat, step: BackupStep): (r: World)
    requires BackupEnabled(w, i, step)
    ensures SameElsewhere(w, r) && r.clock == w.clock && r.loop == w.loop && r.past.raced == w.past.raced
    ensures r.past.starts == w.past.starts && r.past.ledger == w.past.ledger
    ensures SameHold(w.state, r.state) && (!step.RecordRetention? ==> SamePrune(w.state, r.state))
    ensures SameSchedule(w.state, r.state)
    ensures KeepsOperation(w.state, r.state)
  {
    match step
    case CaptureConfiguration => CaptureIn(w, i)
    case ReportProgress => w.(state := UpdateProgress(w.state))
    case EndBackup(kind) => EndIn(w, i, kind)
    case PlanRetention => PlanIn(w, i)
    case Forget(result) => ForgetIn(w, i, result)
    case Prune(result) => PruneIn(w, i, result)
    case RecordRetention(saved) => RecordIn(w, i, saved)
    case ReportBackup => Send(w.(backups := Remove(w.backups, i)), BackupFinished(w.backups[i].kind))
  }

  /** Requests that are refused leave the world as it is; the ones with their own guard are not taken at all. */
  predicate RequestEnabled(w: World, step: RequestStep) {
    match step
    case EditSchedule(_) => w.requests.Ready? && !EditRefused(w, true)
    case EditSources(_, _) => w.requests.Ready? && !EditRefused(w, false)
    case EditRepository(repository, connectionChanged) =>
      && w.requests.Ready? && !EditRefused(w, true)
      && (!connectionChanged ==> IdentityOf(w.config.(repository := repository)) == IdentityOf(w.config))
    case SetAutomaticInstall(_) => w.requests.Ready? && !Held(w.state, w.clock)
    case CheckRetention(_) => w.requests.Ready? && !EditRefused(w, true) && w.config.repository.mode == Standard
    case WriteRetention => w.requests.RetentionChecked?
    case BeginEnrollment => w.requests.Ready? && !ManagementRefused(w.state, w.clock)
    case CommitEnrollment(_) => w.requests.Enrolling?
    case EndEnrollment => w.requests.Enrolling? || w.requests.Enrolled?
    case CheckUnenrollment => w.requests.Ready? && !ManagementRefused(w.state, w.clock)
    case WriteUnenrolled(_) => w.requests.UnenrollChecked?
    case ApplyUnenrolled => w.requests.UnenrollWritten?
    case CheckRunNow(seen) => w.requests.Ready? && IsConfigured(seen) && AllowsBackup(w.state.repository)
    case RunBackupNow => w.requests.BackupChecked?
    case Defer(_, _) => w.requests.Ready?
    case RepositoryOperation(_, _, _) => w.requests.Ready?
    case HoldForUpdate(_) => w.requests.Ready?
    case InstallUpdate => w.requests.Ready?
  }

  function RequestApply(w: World, step: RequestStep): (r: World)
    requires RequestEnabled(w, step)
    ensures SameThreads(w, r)
    ensures step != ApplyUnenrolled ==> r.past.raced == w.past.raced
    ensures !step.HoldForUpdate? && !step.InstallUpdate? ==> SameHold(w.state, r.state)
    ensures SamePrune(w.state, r.state)
    ensures !step.RepositoryOperation? ==> KeepsOperation(w.state, r.state)
  {
    match step
    case CheckRunNow(_) => w.(requests := BackupChecked)
    case RunBackupNow => RunNowIn(w)
    case Defer(seen, minutes) => DeferIn(w, seen, minutes)
    case RepositoryOperation(seen, operation, saved) => RepositoryOperationIn(w, seen, operation, saved)
    case HoldForUpdate(seconds) => Hold(w, PrepareForUpdate(w.state, w.config, seconds, w.clock))
    case InstallUpdate => InstallUpdateIn(w)
    case SetAutomaticInstall(automatic) => w.(config := w.config.(automaticInstall := automatic))
    case EditSchedule(schedule) =>
      var next := w.config.(schedule := schedule);
      Install(w, next, InstallLocal(w.state, next, false, w.clock))
    case EditSources(paths, exclusions) =>
      var next := w.config.(paths := paths, exclusions := exclusions);
      Install(w, next, InstallLocal(w.state, next, false, w.clock))
    case EditRepository(repository, connectionChanged) =>
      var next := w.config.(repository := repository);
      Install(if connectionChanged then Checked(w) else w, next,
              InstallLocal(w.state, next, connectionChanged, w.clock))
    case CheckRetention(retention) => w.(requests := RetentionChecked(retention))
    case WriteRetention => Send(w.(config := w.config.(retention := w.requests.retention), requests := Ready), Nudge)
    case BeginEnrollment => w.(state := w.state.(managementActive := true), requests := Enrolling)
    case CommitEnrollment(next) =>
      Install(Checked(w.(requests := Enrolled)), next, InstallManaged(w.state, next, w.clock))
    case EndEnrollment => w.(state := w.state.(managementActive := false), requests := Ready)
    case CheckUnenrollment => w.(requests := UnenrollChecked)
    case WriteUnenrolled(next) =>
      w.(config := next, requests := UnenrollWritten,
         past := w.past.(reidentified := Misplaced(w.state, next)))
    case ApplyUnenrolled => ApplyUnenrolledIn(w)
  }

  predicate Enabled(w: World, step: Step) {
    match step
    case Environment(s) => EnvironmentEnabled(w, s)
    case Loop(s) => LoopEnabled(w, s)
    case Backup(i, s) => BackupEnabled(w, i, s)
    case Request(s) => RequestEnabled(w, s)
  }

  function Apply(w: World, step: Step): World
    requires Enabled(w, step)
  {
    match step
    case Environment(s) => EnvironmentApply(w, s)
    case Loop(s) => LoopApply(w, s)
    case Backup(i, s) => BackupApply(w, i, s)
    case Request(s) => RequestApply(w, s)
  }

  /** A whole run: every step enabled where it is taken. */
  function Run(w: World, steps: seq<Step>): Option<World> {
    if steps == [] then Some(w)
    else
      var last := |steps| - 1;
      match Run(w, steps[..last])
      case None => None
      case Some(before) => if Enabled(before, steps[last]) then Some(Apply(before, steps[last])) else None
  }

  lemma RunSnoc(w: World, steps: seq<Step>, step: Step)
    ensures Run(w, steps + [step]) ==
            match Run(w, steps)
            case None => None
            case Some(before) => if Enabled(before, step) then Some(Apply(before, step)) else None
  {
    assert (steps + [step])[..|steps|] == steps;
  }
}
