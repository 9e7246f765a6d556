/** What every run of the service keeps. */
module ServiceSafety {
  import opened Common
  import opened Config
  import opened Outcomes
  import opened Schedule
  import opened Runtime
  import opened RuntimeLaws
  import opened ServiceSystem

  // ---------------------------------------------------------------- counting events

  datatype Kind = BackupDone | RepositoryAsked | RepositoryDone | InstallAsked | InstallDone | Other

  function KindOf(event: Event): Kind {
    match event
    case BackupFinished(_) => BackupDone
    case RepositoryRequested(_) => RepositoryAsked
    case RepositoryFinished(_, _) => RepositoryDone
    case InstallRequested => InstallAsked
    case InstallFinished(_) => InstallDone
    case _ => Other
  }

  function One(condition: bool): nat {
    if condition then 1 else 0
  }

  function Count(queue: seq<Event>, kind: Kind): nat {
    if queue == [] then 0 else One(KindOf(queue[0]) == kind) + Count(queue[1..], kind)
  }

  lemma {:induction false} CountSnoc(queue: seq<Event>, event: Event, kind: Kind)
    ensures Count(queue + [event], kind) == Count(queue, kind) + One(KindOf(event) == kind)
  {
    if queue == [] {
      assert queue + [event] == [event];
    } else {
      CountSnoc(queue[1..], event, kind);
      assert (queue + [event])[1..] == queue[1..] + [event];
    }
  }

  /** How many of each thing are in flight. */
  datatype Tally = Tally(backups: nat, repositoryAsked: nat, repositoryDoing: nat, installAsked: nat, installDoing: nat)

  function TallyOf(queue: seq<Event>, backups: nat, repositories: nat, installs: nat): Tally {
    Tally(backups + Count(queue, BackupDone), Count(queue, RepositoryAsked),
          repositories + Count(queue, RepositoryDone), Count(queue, InstallAsked),
          installs + Count(queue, InstallDone))
  }

  function Add(t: Tally, event: Event): Tally {
    match KindOf(event)
    case BackupDone => t.(backups := t.backups + 1)
    case RepositoryAsked => t.(repositoryAsked := t.repositoryAsked + 1)
    case RepositoryDone => t.(repositoryDoing := t.repositoryDoing + 1)
    case InstallAsked => t.(installAsked := t.installAsked + 1)
    case InstallDone => t.(installDoing := t.installDoing + 1)
    case Other => t
  }

  lemma TallySnoc(queue: seq<Event>, event: Event, b: nat, r: nat, i: nat)
    ensures TallyOf(queue + [event], b, r, i) == Add(TallyOf(queue, b, r, i), event)
  {
    CountSnoc(queue, event, BackupDone);
    CountSnoc(queue, event, RepositoryAsked);
    CountSnoc(queue, event, RepositoryDone);
    CountSnoc(queue, event, InstallAsked);
    CountSnoc(queue, event, InstallDone);
  }

  lemma TallyHead(queue: seq<Event>, b: nat, r: nat, i: nat)
    requires queue != []
    ensures TallyOf(queue, b, r, i) == Add(TallyOf(queue[1..], b, r, i), queue[0])
  {
  }

  function InFlight(w: World): Tally {
    TallyOf(w.queue, |w.backups|, |w.repositoryWorkers|, w.installWorkers)
  }

  // ---------------------------------------------------------------- one worker at a time

  /** The request thread is between a check that no repository operation runs and the write it guards. */
  predicate Guarding(requests: RequestPoint) {
    requests.Enrolling? || requests.Enrolled? || requests.UnenrollChecked? || requests.UnenrollWritten?
  }

  predicate Accounted(t: Tally, backup: bool, repository: bool, operating: bool, installing: bool) {
    && t.backups == One(backup)
    && t.repositoryDoing == One(repository)
    && t.repositoryAsked + t.repositoryDoing <= One(operating)
    && t.installAsked + t.installDoing <= One(installing)
    && !(operating && installing)
    && !(backup && repository)
    && (t.installDoing > 0 ==> !backup && !repository)
  }

  predicate Exclusive(w: World) {
    && Accounted(InFlight(w), w.activeBackup, w.activeRepository, w.state.repository.OperationRunning?,
                 w.state.installActive)
    && (Guarding(w.requests) ==> !w.state.repository.OperationRunning?)
    && (w.loop.Evaluating? ==> !w.activeBackup)
    && (w.past.raced ==> w.activeBackup)
    && w.past.starts == w.past.finishes + One(w.activeBackup)
  }

  // ---------------------------------------------------------------- the invariant

  /** The result about to be recorded was obtained under the identity the configuration still has. */
  predicate SnapshotCurrent(w: World) {
    w.loop.Handling? ==>
      && w.queue != []
      && (w.queue[0].RepositoryFinished? ==> IdentityOf(w.loop.snapshot) == IdentityOf(w.config))
  }

  predicate HasConfig(worker: Worker) {
    worker.BackingUp? || worker.RetentionDue? || worker.Forgetting? || worker.Pruning?
  }

  /** A backup runs against the repository that was verified, exactly unless its worker strayed. */
  predicate CapturedVerified(w: World) {
    !w.past.raced ==>
      forall worker :: worker in w.backups && HasConfig(worker) ==>
        (VerifiedOrBlank(w.state.service, worker.config) <==> !w.past.strayed)
  }

  predicate Inv(w: World) {
    && Exclusive(w)
    && Sound(w.state, w.config, w.activeBackup, !w.past.raced, !w.past.reidentified)
    && (w.state.managementActive <==> w.requests.Enrolling? || w.requests.Enrolled?)
    && SnapshotCurrent(w)
    && CapturedVerified(w)
  }

  /** Nothing in flight moved; at most a wake-up was sent. */
  predicate SameWork(w: World, next: World) {
    && (next.queue == w.queue || next.queue == w.queue + [Nudge] || next.queue == w.queue + [RunNow])
    && next.loop == w.loop
    && next.backups == w.backups && next.repositoryWorkers == w.repositoryWorkers
    && next.installWorkers == w.installWorkers
    && next.activeBackup == w.activeBackup && next.activeRepository == w.activeRepository
    && next.past.starts == w.past.starts && next.past.finishes == w.past.finishes
    && next.state.repository.OperationRunning? == w.state.repository.OperationRunning?
    && next.state.installActive == w.state.installActive
  }

  lemma SameWorkTally(w: World, next: World)
    requires SameWork(w, next)
    ensures InFlight(next) == InFlight(w)
  {
    TallySnoc(w.queue, Nudge, |w.backups|, |w.repositoryWorkers|, w.installWorkers);
    TallySnoc(w.queue, RunNow, |w.backups|, |w.repositoryWorkers|, w.installWorkers);
  }

  /** Steps that only touch the state, the configuration and the request thread. */
  lemma SameWorkKeepsInv(w: World, next: World)
    requires Inv(w) && SameWork(w, next)
    requires Guarding(next.requests) ==> !w.state.repository.OperationRunning?
    requires next.state.managementActive <==> next.requests.Enrolling? || next.requests.Enrolled?
    requires (w.past.raced ==> next.past.raced) && (next.past.raced ==> next.activeBackup)
    requires next.past.strayed == w.past.strayed
    requires Sound(next.state, next.config, w.activeBackup, !next.past.raced, !next.past.reidentified)
    requires IdentityOf(next.config) == IdentityOf(w.config) || !w.state.repository.OperationRunning?
    requires SameVerified(w.state, next.state) || next.past.raced || !w.activeBackup
    ensures Inv(next)
  {
    SameWorkTally(w, next);
    if w.queue != [] {
      assert next.queue[0] == w.queue[0];
    }
    if !w.activeBackup {
      assert w.backups == [];
    }
  }

  // ---------------------------------------------------------------- requests

  lemma AnswerKeepsInv(w: World, answer: (RuntimeState, bool), event: Event)
    requires Inv(w) && w.requests.Ready? && (event.RunNow? || event.Nudge?)
    requires SameOperations(w.state, answer.0) && SameVerified(w.state, answer.0)
    requires Sound(answer.0, w.config, w.activeBackup, !w.past.raced, !w.past.reidentified)
    ensures Inv(Answer(w, answer, event))
  {
    SameWorkKeepsInv(w, Answer(w, answer, event));
  }

  lemma NoteKeepsInv(w: World, entry: Entry)
    requires Inv(w)
    ensures Inv(Note(w, entry))
  {
  }

  lemma RunNowKeepsInv(w: World)
    requires Inv(w) && w.requests.BackupChecked?
    ensures Inv(RunNowIn(w))
  {
    var ready := w.(requests := Ready);
    var answer := RequestBackup(w.state, w.loop != Stopped, w.clock);
    RequestPointKeepsInv(w, Ready);
    RequestBackupKeepsSound(w.state, w.loop != Stopped, w.clock, w.config, w.activeBackup, !w.past.raced,
                            !w.past.reidentified);
    AnswerKeepsInv(ready, answer, RunNow);
    NoteKeepsInv(Answer(ready, answer, RunNow), Cleared);
  }

  lemma DeferKeepsInv(w: World, seen: EffectiveConfig, minutes: nat)
    requires Inv(w) && w.requests.Ready?
    ensures Inv(DeferIn(w, seen, minutes))
  {
    var answer := DeferBackup(w.state, seen, minutes, w.clock);
    DeferBackupKeepsSound(w.state, seen, minutes, w.clock, w.config, w.activeBackup, !w.past.raced,
                          !w.past.reidentified);
    AnswerKeepsInv(w, answer, Nudge);
    NoteKeepsInv(Answer(w, answer, Nudge), Deferred(DeferredUntil(w.clock, minutes)));
  }

  lemma HoldKeepsInv(w: World, seconds: nat)
    requires Inv(w) && w.requests.Ready?
    ensures Inv(Hold(w, PrepareForUpdate(w.state, w.config, seconds, w.clock)))
  {
    PrepareKeepsSound(w.state, w.config, seconds, w.clock, w.activeBackup, !w.past.raced, !w.past.reidentified);
    SameWorkKeepsInv(w, Hold(w, PrepareForUpdate(w.state, w.config, seconds, w.clock)));
  }

  /** A request that may put an operation in flight, which it does only when none is. */
  lemma OperationAnswerKeepsInv(w: World, state: RuntimeState, accepted: bool, event: Event, past: Past, next: World)
    requires Inv(w) && w.requests.Ready?
    requires event.RepositoryRequested? || event.InstallRequested?
    requires !accepted ==> SameOperations(w.state, state)
    requires accepted ==>
      && !w.state.repository.OperationRunning? && !w.state.installActive
      && (state.repository.OperationRunning? <==> event.RepositoryRequested?)
      && (state.installActive <==> event.InstallRequested?)
    requires state.managementActive == w.state.managementActive
    requires past.starts == w.past.starts && past.finishes == w.past.finishes
    requires past.raced == w.past.raced && past.strayed == w.past.strayed
    requires Sound(state, w.config, w.activeBackup, !w.past.raced, !past.reidentified)
    requires SameVerified(w.state, state) || w.past.raced || !w.activeBackup
    requires next == w.(state := state, past := past, queue := if accepted then w.queue + [event] else w.queue)
    ensures Inv(next)
  {
    if accepted {
      TallySnoc(w.queue, event, |w.backups|, |w.repositoryWorkers|, w.installWorkers);
      if w.queue != [] {
        assert next.queue[0] == w.queue[0];
      }
      if !w.activeBackup {
        assert w.backups == [];
      }
    } else {
      SameWorkKeepsInv(w, next);
    }
  }

  lemma OperatingKeepsInv(w: World, seen: EffectiveConfig, operation: OperationKind, saved: bool)
    requires Inv(w) && w.requests.Ready?
    ensures Inv(RepositoryOperationIn(w, seen, operation, saved))
  {
    hide SameThreads, SameHold, SamePrune, SameSchedule, NothingRunningSaved, Accounted, CapturedVerified;
    var (state, accepted) := BeginRepository(w.state, seen, operation, saved, w.loop != Stopped, w.clock);
    BeginRepositoryKeepsSound(w.state, seen, operation, saved, w.loop != Stopped, w.clock, w.config, w.activeBackup,
                              !w.past.raced, !w.past.reidentified);
    var next := RepositoryOperationIn(w, seen, operation, saved);
    OperationAnswerKeepsInv(w, state, accepted, RepositoryRequested(operation), next.past, next);
  }

  lemma UpdatingKeepsInv(w: World)
    requires Inv(w) && w.requests.Ready?
    ensures Inv(InstallUpdateIn(w))
  {
    var (state, accepted) := BeginInstall(w.state, w.config, w.loop != Stopped, w.clock);
    BeginInstallKeepsSound(w.state, w.config, w.loop != Stopped, w.clock, w.activeBackup, !w.past.raced,
                           !w.past.reidentified);
    var next := InstallUpdateIn(w);
    OperationAnswerKeepsInv(w, state, accepted, InstallRequested, next.past, next);
  }

  /** Local edits of sources, schedule and repository. */
  lemma EditKeepsInv(w: World, next: EffectiveConfig, changed: bool)
    requires Inv(w) && w.requests.Ready? && !EditRefused(w, changed)
    requires !changed ==> IdentityOf(next) == IdentityOf(w.config)
    ensures Inv(Install(if changed then Checked(w) else w, next, InstallLocal(w.state, next, changed, w.clock)))
  {
    InstallLocalKeepsSound(w.state, w.config, next, changed, w.clock, w.activeBackup, !w.past.raced,
                           !w.past.reidentified);
    InstallKeepsInv(w, next, InstallLocal(w.state, next, changed, w.clock), changed,
                    Install(if changed then Checked(w) else w, next, InstallLocal(w.state, next, changed, w.clock)));
  }

  lemma InstallKeepsInv(w: World, config: EffectiveConfig, state: RuntimeState, checked: bool, next: World)
    requires Inv(w) && (w.past.raced || !w.state.state.Running?)
    requires SameOperations(w.state, state)
    requires Sound(state, config, w.activeBackup, !w.past.raced, !w.past.reidentified || checked)
    requires IdentityOf(config) == IdentityOf(w.config) || !w.state.repository.OperationRunning?
    requires next == Install(if checked then Checked(w) else w, config, state)
    ensures Inv(next)
  {
    var before := if checked then Checked(w) else w;
    var installed := before.(config := config, state := state, queue := w.queue + [Nudge]);
    SameWorkKeepsInv(w, installed);
    if !IsConfigured(config) {
      NoteKeepsInv(installed, Cleared);
    }
  }

  lemma ManagedKeepsInv(w: World, next: EffectiveConfig)
    requires Inv(w) && (w.past.raced || !w.state.state.Running?) && !w.state.repository.OperationRunning?
    ensures Inv(Install(Checked(w), next, InstallManaged(w.state, next, w.clock)))
  {
    InstallManagedKeepsSound(w.state, w.config, next, w.clock, w.activeBackup, !w.past.raced, !w.past.reidentified);
    InstallKeepsInv(w, next, InstallManaged(w.state, next, w.clock), true,
                    Install(Checked(w), next, InstallManaged(w.state, next, w.clock)));
  }

  lemma RequestPointKeepsInv(w: World, requests: RequestPoint)
    requires Inv(w) && (Guarding(requests) ==> !w.state.repository.OperationRunning?)
    requires requests.Enrolling? || requests.Enrolled? <==> w.requests.Enrolling? || w.requests.Enrolled?
    ensures Inv(w.(requests := requests))
  {
  }

  /** A backup can only be running beside an enrollment after an unenrollment raced one. */
  lemma EnrollmentKeepsInv(w: World, next: EffectiveConfig)
    requires Inv(w) && w.requests.Enrolling?
    ensures Inv(Install(Checked(w.(requests := Enrolled)), next, InstallManaged(w.state, next, w.clock)))
  {
    RequestPointKeepsInv(w, Enrolled);
    ManagedKeepsInv(w.(requests := Enrolled), next);
  }

  lemma ManagementFlagKeepsInv(w: World, active: bool)
    requires Inv(w) && RequestEnabled(w, if active then BeginEnrollment else EndEnrollment)
    ensures Inv(w.(state := w.state.(managementActive := active), requests := if active then Enrolling else Ready))
  {
    SameWorkKeepsInv(w,
                     w.(state := w.state.(managementActive := active),
                        requests := if active then Enrolling else Ready));
  }

  lemma WriteUnenrolledKeepsInv(w: World, next: EffectiveConfig)
    requires Inv(w) && w.requests.UnenrollChecked?
    ensures Inv(RequestApply(w, WriteUnenrolled(next)))
  {
    SameWorkKeepsInv(w, RequestApply(w, WriteUnenrolled(next)));
  }

  /** The status is replaced without a test of what runs, so the coupling survives when no backup started since
      the check. */
  lemma ApplyUnenrolledKeepsInv(w: World)
    requires Inv(w) && w.requests.UnenrollWritten?
    ensures Inv(ApplyUnenrolledIn(w))
  {
    var settled := w.(requests := Ready, past := w.past.(raced := w.past.raced || w.activeBackup));
    RacedKeepsInv(w);
    ApplyConfigurationKeepsSound(settled.state, settled.config, settled.clock, settled.activeBackup,
                                 !settled.past.raced, !settled.past.reidentified);
    InstallKeepsInv(settled, w.config, ApplyConfigurationStatus(w.state, w.config, w.clock), false,
                    ApplyUnenrolledIn(w));
  }

  lemma RacedKeepsInv(w: World)
    requires Inv(w) && w.requests.UnenrollWritten?
    ensures Inv(w.(requests := Ready, past := w.past.(raced := w.past.raced || w.activeBackup)))
  {
  }

  lemma RetentionKeepsInv(w: World, step: RequestStep)
    requires Inv(w) && RequestEnabled(w, step)
    requires step.CheckRetention? || step.WriteRetention? || step.SetAutomaticInstall?
    ensures Inv(RequestApply(w, step))
  {
    SameWorkKeepsInv(w, RequestApply(w, step));
  }

  lemma RequestKeepsInv(w: World, step: RequestStep)
    requires Inv(w) && RequestEnabled(w, step)
    ensures Inv(RequestApply(w, step))
  {
    hide Inv, RunNowIn, DeferIn, RepositoryOperationIn, InstallUpdateIn, ApplyUnenrolledIn, Hold, Install;
    hide InstallLocal, InstallManaged, PrepareForUpdate, SameThreads, SameHold, SamePrune, KeepsOperation;
    match step
    case CheckRunNow(_) => RequestPointKeepsInv(w, BackupChecked);
    case RunBackupNow => RunNowKeepsInv(w);
    case Defer(seen, minutes) => DeferKeepsInv(w, seen, minutes);
    case RepositoryOperation(seen, operation, saved) => OperatingKeepsInv(w, seen, operation, saved);
    case InstallUpdate => UpdatingKeepsInv(w);
    case HoldForUpdate(seconds) => HoldKeepsInv(w, seconds);
    case EditSchedule(schedule) => EditKeepsInv(w, w.config.(schedule := schedule), false);
    case EditSources(paths, exclusions) => EditKeepsInv(w, w.config.(paths := paths, exclusions := exclusions), false);
    case EditRepository(repository, changed) => EditKeepsInv(w, w.config.(repository := repository), changed);
    case CommitEnrollment(next) => EnrollmentKeepsInv(w, next);
    case BeginEnrollment => ManagementFlagKeepsInv(w, true);
    case EndEnrollment => ManagementFlagKeepsInv(w, false);
    case CheckUnenrollment => RequestPointKeepsInv(w, UnenrollChecked);
    case WriteUnenrolled(next) => WriteUnenrolledKeepsInv(w, next);
    case ApplyUnenrolled => ApplyUnenrolledKeepsInv(w);
    case CheckRetention(_) => RetentionKeepsInv(w, step);
    case WriteRetention => RetentionKeepsInv(w, step);
    case SetAutomaticInstall(_) => RetentionKeepsInv(w, step);
  }

  // ---------------------------------------------------------------- environment

  lemma SignalKeepsInv(w: World, event: Event)
    requires Inv(w) && KindOf(event).Other?
    ensures Inv(Send(w, event))
  {
    TallySnoc(w.queue, event, |w.backups|, |w.repositoryWorkers|, w.installWorkers);
    if w.queue != [] {
      assert Send(w, event).queue[0] == w.queue[0];
    }
  }

  /** Workers report by replacing themselves with an event. */
  lemma ReportKeepsInv(w: World, event: Event, gone: World)
    requires Inv(w) && InFlight(w) == Add(InFlight(gone), event)
    requires gone == w.(backups := gone.backups, repositoryWorkers := gone.repositoryWorkers,
                        installWorkers := gone.installWorkers)
    requires forall worker :: worker in gone.backups ==> worker in w.backups
    ensures Inv(Send(gone, event))
  {
    TallySnoc(gone.queue, event, |gone.backups|, |gone.repositoryWorkers|, gone.installWorkers);
    if w.queue != [] {
      assert Send(gone, event).queue[0] == w.queue[0];
    }
  }

  lemma ReportRepositoryKeepsInv(w: World, i: nat, outcome: ExecutionResult)
    requires Inv(w) && EnvironmentEnabled(w, ReportRepository(i, outcome))
    ensures Inv(EnvironmentApply(w, ReportRepository(i, outcome)))
  {
    var worker := w.repositoryWorkers[i];
    var event := RepositoryFinished(worker.operation, outcome);
    var gone := w.(repositoryWorkers := Remove(w.repositoryWorkers, i));
    ReportKeepsInv(w, event, gone);
    TestedKeepsInv(Send(gone, event), Some(IdentityOf(worker.config.value)));
  }

  lemma TestedKeepsInv(w: World, tested: Option<RepositoryIdentity>)
    requires Inv(w)
    ensures Inv(w.(past := w.past.(tested := tested)))
  {
  }

  lemma ReportInstallKeepsInv(w: World, installed: InstallOutcome)
    requires Inv(w) && w.installWorkers > 0
    ensures Inv(EnvironmentApply(w, ReportInstall(installed)))
  {
    ReportKeepsInv(w, InstallFinished(installed), w.(installWorkers := w.installWorkers - 1));
  }

  lemma CaptureRepositoryKeepsInv(w: World, i: nat)
    requires Inv(w) && EnvironmentEnabled(w, CaptureRepository(i))
    ensures Inv(EnvironmentApply(w, CaptureRepository(i)))
  {
    assert InFlight(EnvironmentApply(w, CaptureRepository(i))) == InFlight(w);
  }

  lemma SetClockKeepsInv(w: World, to: Time)
    requires Inv(w)
    ensures Inv(EnvironmentApply(w, SetClock(to)))
  {
  }

  lemma EnvironmentKeepsInv(w: World, step: EnvironmentStep)
    requires Inv(w) && EnvironmentEnabled(w, step)
    ensures Inv(EnvironmentApply(w, step))
  {
    match step
    case SetClock(to) => SetClockKeepsInv(w, to);
    case Signal(event) => SignalKeepsInv(w, event);
    case CaptureRepository(i) => CaptureRepositoryKeepsInv(w, i);
    case ReportRepository(i, outcome) => ReportRepositoryKeepsInv(w, i, outcome);
    case ReportInstall(installed) => ReportInstallKeepsInv(w, installed);
    case ApplyPolicy(next) => ManagedKeepsInv(w, next);
  }

  // ---------------------------------------------------------------- backup workers

  /** A worker moves on; whatever it does to the state, it does while a backup is active. */
  lemma WorkerKeepsInv(w: World, i: nat, worker: Worker, state: RuntimeState, past: Past)
    requires Inv(w) && i < |w.backups|
    requires WorkerState(w.state, state, w.config, !w.past.raced, !w.past.reidentified)
    requires past.starts == w.past.starts && past.finishes == w.past.finishes
    requires past.raced == w.past.raced && past.reidentified == w.past.reidentified
    requires HasConfig(worker) && !w.past.raced ==>
             (VerifiedOrBlank(w.state.service, worker.config) <==> !past.strayed)
    ensures Inv(w.(state := state, backups := w.backups[i := worker], past := past))
  {
    assert w.activeBackup && |w.backups| == 1;
  }

  lemma AdvanceKeepsInv(w: World, i: nat, worker: Worker, state: RuntimeState)
    requires Inv(w) && i < |w.backups|
    requires WorkerState(w.state, state, w.config, !w.past.raced, !w.past.reidentified)
    requires HasConfig(worker) && !w.past.raced ==>
             (VerifiedOrBlank(w.state.service, worker.config) <==> !w.past.strayed)
    ensures Inv(Advance(w, i, worker, state))
  {
    WorkerKeepsInv(w, i, worker, state, w.past);
  }

  lemma CapturedByWorker(w: World, i: nat)
    requires Inv(w) && i < |w.backups|
    ensures w.activeBackup && Sound(w.state, w.config, true, !w.past.raced, !w.past.reidentified)
    ensures HasConfig(w.backups[i]) && !w.past.raced ==>
              (VerifiedOrBlank(w.state.service, w.backups[i].config) <==> !w.past.strayed)
    ensures !w.past.raced ==> (VerifiedOrBlank(w.state.service, w.config) <==> !w.past.reidentified)
  {
    assert w.backups[i] in w.backups;
  }

  lemma PlanKeepsInv(w: World, i: nat)
    requires Inv(w) && BackupEnabled(w, i, PlanRetention)
    ensures Inv(PlanIn(w, i))
  {
    CapturedByWorker(w, i);
    WorkerKeepsSound(w.state, w.config, w.clock, RetentionCancelled, !w.past.raced, !w.past.reidentified);
    AdvanceKeepsInv(w, i, PlanIn(w, i).backups[i], BeginRetention(w.state, w.config, w.clock).0);
  }

  lemma ForgetKeepsInv(w: World, i: nat, result: ExecutionResult)
    requires Inv(w) && BackupEnabled(w, i, Forget(result))
    ensures Inv(ForgetIn(w, i, result))
  {
    hide Inv, SameHold, SamePrune, SameSchedule, KeepsOperation;
    CapturedByWorker(w, i);
    var next := ForgetIn(w, i, result);
    WorkerKeepsInv(w, i, next.backups[i], w.state, next.past);
  }

  lemma PruneKeepsInv(w: World, i: nat, result: ExecutionResult)
    requires Inv(w) && BackupEnabled(w, i, Prune(result))
    ensures Inv(PruneIn(w, i, result))
  {
    CapturedByWorker(w, i);
    var next := PruneIn(w, i, result);
    WorkerKeepsInv(w, i, next.backups[i], w.state, next.past);
  }

  lemma RecordKeepsInv(w: World, i: nat, saved: bool)
    requires Inv(w) && BackupEnabled(w, i, RecordRetention(saved))
    ensures Inv(RecordIn(w, i, saved))
  {
    CapturedByWorker(w, i);
    WorkerKeepsSound(w.state, w.config, w.clock, w.backups[i].result, !w.past.raced, !w.past.reidentified);
    var worker := w.backups[i];
    var warned := !worker.result.RetentionSucceeded? || !saved;
    AdvanceKeepsInv(w, i, Reporting(if warned then OutcomeKind.SucceededWithWarnings else worker.kind),
                    FinishRetention(w.state, worker.result, w.clock));
  }

  lemma BackupKeepsInv(w: World, i: nat, step: BackupStep)
    requires Inv(w) && BackupEnabled(w, i, step)
    ensures Inv(BackupApply(w, i, step))
  {
    hide Inv, Sound, PlanIn, ForgetIn, PruneIn, RecordIn, SameElsewhere, SameHold, SamePrune, SameSchedule;
    CapturedByWorker(w, i);
    match step
    case CaptureConfiguration =>
      WorkerKeepsInv(w, i, BackingUp(w.config), w.state, w.past.(strayed := w.past.reidentified));
    case ReportProgress =>
      WorkerKeepsSound(w.state, w.config, w.clock, RetentionCancelled, !w.past.raced, !w.past.reidentified);
      WorkerKeepsInv(w, i, w.backups[i], UpdateProgress(w.state), w.past);
      assert w.backups[i := w.backups[i]] == w.backups;
    case EndBackup(kind) =>
      var next := BackupApply(w, i, step);
      WorkerKeepsInv(w, i, next.backups[i], w.state, next.past);
    case ReportBackup =>
      ReportKeepsInv(w, BackupFinished(w.backups[i].kind), w.(backups := Remove(w.backups, i)));
    case PlanRetention => PlanKeepsInv(w, i);
    case Forget(result) => ForgetKeepsInv(w, i, result);
    case Prune(result) => PruneKeepsInv(w, i, result);
    case RecordRetention(saved) => RecordKeepsInv(w, i, saved);
  }

  // ---------------------------------------------------------------- the event loop

  lemma LoopPointKeepsInv(w: World, point: LoopPoint)
    requires Inv(w)
    requires point.Handling? ==> w.queue != [] && point.snapshot == w.config
    requires point.Evaluating? ==> !w.activeBackup
    ensures Inv(w.(loop := point))
  {
  }

  lemma EvaluateKeepsInv(w: World, snapshot: EffectiveConfig, conditions: Conditions, spawned: bool)
    requires Inv(w) && w.loop.Evaluating?
    ensures Inv(EvaluateIn(w, snapshot, conditions, spawned))
  {
    EvaluateKeepsSound(w.state, snapshot, w.clock, conditions, w.config, !w.past.raced, !w.past.reidentified);
    var (state, trigger) := Evaluate(w.state, snapshot, w.clock, conditions);
    if trigger.None? {
      SameWorkKeepsInv(w, w.(state := state));
      LoopPointKeepsInv(w.(state := state), Receiving);
    } else {
      StartKeepsInv(w, state, spawned);
    }
  }

  lemma StartKeepsInv(w: World, state: RuntimeState, spawned: bool)
    requires Inv(w) && w.loop.Evaluating?
    requires Sound(state, w.config, true, !w.past.raced, !w.past.reidentified)
    requires SameOperations(w.state, state) && SameVerified(w.state, state)
    requires AllowsBackup(w.state.repository) && !w.state.installActive && !w.state.managementActive
    ensures Inv(Started(w, state, spawned))
  {
    if !spawned {
      FinishBackupKeepsSound(state, w.config.schedule.intervalHours, OutcomeKind.Failed("executor_start_failed"),
                             w.clock, w.config, !w.past.raced, !w.past.reidentified);
    }
  }

  /** The invariant while the event at the head is being handled and no longer counts as queued. */
  predicate Popped(v: World, event: Event) {
    && Accounted(Add(InFlight(v), event), v.activeBackup, v.activeRepository, v.state.repository.OperationRunning?,
                 v.state.installActive)
    && (Guarding(v.requests) ==> !v.state.repository.OperationRunning?)
    && v.past.starts == v.past.finishes + One(v.activeBackup)
    && (v.past.raced ==> v.activeBackup)
    && Sound(v.state, v.config, v.activeBackup, !v.past.raced, !v.past.reidentified)
    && (v.state.managementActive <==> v.requests.Enrolling? || v.requests.Enrolled?)
    && CapturedVerified(v)
  }

  lemma PopHead(w: World)
    requires Inv(w) && w.loop.Handling?
    ensures Popped(w.(queue := w.queue[1..]), w.queue[0])
  {
    TallyHead(w.queue, |w.backups|, |w.repositoryWorkers|, w.installWorkers);
  }

  /** An event is settled when its outcome is accounted for again. */
  lemma SettleKeepsInv(v: World, event: Event, next: World)
    requires Popped(v, event)
    requires next.loop.Receiving? || next.loop.EvaluationDue?
    requires Accounted(InFlight(next), next.activeBackup, next.activeRepository,
                       next.state.repository.OperationRunning?, next.state.installActive)
    requires next.state.repository.OperationRunning? ==> v.state.repository.OperationRunning?
    requires next.past.starts == next.past.finishes + One(next.activeBackup)
    requires next.past.raced == v.past.raced || v.backups == []
    requires next.past.raced ==> next.activeBackup
    requires next.past.reidentified == v.past.reidentified && next.past.strayed == v.past.strayed
    requires Sound(next.state, v.config, next.activeBackup, !next.past.raced, !v.past.reidentified)
    requires next.config == v.config && next.requests == v.requests && next.backups == v.backups
    requires next.state.managementActive == v.state.managementActive
    requires SameVerified(v.state, next.state) || v.past.raced || v.backups == []
    ensures Inv(next)
  {
  }

  lemma HandleBackupFinished(v: World, snapshot: EffectiveConfig, kind: OutcomeKind, next: World)
    requires Popped(v, BackupFinished(kind))
    requires next == CloseBackup(v, snapshot.schedule.intervalHours, kind).(loop := Receiving)
    ensures Inv(next)
  {
    FinishBackupKeepsSound(v.state, snapshot.schedule.intervalHours, kind, v.clock, v.config, !v.past.raced,
                           !v.past.reidentified);
    SettleKeepsInv(v, BackupFinished(kind), next);
  }

  /** The result of an operation that is in flight, recorded by the loop. */
  lemma RecordedKeepsInv(v: World, event: Event, snapshot: EffectiveConfig, operation: OperationKind,
                         outcome: ExecutionResult, saved: bool, point: LoopPoint, next: World)
    requires Popped(v, event)
    requires event == RepositoryFinished(operation, outcome)
             || (event == RepositoryRequested(operation) && outcome.ExecutionFailed?)
    requires outcome.ExecutionSucceeded? ==> IdentityOf(snapshot) == IdentityOf(v.config)
    requires point.Receiving? || point.EvaluationDue?
    requires next == FinishRepositoryIn(v, snapshot, operation, outcome, saved).(
                       activeRepository := v.activeRepository && event.RepositoryRequested?, loop := point)
    ensures Inv(next)
  {
    FinishRepositoryKeepsSound(v.state, snapshot, operation, outcome, saved, v.clock, v.config, v.activeBackup,
                               !v.past.raced, !v.past.reidentified);
    RecordedStateKeepsInv(v, event, FinishRepository(v.state, snapshot, operation, outcome, saved, v.clock),
                          v.state.repository == OperationRunning(operation) && !IsConfigured(snapshot), point, next);
  }

  lemma RecordedStateKeepsInv(v: World, event: Event, state: RuntimeState, cleared: bool, point: LoopPoint, next: World)
    requires Popped(v, event) && (event.RepositoryFinished? || event.RepositoryRequested?)
    requires point.Receiving? || point.EvaluationDue?
    requires Sound(state, v.config, v.activeBackup, !v.past.raced, !v.past.reidentified)
    requires state.installActive == v.state.installActive && state.managementActive == v.state.managementActive
    requires next == Conclude(v, state, cleared).(
                       activeRepository := v.activeRepository && event.RepositoryRequested?, loop := point)
    ensures Inv(next)
  {
    SettleKeepsInv(v, event, next);
  }

  lemma HandleRepositoryRequested(v: World, snapshot: EffectiveConfig, operation: OperationKind, spawned: bool,
                                  saved: bool, next: World)
    requires Popped(v, RepositoryRequested(operation))
    requires next == HandleEvent(v, snapshot, RepositoryRequested(operation), spawned, saved)
    ensures Inv(next)
  {
    var event := RepositoryRequested(operation);
    if v.stopping || (!v.activeBackup && !v.activeRepository && spawned) {
      SettleKeepsInv(v, event, next);
    } else {
      var code :=
        if v.activeBackup || v.activeRepository then "repository_operation_conflict" else "executor_start_failed";
      RecordedKeepsInv(v, event, snapshot, operation, ExecutionFailed(code), saved, Receiving, next);
    }
  }

  lemma HandleInstall(v: World, event: Event, snapshot: EffectiveConfig, spawned: bool, saved: bool, next: World)
    requires Popped(v, event) && (event.InstallRequested? || event.InstallFinished?)
    requires next == HandleEvent(v, snapshot, event, spawned, saved)
    ensures Inv(next)
  {
    var outcome := if event.InstallFinished? then event.installed else InstallFailed;
    FinishInstallKeepsSound(v.state, outcome, v.clock, v.config, v.activeBackup, !v.past.raced, !v.past.reidentified);
    SettleKeepsInv(v, event, next);
  }

  lemma HandleRepositoryFinished(v: World, snapshot: EffectiveConfig, operation: OperationKind,
                                 outcome: ExecutionResult,
                                 spawned: bool, saved: bool, next: World)
    requires Popped(v, RepositoryFinished(operation, outcome)) && IdentityOf(snapshot) == IdentityOf(v.config)
    requires next == HandleEvent(v, snapshot, RepositoryFinished(operation, outcome), spawned, saved)
    ensures Inv(next)
  {
    hide FinishRepository, Inv, Popped;
    RecordedKeepsInv(v, RepositoryFinished(operation, outcome), snapshot, operation, outcome, saved,
                     ThenEvaluate(v).loop, next);
  }

  lemma HandleSignal(v: World, event: Event, snapshot: EffectiveConfig, spawned: bool, saved: bool, next: World)
    requires Popped(v, event) && KindOf(event).Other? && next == HandleEvent(v, snapshot, event, spawned, saved)
    ensures Inv(next)
  {
    hide Inv;
    SettleKeepsInv(v, event, next);
  }

  lemma HandlePopped(v: World, event: Event, snapshot: EffectiveConfig, spawned: bool, saved: bool, next: World)
    requires Popped(v, event) && (event.RepositoryFinished? ==> IdentityOf(snapshot) == IdentityOf(v.config))
    requires next == HandleEvent(v, snapshot, event, spawned, saved)
    ensures Inv(next)
  {
    hide Inv, Popped, FinishRepositoryIn, CloseBackup, SameElsewhere, SameDeeds, SamePrune, KeepsOperation;
    match event
    case BackupFinished(kind) => HandleBackupFinished(v, snapshot, kind, next);
    case RepositoryRequested(operation) => HandleRepositoryRequested(v, snapshot, operation, spawned, saved, next);
    case RepositoryFinished(operation, outcome) =>
      HandleRepositoryFinished(v, snapshot, operation, outcome, spawned, saved, next);
    case InstallRequested => HandleInstall(v, event, snapshot, spawned, saved, next);
    case InstallFinished(_) => HandleInstall(v, event, snapshot, spawned, saved, next);
    case _ => HandleSignal(v, event, snapshot, spawned, saved, next);
  }

  lemma HandleKeepsInv(w: World, spawned: bool, saved: bool)
    requires Inv(w) && w.loop.Handling?
    ensures Inv(LoopApply(w, Handle(spawned, saved)))
  {
    PopHead(w);
    HandlePopped(w.(queue := w.queue[1..]), w.queue[0], w.loop.snapshot, spawned, saved,
                 LoopApply(w, Handle(spawned, saved)));
  }

  lemma LoopKeepsInv(w: World, step: LoopStep)
    requires Inv(w) && LoopEnabled(w, step)
    ensures Inv(LoopApply(w, step))
  {
    match step
    case Handle(spawned, saved) => HandleKeepsInv(w, spawned, saved);
    case EvaluateSchedule(conditions, spawned) => EvaluateKeepsInv(w, w.loop.snapshot, conditions, spawned);
    case _ => LoopPointKeepsInv(w, LoopApply(w, step).loop);
  }

  // ---------------------------------------------------------------- every run

  lemma StepKeepsInv(w: World, step: Step)
    requires Inv(w) && Enabled(w, step)
    ensures Inv(Apply(w, step))
  {
    match step
    case Environment(s) => EnvironmentKeepsInv(w, s);
    case Loop(s) => LoopKeepsInv(w, s);
    case Backup(i, s) => BackupKeepsInv(w, i, s);
    case Request(s) => RequestKeepsInv(w, s);
  }

  lemma InitialInv(service: ServiceState, config: EffectiveConfig, now: Time)
    ensures Inv(Initial(service, config, now))
  {
  }

  lemma {:induction false} RunKeepsInv(w: World, steps: seq<Step>)
    requires Inv(w) && Run(w, steps).Some?
    ensures Inv(Run(w, steps).value)
  {
    if steps != [] {
      var last := |steps| - 1;
      RunKeepsInv(w, steps[..last]);
      StepKeepsInv(Run(w, steps[..last]).value, steps[last]);
    }
  }
}
