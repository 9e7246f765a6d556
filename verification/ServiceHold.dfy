/** The update hold over whole runs: nothing starts under it, and leaving it restores what it replaced. */
module ServiceHold {
  import opened Common
  import opened Config
  import opened Outcomes
  import opened Schedule
  import opened Runtime
  import opened ServiceSystem
  import opened ServiceSafety
  import opened ServiceTheorems

  /** The last update hold did not begin beside a backup that an unenrollment had raced, and the clock never went
      back. */
  predicate Calm(w: World) {
    !w.past.overlapped && !w.past.clockWentBack
  }

  /** While an update holds the service it shows so, keeps what to restore, and nothing else is under way. */
  predicate Quiet(w: World) {
    Calm(w) && Held(w.state, w.clock) ==>
      && w.state.state == BackupState.Waiting(Update) && w.state.holdPrevious.Some?
      && !w.activeBackup && !w.state.repository.OperationRunning? && !Guarding(w.requests)
  }

  /** No step of any run starts a backup while an install is active or its hold is unexpired. */
  lemma NoStartWhileHeld(w: World, step: Step)
    requires Enabled(w, step) && Apply(w, step).past.starts > w.past.starts
    ensures step.Loop? && step.loop.EvaluateSchedule? && !Held(w.state, w.clock)
  {
    if step.Loop? && step.loop.EvaluateSchedule? {
      var (state, trigger) := Evaluate(w.state, w.loop.snapshot, w.clock, step.loop.conditions);
      assert trigger.Some?;
    }
  }

  // ---------------------------------------------------------------- quiet under a hold

  lemma EnvironmentKeepsQuiet(w: World, step: EnvironmentStep)
    requires Quiet(w) && EnvironmentEnabled(w, step)
    ensures Quiet(EnvironmentApply(w, step))
  {
  }

  lemma BackupKeepsQuiet(w: World, i: nat, step: BackupStep)
    requires Inv(w) && Quiet(w) && BackupEnabled(w, i, step)
    ensures Quiet(BackupApply(w, i, step))
  {
    CapturedByWorker(w, i);
  }

  /** A request that begins a hold is refused unless nothing runs, and then shows and saves. */
  predicate Begins(s: RuntimeState, answer: (RuntimeState, bool), now: Time) {
    var t := answer.0;
    if answer.1 then
      && t.state == BackupState.Waiting(Update) && t.holdPrevious.Some? && t.repository == s.repository
      && !s.state.Running? && !s.repository.OperationRunning?
    else t == s || !Held(t, now)
  }

  lemma UpdateRequestsBegin(s: RuntimeState, config: EffectiveConfig, seconds: nat, sent: bool, now: Time)
    ensures Begins(s, PrepareForUpdate(s, config, seconds, now), now)
    ensures Begins(s, BeginInstall(s, config, sent, now), now)
  {
  }

  lemma BeginningKeepsQuiet(w: World, answer: (RuntimeState, bool), event: Event)
    requires Inv(w) && Quiet(w) && w.requests.Ready? && Begins(w.state, answer, w.clock)
    ensures Quiet(Hold(w, answer)) && Quiet(Send(Hold(w, answer), event))
  {
    hide Accounted, SnapshotCurrent, CapturedVerified, SameThreads;
  }

  /** Whatever else is asked for leaves the hold alone, and under a hold almost everything is refused. */
  lemma HeldRequestKeepsQuiet(w: World, step: RequestStep)
    requires Quiet(w) && RequestEnabled(w, step) && !step.HoldForUpdate? && !step.InstallUpdate?
    requires Calm(w) && Held(w.state, w.clock)
    ensures Quiet(RequestApply(w, step))
  {
    match step
    case RunBackupNow =>
    case Defer(_, _) =>
    case RepositoryOperation(_, _, _) =>
    case _ =>
  }

  lemma RequestKeepsQuiet(w: World, step: RequestStep)
    requires Inv(w) && Quiet(w) && RequestEnabled(w, step)
    ensures Quiet(RequestApply(w, step))
  {
    if step.HoldForUpdate? {
      UpdateRequestsBegin(w.state, w.config, step.seconds, true, w.clock);
      BeginningKeepsQuiet(w, PrepareForUpdate(w.state, w.config, step.seconds, w.clock), Nudge);
    } else if step.InstallUpdate? {
      UpdateRequestsBegin(w.state, w.config, 0, w.loop != Stopped, w.clock);
      BeginningKeepsQuiet(w, BeginInstall(w.state, w.config, w.loop != Stopped, w.clock), InstallRequested);
    } else if Calm(w) && Held(w.state, w.clock) {
      HeldRequestKeepsQuiet(w, step);
    } else {
      StaysUnheld(w, step);
    }
  }

  lemma StaysUnheld(w: World, step: RequestStep)
    requires RequestEnabled(w, step) && !step.HoldForUpdate? && !step.InstallUpdate?
    requires !(Calm(w) && Held(w.state, w.clock))
    ensures !(Calm(RequestApply(w, step)) && Held(RequestApply(w, step).state, RequestApply(w, step).clock))
  {
    if step == ApplyUnenrolled {
      assert RequestApply(w, step) == ApplyUnenrolledIn(w);
    }
  }

  lemma EvaluateKeepsQuiet(w: World, snapshot: EffectiveConfig, conditions: Conditions, spawned: bool)
    requires Quiet(w)
    ensures Quiet(EvaluateIn(w, snapshot, conditions, spawned))
  {
    var (state, trigger) := Evaluate(w.state, snapshot, w.clock, conditions);
    if Held(w.state, w.clock) {
      assert trigger.None? && SameHold(w.state, state) && state.state == BackupState.Waiting(Update);
    } else {
      RescheduledIsUnheld(AfterHold(w.state, w.clock), snapshot, w.clock, conditions);
      StartedIsUnheld(w, state, spawned);
    }
  }

  lemma RescheduledIsUnheld(s: RuntimeState, config: EffectiveConfig, now: Time, c: Conditions)
    ensures SameHold(s, Reschedule(s, config, now, c).0)
  {
  }

  lemma StartedIsUnheld(w: World, state: RuntimeState, spawned: bool)
    requires !Held(state, w.clock)
    ensures !Held(Started(w, state, spawned).state, w.clock)
  {
  }

  lemma HandleKeepsQuiet(w: World, spawned: bool, saved: bool)
    requires Inv(w) && Quiet(w) && w.loop.Handling?
    ensures Quiet(LoopApply(w, Handle(spawned, saved)))
  {
    PopHead(w);
    HandlePoppedKeepsQuiet(w.(queue := w.queue[1..]), w.loop.snapshot, w.queue[0], spawned, saved,
                           LoopApply(w, Handle(spawned, saved)));
  }

  lemma HandlePoppedKeepsQuiet(v: World, snapshot: EffectiveConfig, event: Event, spawned: bool, saved: bool,
                               next: World)
    requires Popped(v, event) && Quiet(v) && next == HandleEvent(v, snapshot, event, spawned, saved)
    ensures Quiet(next)
  {
    if event.InstallRequested? || event.InstallFinished? {
      InstallEventKeepsQuiet(v, snapshot, event, spawned, saved, next);
    }
  }

  lemma InstallEventKeepsQuiet(v: World, snapshot: EffectiveConfig, event: Event, spawned: bool, saved: bool,
                               next: World)
    requires Popped(v, event) && Quiet(v) && next == HandleEvent(v, snapshot, event, spawned, saved)
    requires event.InstallRequested? || event.InstallFinished?
    ensures Quiet(next)
  {
  }

  lemma LoopKeepsQuiet(w: World, step: LoopStep)
    requires Inv(w) && Quiet(w) && LoopEnabled(w, step)
    ensures Quiet(LoopApply(w, step))
  {
    match step
    case Handle(spawned, saved) => HandleKeepsQuiet(w, spawned, saved);
    case EvaluateSchedule(conditions, spawned) => EvaluateKeepsQuiet(w, w.loop.snapshot, conditions, spawned);
    case _ =>
  }

  lemma StepKeepsQuiet(w: World, step: Step)
    requires Inv(w) && Quiet(w) && Enabled(w, step)
    ensures Quiet(Apply(w, step))
  {
    match step
    case Environment(s) => EnvironmentKeepsQuiet(w, s);
    case Loop(s) => LoopKeepsQuiet(w, s);
    case Backup(i, s) => BackupKeepsQuiet(w, i, s);
    case Request(s) => RequestKeepsQuiet(w, s);
  }

  lemma {:induction false} RunKeepsQuiet(w: World, steps: seq<Step>)
    requires Inv(w) && Quiet(w) && Run(w, steps).Some?
    ensures Quiet(Run(w, steps).value)
  {
    if steps != [] {
      var last := |steps| - 1;
      RunKeepsQuiet(w, steps[..last]);
      RunKeepsInv(w, steps[..last]);
      StepKeepsQuiet(Run(w, steps[..last]).value, steps[last]);
    }
  }

  /** In every calm run, an update that holds the service is alone: the status says so, the state to restore is
      kept, and no backup, repository operation or enrollment is under way. */
  lemma HoldIsQuiet(w: World)
    requires Reachable(w) && Calm(w) && Held(w.state, w.clock)
    ensures w.state.state == BackupState.Waiting(Update) && w.state.holdPrevious.Some?
    ensures w.backups == [] && w.repositoryWorkers == [] && !w.state.managementActive
  {
    var service, config, now, steps :| Run(Initial(service, config, now), steps) == Some(w);
    InitialInv(service, config, now);
    RunKeepsQuiet(Initial(service, config, now), steps);
    ReachableInv(w);
  }

  // ---------------------------------------------------------------- what a hold restores

  /** Held before and after a step: what will be restored did not change. */
  lemma HeldStepKeepsSaved(w: World, step: Step)
    requires Inv(w) && Quiet(w) && Enabled(w, step) && Calm(w)
    requires Held(w.state, w.clock) && Held(Apply(w, step).state, Apply(w, step).clock)
    ensures Apply(w, step).state.holdPrevious == w.state.holdPrevious
  {
    match step
    case Environment(s) =>
    case Loop(s) => HeldLoopKeepsSaved(w, s);
    case Backup(i, s) =>
    case Request(s) =>
  }

  lemma HeldLoopKeepsSaved(w: World, step: LoopStep)
    requires Inv(w) && Quiet(w) && LoopEnabled(w, step) && Calm(w)
    requires Held(w.state, w.clock) && Held(LoopApply(w, step).state, LoopApply(w, step).clock)
    ensures LoopApply(w, step).state.holdPrevious == w.state.holdPrevious
  {
  }

  /** Every world the run passes through is held and calm. */
  ghost predicate HeldThroughout(w: World, steps: seq<Step>)
    requires Run(w, steps).Some?
  {
    && Calm(Run(w, steps).value) && Held(Run(w, steps).value.state, Run(w, steps).value.clock)
    && (steps != [] ==> HeldThroughout(w, steps[..|steps| - 1]))
  }

  lemma {:induction false} HoldKeepsSaved(w: World, steps: seq<Step>)
    requires Inv(w) && Quiet(w) && Run(w, steps).Some? && HeldThroughout(w, steps)
    ensures Run(w, steps).value.state.holdPrevious == w.state.holdPrevious
  {
    if steps != [] {
      var last := |steps| - 1;
      HoldKeepsSaved(w, steps[..last]);
      RunKeepsInv(w, steps[..last]);
      RunKeepsQuiet(w, steps[..last]);
      HeldStepKeepsSaved(Run(w, steps[..last]).value, steps[last]);
    }
  }

  /** What an update request saves: the status it replaces, or what an earlier hold has not restored yet. */
  lemma HoldSaves(w: World, begin: RequestStep)
    requires RequestEnabled(w, begin) && (begin.HoldForUpdate? || begin.InstallUpdate?)
    requires !Held(w.state, w.clock) && Held(RequestApply(w, begin).state, w.clock)
    ensures RequestApply(w, begin).state.holdPrevious ==
            if w.state.holdPrevious.None? then Some((w.state.state, w.state.nextDeadline)) else w.state.holdPrevious
  {
    if begin.HoldForUpdate? {
      BeginSaves(w.state, begin.seconds, false, w.clock);
    } else {
      BeginSaves(w.state, MAX_UPDATE_HOLD_SECONDS, true, w.clock);
    }
  }

  lemma BeginSaves(s: RuntimeState, seconds: nat, install: bool, now: Time)
    ensures BeginHold(s, seconds, install, now).holdPrevious ==
            if s.holdPrevious.None? then Some((s.state, s.nextDeadline)) else s.holdPrevious
  {
  }

  /** The steps that give up what was saved: an evaluation without a hold in force, a failed install, and an install
      request that the stopped loop cannot take. */
  predicate LeavesHold(w: World, step: Step) {
    || (step.Loop? && step.loop.EvaluateSchedule? && !Held(w.state, w.clock))
    || (step.Loop? && step.loop.Handle? && w.queue != [] && !w.stopping
        && (w.queue[0] == InstallFinished(InstallFailed) || w.queue[0] == InstallRequested))
    || (step == Request(InstallUpdate) && w.loop == Stopped)
  }

  lemma HandleKeepsUnrestored(v: World, snapshot: EffectiveConfig, event: Event, spawned: bool, saved: bool)
    requires v.stopping || (event != InstallFinished(InstallFailed) && event != InstallRequested)
    ensures HandleEvent(v, snapshot, event, spawned, saved).state.holdPrevious == v.state.holdPrevious
  {
    match event
    case RepositoryRequested(operation) =>
    case RepositoryFinished(operation, outcome) =>
    case BackupFinished(kind) =>
    case InstallFinished(installed) =>
    case _ =>
  }

  lemma LoopKeepsUnrestored(w: World, step: LoopStep)
    requires LoopEnabled(w, step) && !LeavesHold(w, Loop(step))
    ensures LoopApply(w, step).state.holdPrevious == w.state.holdPrevious
  {
    match step
    case Handle(spawned, saved) =>
      HandleKeepsUnrestored(w.(queue := w.queue[1..]), w.loop.snapshot, w.queue[0], spawned, saved);
    case EvaluateSchedule(conditions, spawned) =>
      assert Evaluate(w.state, w.loop.snapshot, w.clock, conditions).1.None?;
    case _ =>
  }

  lemma StepKeepsUnrestored(w: World, step: Step)
    requires Enabled(w, step) && w.state.holdPrevious.Some? && !LeavesHold(w, step)
    ensures Apply(w, step).state.holdPrevious == w.state.holdPrevious
  {
    hide EnvironmentApply, LoopApply, BackupApply;
    match step
    case Environment(s) => assert SameHold(w.state, EnvironmentApply(w, s).state);
    case Loop(s) => LoopKeepsUnrestored(w, s);
    case Backup(i, s) => assert SameHold(w.state, BackupApply(w, i, s).state);
    case Request(s) =>
  }

  /** No step of the run gives up what was saved. */
  ghost predicate NeverLeft(w: World, steps: seq<Step>)
    requires Run(w, steps).Some?
  {
    steps != [] ==>
      var last := |steps| - 1;
      NeverLeft(w, steps[..last]) && !LeavesHold(Run(w, steps[..last]).value, steps[last])
  }

  lemma {:induction false} UnrestoredStays(w: World, steps: seq<Step>)
    requires Run(w, steps).Some? && w.state.holdPrevious.Some? && NeverLeft(w, steps)
    ensures Run(w, steps).value.state.holdPrevious == w.state.holdPrevious
  {
    if steps != [] {
      var last := |steps| - 1;
      UnrestoredStays(w, steps[..last]);
      StepKeepsUnrestored(Run(w, steps[..last]).value, steps[last]);
    }
  }

  /** From the first request of a hold, through any run in which holds expire, are renewed or follow each other without
      an evaluation in between: what finally comes back is the status of before the first request, not that of a later
      one. */
  lemma FirstHoldIsRestored(w: World, begin: RequestStep, steps: seq<Step>, config: EffectiveConfig, now: Time,
                            c: Conditions)
    requires w.state.holdPrevious.None?
    requires RequestEnabled(w, begin) && (begin.HoldForUpdate? || begin.InstallUpdate?)
    requires !Held(w.state, w.clock) && Held(RequestApply(w, begin).state, w.clock)
    requires Run(RequestApply(w, begin), steps).Some? && NeverLeft(RequestApply(w, begin), steps)
    ensures
      var s := Run(RequestApply(w, begin), steps).value.state;
      && s.holdPrevious == Some((w.state.state, w.state.nextDeadline))
      && (!Held(s, now) && s.state == BackupState.Waiting(Update) ==>
            Evaluate(s, config, now, c) ==
            Reschedule(s.(state := w.state.state, stateSince := now, nextDeadline := w.state.nextDeadline,
                          holdUntil := None, holdPrevious := None), config, now, c))
  {
    HoldSaves(w, begin);
    UnrestoredStays(RequestApply(w, begin), steps);
  }

  /** From the request that begins a hold, through any run that stays held: when the hold then expires, or the
      install fails, exactly the state and deadline of before the request come back before rescheduling. */
  lemma HoldRestores(w: World, begin: RequestStep, steps: seq<Step>, config: EffectiveConfig, now: Time, c: Conditions)
    requires Reachable(w) && w.state.holdPrevious.None?
    requires RequestEnabled(w, begin) && (begin.HoldForUpdate? || begin.InstallUpdate?)
    requires !Held(w.state, w.clock) && Held(RequestApply(w, begin).state, w.clock)
    requires Run(RequestApply(w, begin), steps).Some? && HeldThroughout(RequestApply(w, begin), steps)
    ensures
      var held := Run(RequestApply(w, begin), steps).value.state;
      && (!held.installActive && !HoldUnexpired(held, now) ==>
            Evaluate(held, config, now, c) ==
            Reschedule(held.(state := w.state.state, stateSince := now, nextDeadline := w.state.nextDeadline,
                             holdUntil := None, holdPrevious := None), config, now, c))
      && FinishInstall(held, InstallFailed, now) ==
           held.(state := w.state.state, stateSince := now, nextDeadline := w.state.nextDeadline,
                 installActive := false, holdUntil := None, holdPrevious := None)
  {
    HoldSaves(w, begin);
    ReachableStep(w, Request(begin));
    var w1 := RequestApply(w, begin);
    ReachableInv(w1);
    ReachableQuiet(w1);
    HoldKeepsSaved(w1, steps);
    RunKeepsQuiet(w1, steps);
  }

  lemma ReachableQuiet(w: World)
    requires Reachable(w)
    ensures Quiet(w)
  {
    var service, config, now, steps :| Run(Initial(service, config, now), steps) == Some(w);
    InitialInv(service, config, now);
    RunKeepsQuiet(Initial(service, config, now), steps);
  }

  // ---------------------------------------------------------------- a hold beside a raced backup

  /** Unenrollment has just written an unconfigured status over a backup whose worker has not begun. */
  predicate Overwritten(w: World) {
    && w.activeBackup && w.backups == [Starting] && w.queue == [Nudge] && w.loop.Receiving? && !w.stopping
    && w.requests.Ready? && w.state.state.Unconfigured? && !Held(w.state, w.clock) && !w.config.automaticInstall
    && !w.state.repository.OperationRunning? && !w.state.managementActive
    && w.clock + MIN_UPDATE_HOLD_SECONDS * SECOND <= MAX_TIME
  }

  lemma RacedIsOverwritten(service: ServiceState, config: EffectiveConfig, next: EffectiveConfig, now: Time)
    returns (w: World)
    requires DueAtStart(service, config) && !IsConfigured(next) && !next.automaticInstall
    requires now + MIN_UPDATE_HOLD_SECONDS * SECOND <= MAX_TIME
    ensures Reachable(w) && Overwritten(w)
  {
    hide Reachable;
    var started := BackupStartsAfterTheTest(service, config, now);
    ReachableStep(started, Request(WriteUnenrolled(next)));
    var written := RequestApply(started, WriteUnenrolled(next));
    ReachableStep(written, Request(ApplyUnenrolled));
    UnconfiguredIsShown(written);
    w := RequestApply(written, ApplyUnenrolled);
  }

  /** The hold is accepted, the worker is cancelled, and its report waits behind the wake-up. */
  lemma HeldAndReported(w: World) returns (next: World)
    requires Reachable(w) && Overwritten(w)
    ensures Reachable(next) && Held(next.state, next.clock) && next.past.overlapped
    ensures next.activeBackup && next.queue == [Nudge, BackupFinished(OutcomeKind.Cancelled)]
    ensures next.loop.Receiving? && !next.stopping
  {
    hide Reachable;
    ReachableStep(w, Request(HoldForUpdate(MIN_UPDATE_HOLD_SECONDS)));
    var held := RequestApply(w, HoldForUpdate(MIN_UPDATE_HOLD_SECONDS));
    assert Held(held.state, held.clock) && held.past.overlapped;
    ReachableStep(held, Backup(0, CaptureConfiguration));
    var captured := BackupApply(held, 0, CaptureConfiguration);
    ReachableStep(captured, Backup(0, EndBackup(OutcomeKind.Cancelled)));
    var ended := BackupApply(captured, 0, EndBackup(OutcomeKind.Cancelled));
    ReachableStep(ended, Backup(0, ReportBackup));
    next := BackupApply(ended, 0, ReportBackup);
  }

  /** Only a hold that began beside a raced backup loses its status: for every verified configuration and every
      unconfigured successor there is a run in which the end of that backup overwrites it. */
  lemma OverlappedHoldIsOverwritten(service: ServiceState, config: EffectiveConfig, next: EffectiveConfig, now: Time)
    returns (w: World)
    requires DueAtStart(service, config) && !IsConfigured(next) && !next.automaticInstall
    requires now + MIN_UPDATE_HOLD_SECONDS * SECOND <= MAX_TIME
    ensures Reachable(w) && !w.past.raced && !w.activeBackup
    ensures Held(w.state, w.clock) && w.state.state == BackupState.Cancelled
  {
    hide Reachable;
    var raced := RacedIsOverwritten(service, config, next, now);
    var w0 := HeldAndReported(raced);
    ReachableStep(w0, Loop(Receive));
    var w1 := LoopApply(w0, Receive);
    ReachableStep(w1, Loop(Handle(true, true)));
    var w2 := LoopApply(w1, Handle(true, true));
    ReachableStep(w2, Loop(ReadConfiguration));
    var w3 := LoopApply(w2, ReadConfiguration);
    ReachableStep(w3, Loop(Receive));
    var w4 := LoopApply(w3, Receive);
    ReachableStep(w4, Loop(Handle(true, true)));
    w := LoopApply(w4, Handle(true, true));
  }

  // ---------------------------------------------------------------- an indeterminate install

  /** The install is active and no request, worker or report is left that could end it. */
  predicate Frozen(w: World) {
    w.state.installActive && InFlight(w).installAsked + InFlight(w).installDoing == 0
  }

  lemma IndeterminateFreezes(w: World, spawned: bool, saved: bool)
    requires Inv(w) && w.loop.Handling? && !w.stopping && w.queue[0] == InstallFinished(InstallIndeterminate)
    ensures Frozen(LoopApply(w, Handle(spawned, saved)))
  {
    TallyHead(w.queue, |w.backups|, |w.repositoryWorkers|, w.installWorkers);
  }

  lemma EnvironmentKeepsFrozen(w: World, step: EnvironmentStep)
    requires Frozen(w) && EnvironmentEnabled(w, step)
    ensures Frozen(EnvironmentApply(w, step))
  {
    var next := EnvironmentApply(w, step);
    if next.queue != w.queue {
      var event := if step.Signal? then step.event
                   else if step.ReportRepository? then
                     RepositoryFinished(w.repositoryWorkers[step.worker].operation, step.outcome)
                   else Nudge;
      assert next.queue == w.queue + [event];
      TallySnoc(w.queue, event, |w.backups|, |w.repositoryWorkers|, w.installWorkers);
    }
  }

  lemma LoopKeepsFrozen(w: World, step: LoopStep)
    requires Inv(w) && Frozen(w) && LoopEnabled(w, step)
    ensures Frozen(LoopApply(w, step))
  {
    if step.Handle? {
      TallyHead(w.queue, |w.backups|, |w.repositoryWorkers|, w.installWorkers);
    }
  }

  /** Nothing was posted that could end the install. */
  lemma UnpostedKeepsFrozen(w: World, event: Event, next: World)
    requires Frozen(w) && KindOf(event) != InstallAsked && KindOf(event) != InstallDone
    requires next.queue == w.queue || next.queue == w.queue + [event]
    requires next.installWorkers == w.installWorkers && next.state.installActive == w.state.installActive
    ensures Frozen(next)
  {
    CountSnoc(w.queue, event, InstallAsked);
    CountSnoc(w.queue, event, InstallDone);
  }

  lemma BackupKeepsFrozen(w: World, i: nat, step: BackupStep)
    requires Frozen(w) && BackupEnabled(w, i, step)
    ensures Frozen(BackupApply(w, i, step))
  {
    var next := BackupApply(w, i, step);
    if step.ReportBackup? {
      UnpostedKeepsFrozen(w, BackupFinished(w.backups[i].kind), next);
    } else {
      UnpostedKeepsFrozen(w, Nudge, next);
    }
  }

  lemma RequestKeepsFrozen(w: World, step: RequestStep)
    requires Frozen(w) && RequestEnabled(w, step)
    ensures Frozen(RequestApply(w, step))
  {
    var next := RequestApply(w, step);
    assert Held(w.state, w.clock);
    match step
    case RunBackupNow => UnpostedKeepsFrozen(w, RunNow, next);
    case RepositoryOperation(_, operation, _) => UnpostedKeepsFrozen(w, RepositoryRequested(operation), next);
    case InstallUpdate => assert next == w.(state := w.state);
    case HoldForUpdate(_) => assert next == w.(state := w.state);
    case _ => UnpostedKeepsFrozen(w, Nudge, next);
  }

  lemma StepKeepsFrozen(w: World, step: Step)
    requires Inv(w) && Frozen(w) && Enabled(w, step)
    ensures Frozen(Apply(w, step)) && Apply(w, step).past.starts == w.past.starts
  {
    match step {
      case Environment(s) => EnvironmentKeepsFrozen(w, s);
      case Loop(s) => LoopKeepsFrozen(w, s);
      case Backup(i, s) => BackupKeepsFrozen(w, i, s);
      case Request(s) => RequestKeepsFrozen(w, s);
    }
    assert Held(w.state, w.clock);
    if Apply(w, step).past.starts > w.past.starts {
      NoStartWhileHeld(w, step);
    }
  }

  lemma {:induction false} FrozenForever(w: World, steps: seq<Step>)
    requires Inv(w) && Frozen(w) && Run(w, steps).Some?
    ensures Frozen(Run(w, steps).value) && Run(w, steps).value.past.starts == w.past.starts
  {
    if steps != [] {
      var last := |steps| - 1;
      FrozenForever(w, steps[..last]);
      RunKeepsInv(w, steps[..last]);
      StepKeepsFrozen(Run(w, steps[..last]).value, steps[last]);
    }
  }

  /** Once an install ends indeterminately, no run of this process ever starts a backup again. */
  lemma IndeterminateNeverStarts(w: World, spawned: bool, saved: bool, steps: seq<Step>)
    requires Reachable(w) && w.loop.Handling? && w.queue != [] && w.queue[0] == InstallFinished(InstallIndeterminate)
    requires !w.stopping && Run(LoopApply(w, Handle(spawned, saved)), steps).Some?
    ensures Run(LoopApply(w, Handle(spawned, saved)), steps).value.past.starts == w.past.starts
    ensures Run(LoopApply(w, Handle(spawned, saved)), steps).value.state.installActive
  {
    ReachableInv(w);
    IndeterminateFreezes(w, spawned, saved);
    HandleKeepsInv(w, spawned, saved);
    FrozenForever(LoopApply(w, Handle(spawned, saved)), steps);
  }
}
