/** Mutual exclusion, the status and the verified repository, over whole runs. */
module ServiceTheorems {
  import opened Common
  import opened Config
  import opened Schedule
  import opened Runtime
  import opened RuntimeLaws
  import opened ServiceSystem
  import opened ServiceSafety

  /** A world some run from some start leads to. */
  ghost predicate Reachable(w: World) {
    exists service, config, now, steps :: Run(Initial(service, config, now), steps) == Some(w)
  }

  lemma ReachableInv(w: World)
    requires Reachable(w)
    ensures Inv(w)
  {
    var service, config, now, steps :| Run(Initial(service, config, now), steps) == Some(w);
    InitialInv(service, config, now);
    RunKeepsInv(Initial(service, config, now), steps);
  }

  /** At most one of backup worker, repository worker and install worker exists, in every interleaving. */
  lemma OneWorkerAtATime(w: World)
    requires Reachable(w)
    ensures |w.backups| + |w.repositoryWorkers| + w.installWorkers <= 1
    ensures w.installWorkers > 0 ==> w.state.installActive && !w.activeBackup && !w.activeRepository
    ensures |w.repositoryWorkers| > 0 ==> w.state.repository.OperationRunning? && !w.activeBackup
  {
    ReachableInv(w);
  }

  /** Every start is matched by one finish, or its worker or report is still on the way. */
  lemma StartsMatchFinishes(w: World)
    requires Reachable(w)
    ensures w.past.starts == w.past.finishes + |w.backups| + Count(w.queue, BackupDone)
    ensures w.activeBackup <==> w.past.starts > w.past.finishes
  {
    ReachableInv(w);
  }

  /** Except under a backup that an unenrollment raced, the status is Running exactly while a backup is active, and then
      it has no deadline, a validated repository, no install and no enrollment beside it. */
  lemma RunningMeansActive(w: World)
    requires Reachable(w) && !w.past.raced
    ensures Coupled(w.state, w.activeBackup)
  {
    ReachableInv(w);
  }

  /** A race lasts no longer than the backup it raced: without an active backup the coupling holds, and the event that
      ends the backup ends the race. */
  lemma RaceEndsWithItsBackup(w: World, spawned: bool, saved: bool)
    requires Reachable(w)
    ensures w.past.raced ==> w.activeBackup
    ensures !w.activeBackup ==> Coupled(w.state, false)
    ensures
      w.loop.Handling? && w.queue != [] && w.queue[0].BackupFinished? ==>
        var next := LoopApply(w, Handle(spawned, saved));
        !next.past.raced && !next.activeBackup && Coupled(next.state, false)
  {
    ReachableInv(w);
    if w.loop.Handling? && w.queue != [] && w.queue[0].BackupFinished? {
      HandleKeepsInv(w, spawned, saved);
    }
  }

  /** The one step that separates the two: unenrollment writes the status after a backup started. */
  lemma CouplingBreaksIff(w: World, step: Step)
    requires Reachable(w) && !w.past.raced && Enabled(w, step)
    ensures Coupled(Apply(w, step).state, Apply(w, step).activeBackup) <==>
            !(step == Request(ApplyUnenrolled) && w.activeBackup)
    ensures (Apply(w, step).activeBackup <==> Apply(w, step).state.state.Running?) <==>
            !(step == Request(ApplyUnenrolled) && w.activeBackup && !IsConfigured(w.config))
  {
    ReachableInv(w);
    if step == Request(ApplyUnenrolled) && w.activeBackup {
      RacedStatus(w);
    } else {
      StepKeepsInv(w, step);
      RacedOnlyByUnenrollment(w, step);
    }
  }

  lemma RacedStatus(w: World)
    requires Inv(w) && !w.past.raced && w.activeBackup
    ensures
      var next := ApplyUnenrolledIn(w);
      && !Coupled(next.state, next.activeBackup) && next.activeBackup
      && (next.state.state.Running? <==> IsConfigured(w.config))
  {
  }

  lemma RacedOnlyByUnenrollment(w: World, step: Step)
    requires Enabled(w, step) && !w.past.raced && !(step == Request(ApplyUnenrolled) && w.activeBackup)
    ensures !Apply(w, step).past.raced
  {
    if step == Request(ApplyUnenrolled) {
      assert Apply(w, step) == ApplyUnenrolledIn(w);
    }
  }

  // ---------------------------------------------------------------- verified repository

  /** In every run the repository counts as usable without being the verified one exactly from an unenrollment that
      left it behind until something asks for its validation. */
  lemma UnverifiedExactlySince(w: World)
    requires Reachable(w)
    ensures w.past.reidentified <==> Misplaced(w.state, w.config)
  {
    ReachableInv(w);
  }

  /** The steps that check, or ask for a check of, the configured repository. */
  predicate Revalidates(w: World, step: Step) {
    || (step.Environment? && step.environment.ApplyPolicy?)
    || (step.Request? && step.request.CommitEnrollment?)
    || (step.Request? && step.request.EditRepository? && step.request.connectionChanged)
    || (step.Request? && step.request.RepositoryOperation?
        && !RepositoryRefused(w.state, step.request.seen, step.request.operation, w.clock))
  }

  /** What every step does to that: only unenrollment's write can bring it about, exactly when it leaves another
      repository than the verified one, and only those steps, or such a write, end it. */
  lemma UnverifiedAfterStepIff(w: World, step: Step)
    requires Reachable(w) && Enabled(w, step)
    ensures Misplaced(Apply(w, step).state, Apply(w, step).config) <==>
            if step.Request? && step.request.WriteUnenrolled? then Misplaced(w.state, step.request.next)
            else Misplaced(w.state, w.config) && !Revalidates(w, step)
  {
    UnverifiedExactlySince(w);
    ReachableStep(w, step);
    UnverifiedExactlySince(Apply(w, step));
    FlagAfterStep(w, step);
  }

  lemma FlagAfterStep(w: World, step: Step)
    requires Enabled(w, step)
    ensures Apply(w, step).past.reidentified <==>
            if step.Request? && step.request.WriteUnenrolled? then Misplaced(w.state, step.request.next)
            else w.past.reidentified && !Revalidates(w, step)
  {
    hide InstallManaged, InstallLocal, ApplyConfigurationStatus, Misplaced, RepositoryRefused;
    match step {
      case Environment(s) => assert EnvironmentApply(w, s).past.reidentified ==
        (w.past.reidentified && !s.ApplyPolicy?);
      case Loop(s) => assert SameElsewhere(w, LoopApply(w, s));
      case Backup(i, s) => assert SameElsewhere(w, BackupApply(w, i, s));
      case Request(s) => RequestFlagAfterStep(w, s);
    }
  }

  lemma RequestFlagAfterStep(w: World, s: RequestStep)
    requires RequestEnabled(w, s)
    ensures RequestApply(w, s).past.reidentified <==>
            if s.WriteUnenrolled? then Misplaced(w.state, s.next)
            else w.past.reidentified && !Revalidates(w, Request(s))
  {
    hide InstallManaged, InstallLocal, ApplyConfigurationStatus, Misplaced, RepositoryRefused, PrepareForUpdate;
    hide SameThreads, SameHold, SamePrune, KeepsOperation, SameSchedule, SameCounters, IsConfigured;
    hide BeginInstall, BeginRepository, RequestBackup, DeferBackup, BackupRefused;
  }

  /** In every run a start finds the repository the last successful operation verified exactly when the configuration
      then still names one and no unenrollment has left another one unvalidated. */
  lemma StartsAreVerified(w: World, conditions: Conditions, spawned: bool)
    requires Reachable(w) && w.loop.Evaluating?
    requires EvaluateIn(w, w.loop.snapshot, conditions, spawned).past.starts > w.past.starts
    ensures w.config.repository.url.Some? && w.state.service.verified == Some(IdentityOf(w.config)) <==>
            w.config.repository.url.Some? && !w.past.reidentified
  {
    UnverifiedExactlySince(w);
    StartNeedsUsableRepository(w, conditions, spawned);
  }

  lemma StartNeedsUsableRepository(w: World, conditions: Conditions, spawned: bool)
    requires w.loop.Evaluating? && EvaluateIn(w, w.loop.snapshot, conditions, spawned).past.starts > w.past.starts
    ensures IsConfigured(w.loop.snapshot) && AllowsBackup(w.state.repository)
  {
    TriggerNeedsUsableRepository(w.state, w.loop.snapshot, w.clock, conditions);
  }

  lemma TriggerNeedsUsableRepository(s: RuntimeState, config: EffectiveConfig, now: Time, c: Conditions)
    ensures Evaluate(s, config, now, c).1.Some? ==> IsConfigured(config) && AllowsBackup(s.repository)
  {
  }

  /** In every run, except under a raced backup, the configuration a worker captured names no repository or the verified
      one, for as long as it works, exactly unless it was captured while an unenrollment had left another one. */
  lemma WorkersAreVerified(w: World, worker: Worker)
    requires Reachable(w) && !w.past.raced
    requires worker in w.backups && HasConfig(worker)
    ensures (worker.config.repository.url.Some? ==> w.state.service.verified == Some(IdentityOf(worker.config))) <==>
            !w.past.strayed
  {
    ReachableInv(w);
  }

  /** Unenrollment leaves a verified repository unverified exactly when the next configuration names another one. */
  lemma UnenrollmentStaysVerifiedIff(w: World, next: EffectiveConfig)
    requires Reachable(w) && !w.past.reidentified && w.requests.UnenrollChecked?
    requires AllowsBackup(w.state.repository) && w.config.repository.url.Some?
    ensures RequestApply(w, WriteUnenrolled(next)).past.reidentified <==>
            next.repository.url.Some? && IdentityOf(next) != IdentityOf(w.config)
  {
    ReachableInv(w);
  }

  // ---------------------------------------------------------------- the two unenrollment races

  /** The service restarts with a configuration that was verified and no recorded success, so a backup is due. */
  predicate DueAtStart(service: ServiceState, config: EffectiveConfig) {
    && IsConfigured(config) && !service.validationRequired && service.lastSuccess.None?
    && service.verified == Some(IdentityOf(config)) && service.verifiedAt.Some?
  }

  const CLEAR: Conditions := Conditions(false, true, false, false)

  lemma ReachableStep(w: World, step: Step)
    requires Reachable(w) && Enabled(w, step)
    ensures Reachable(Apply(w, step))
  {
    var service, config, now, steps :| Run(Initial(service, config, now), steps) == Some(w);
    RunSnoc(Initial(service, config, now), steps, step);
  }

  lemma ReachableInitial(service: ServiceState, config: EffectiveConfig, now: Time)
    ensures Reachable(Initial(service, config, now))
  {
    assert Run(Initial(service, config, now), []) == Some(Initial(service, config, now));
  }

  lemma DueEvaluationStarts(w: World, config: EffectiveConfig)
    requires w.loop == Evaluating(config) && IsConfigured(config) && AllowsBackup(w.state.repository)
    requires !Held(w.state, w.clock) && !w.state.managementActive && w.state.holdPrevious.None?
             && !w.state.state.Running?
    requires w.state.lastSuccess.None? && w.state.notBefore.None? && w.state.resumedAt.None?
    ensures
      var next := LoopApply(w, EvaluateSchedule(CLEAR, true));
      && next.activeBackup && next.state.state.Running? && next.past.starts == w.past.starts + 1
      && AllowsBackup(next.state.repository) && next.config == w.config && next.requests == w.requests
      && next.state.service == w.state.service && next.past.raced == w.past.raced
      && next.backups == w.backups + [Starting] && next.queue == w.queue && next.loop.Receiving?
      && next.stopping == w.stopping && next.clock == w.clock
      && !Held(next.state, w.clock) && !next.state.managementActive
  {
    var s := AfterHold(w.state, w.clock);
    assert Decide(config.schedule, SnapshotOf(s, w.clock, CLEAR)).Start?;
  }

  lemma BackupStartsAfterTheTest(service: ServiceState, config: EffectiveConfig, now: Time) returns (w: World)
    requires DueAtStart(service, config)
    ensures Reachable(w) && w.activeBackup && w.requests.UnenrollChecked?
    ensures w.state.state.Running? && AllowsBackup(w.state.repository)
    ensures w.backups == [Starting] && w.queue == [] && w.loop.Receiving? && !w.stopping
    ensures !Held(w.state, w.clock) && !w.state.managementActive && w.clock == now
  {
    hide Reachable, EvaluateIn;
    var w0 := Initial(service, config, now);
    ReachableInitial(service, config, now);
    ReachableStep(w0, Request(CheckUnenrollment));
    var w1 := w0.(requests := UnenrollChecked);
    ReachableStep(w1, Loop(ReadConfiguration));
    var w2 := w1.(loop := Evaluating(config));
    ReachableStep(w2, Loop(EvaluateSchedule(CLEAR, true)));
    DueEvaluationStarts(w2, config);
    w := LoopApply(w2, EvaluateSchedule(CLEAR, true));
  }

  lemma UnconfiguredIsShown(w: World)
    requires w.requests.UnenrollWritten? && !IsConfigured(w.config)
    ensures
      var next := RequestApply(w, ApplyUnenrolled);
      next.state.state == Unconfigured && next.activeBackup == w.activeBackup
  {
  }

  /** A backup that starts between unenrollment's test and its status write is shown as Unconfigured while it
      runs: for every verified configuration and every unconfigured successor. */
  lemma UnenrollmentRacesABackup(service: ServiceState, config: EffectiveConfig, next: EffectiveConfig, now: Time)
    returns (w: World)
    requires DueAtStart(service, config) && !IsConfigured(next)
    ensures Reachable(w) && w.activeBackup && w.state.state == Unconfigured
  {
    var started := BackupStartsAfterTheTest(service, config, now);
    ReachableStep(started, Request(WriteUnenrolled(next)));
    var written := RequestApply(started, WriteUnenrolled(next));
    ReachableStep(written, Request(ApplyUnenrolled));
    UnconfiguredIsShown(written);
    w := RequestApply(written, ApplyUnenrolled);
  }

  /** An unenrollment that leaves another repository behind starts a backup there without validation. */
  lemma UnenrollmentStartsUnverified(service: ServiceState, config: EffectiveConfig, next: EffectiveConfig, now: Time)
    returns (w: World)
    requires DueAtStart(service, config) && IsConfigured(next) && IdentityOf(next) != IdentityOf(config)
    ensures Reachable(w) && w.activeBackup && w.past.starts == 1 && w.config == next
    ensures w.state.service.verified != Some(IdentityOf(w.config))
  {
    hide Reachable, EvaluateIn;
    var w0 := Initial(service, config, now);
    ReachableInitial(service, config, now);
    ReachableStep(w0, Request(CheckUnenrollment));
    var w1 := w0.(requests := UnenrollChecked);
    ReachableStep(w1, Request(WriteUnenrolled(next)));
    var w2 := RequestApply(w1, WriteUnenrolled(next));
    ReachableStep(w2, Loop(ReadConfiguration));
    var w3 := w2.(loop := Evaluating(next));
    ReachableStep(w3, Loop(EvaluateSchedule(CLEAR, true)));
    DueEvaluationStarts(w3, next);
    w := LoopApply(w3, EvaluateSchedule(CLEAR, true));
  }

  /** A configured successor leaves the status Running but dates it: the deadline a running backup must not have. */
  lemma UnenrollmentDatesABackup(service: ServiceState, config: EffectiveConfig, next: EffectiveConfig, now: Time)
    returns (w: World)
    requires DueAtStart(service, config) && IsConfigured(next)
    ensures Reachable(w) && w.activeBackup && w.state.state.Running? && w.state.nextDeadline.Some?
  {
    var started := BackupStartsAfterTheTest(service, config, now);
    ReachableStep(started, Request(WriteUnenrolled(next)));
    var written := RequestApply(started, WriteUnenrolled(next));
    ReachableStep(written, Request(ApplyUnenrolled));
    w := RequestApply(written, ApplyUnenrolled);
    DatedIsShown(written);
  }

  lemma DatedIsShown(w: World)
    requires w.requests.UnenrollWritten? && IsConfigured(w.config) && AllowsBackup(w.state.repository)
    requires w.state.state.Running?
    ensures
      var next := RequestApply(w, ApplyUnenrolled);
      next.state.state.Running? && next.state.nextDeadline.Some? && next.activeBackup == w.activeBackup
  {
  }

  // ---------------------------------------------------------------- a start on an older configuration

  /** A policy that removes the repository between an evaluation's read and its decision does not stop the start: for
      every verified configuration and every successor without a repository. */
  lemma StaleStartFindsNoRepository(service: ServiceState, config: EffectiveConfig, next: EffectiveConfig, now: Time)
    returns (w: World)
    requires DueAtStart(service, config) && next.repository.url.None?
    ensures Reachable(w) && w.activeBackup && w.past.starts == 1 && w.config.repository.url.None?
  {
    hide Reachable, EvaluateIn;
    var w0 := Initial(service, config, now);
    ReachableInitial(service, config, now);
    ReachableStep(w0, Loop(ReadConfiguration));
    var w1 := w0.(loop := Evaluating(config));
    ReachableStep(w1, Environment(ApplyPolicy(next)));
    PolicyWithoutRepository(w1, next);
    var w2 := EnvironmentApply(w1, ApplyPolicy(next));
    ReachableStep(w2, Loop(EvaluateSchedule(CLEAR, true)));
    DueEvaluationStarts(w2, config);
    w := LoopApply(w2, EvaluateSchedule(CLEAR, true));
  }

  lemma PolicyWithoutRepository(w: World, next: EffectiveConfig)
    requires EnvironmentEnabled(w, ApplyPolicy(next)) && next.repository.url.None?
    ensures
      var r := EnvironmentApply(w, ApplyPolicy(next));
      && r.config == next && r.loop == w.loop && r.clock == w.clock && r.past.starts == w.past.starts
      && r.state.repository == w.state.repository && r.state.service == w.state.service
      && r.state.managementActive == w.state.managementActive && SameHold(w.state, r.state)
      && r.state.lastSuccess == w.state.lastSuccess && r.state.notBefore == None
      && r.state.resumedAt == w.state.resumedAt && !r.state.state.Running?
  {
  }
}
