/** The event loop and the backup worker as the code runs them (apps/resticpal-service/src/main.rs): the loop owns the
    two tokens and the stopping flag, both share the runtime object and the channel with the other threads and call the
    runtime's methods. Whatever the other threads do in between, what they do is a run of the service's steps. */
module EventLoop {
  import opened Common
  import opened Config
  import opened Outcomes
  import opened Schedule
  import opened Runtime
  import opened RuntimeObject
  import opened ServiceSystem
  import opened ServiceSafety
  import PolicySequence

  /** What the outside decides in one turn of the loop: what the other threads do first, whether a thread can be
      spawned and the state saved, the conditions on the device, and whether the drain's grace period has run out. */
  datatype Turn = Turn(others: seq<Step>, spawned: bool, saved: bool, conditions: Conditions, expired: bool)

  /** What the outside decides in one turn of a backup worker: what the other threads do first, whether restic reports
      progress, how its commands end, and whether the state can be saved. */
  datatype WorkerTurn = WorkerTurn(
    others: seq<Step>,
    progress: bool,
    kind: OutcomeKind,
    result: ExecutionResult,
    saved: bool)

  /** What a worker does from where it stands. */
  function NextStep(worker: Worker, turn: WorkerTurn): (step: BackupStep)
    ensures forall w: World :: w.backups != [] && w.backups[0] == worker ==> BackupEnabled(w, 0, step)
  {
    match worker
    case Starting => CaptureConfiguration
    case BackingUp(_) => if turn.progress then ReportProgress else EndBackup(turn.kind)
    case RetentionDue(_, _) => PlanRetention
    case Forgetting(_, _, _) => Forget(turn.result)
    case Pruning(_, _, _) => Prune(turn.result)
    case Recording(_, _) => RecordRetention(turn.saved)
    case Reporting(_) => ReportBackup
  }

  predicate OtherThread(step: Step) {
    !step.Loop?
  }

  predicate OnlyOthers(steps: seq<Step>) {
    forall i :: 0 <= i < |steps| ==> OtherThread(steps[i])
  }

  /** What only the event loop changes. */
  predicate SameLoop(w: World, next: World) {
    && next.loop == w.loop && next.stopping == w.stopping
    && next.activeBackup == w.activeBackup && next.activeRepository == w.activeRepository
  }

  lemma EnvironmentKeepsLoop(w: World, step: EnvironmentStep)
    requires EnvironmentEnabled(w, step)
    ensures SameLoop(w, EnvironmentApply(w, step))
  {
    hide InstallManaged;
  }

  lemma BackupKeepsLoop(w: World, i: nat, step: BackupStep)
    requires BackupEnabled(w, i, step)
    ensures SameLoop(w, BackupApply(w, i, step))
  {
    hide BeginRetention, FinishRetention, AfterForget, RetentionOf;
  }

  lemma OtherStepKeepsLoop(w: World, step: Step)
    requires Enabled(w, step) && OtherThread(step)
    ensures SameLoop(w, Apply(w, step))
  {
    hide EnvironmentApply, BackupApply, RequestApply;
    match step {
      case Environment(s) => EnvironmentKeepsLoop(w, s);
      case Backup(i, s) => BackupKeepsLoop(w, i, s);
      case Request(s) => assert SameThreads(w, RequestApply(w, s));
    }
  }

  lemma {:induction false} OthersKeepLoop(w: World, steps: seq<Step>)
    requires OnlyOthers(steps) && Run(w, steps).Some?
    ensures SameLoop(w, Run(w, steps).value)
  {
    if steps != [] {
      var last := |steps| - 1;
      assert OtherThread(steps[last]);
      OthersKeepLoop(w, steps[..last]);
      OtherStepKeepsLoop(Run(w, steps[..last]).value, steps[last]);
    }
  }

  lemma RunNone(w: World)
    ensures Run(w, []) == Some(w)
  {
  }

  lemma RunOne(w: World, step: Step)
    ensures Run(w, [step]) == if Enabled(w, step) then Some(Apply(w, step)) else None
  {
    hide Apply, Enabled;
    RunSnoc(w, [], step);
    assert [] + [step] == [step];
  }

  lemma {:induction false} RunConcat(w: World, xs: seq<Step>, ys: seq<Step>)
    ensures Run(w, xs + ys) == match Run(w, xs) case None => None case Some(between) => Run(between, ys)
  {
    hide Apply, Enabled;
    if ys == [] {
      assert xs + ys == xs;
    } else {
      RunConcat(w, xs, ys[..|ys| - 1]);
      assert (xs + ys)[..|xs + ys| - 1] == xs + ys[..|ys| - 1];
    }
  }

  class EventLoop {
    const runtime: ServiceRuntime
    var clock: Time
    var queue: seq<Event>
    var loop: LoopPoint
    var stopping: bool
    var activeBackup: bool
    var activeRepository: bool
    var requests: RequestPoint
    var backups: seq<Worker>
    var repositoryWorkers: seq<RepositoryWorker>
    var installWorkers: nat
    var past: Past

    function View(): World
      reads this, runtime
    {
      World(clock, runtime.config, runtime.state, queue, loop, stopping, activeBackup, activeRepository, requests,
            backups, repositoryWorkers, installWorkers, past)
    }

    constructor (service: ServiceState, config: EffectiveConfig, now: Time)
      ensures View() == Initial(service, config, now) && fresh(runtime)
    {
      runtime := new ServiceRuntime(service, config, now);
      clock, queue, loop, stopping := now, [], EvaluationDue, false;
      activeBackup, activeRepository := false, false;
      requests, backups, repositoryWorkers, installWorkers := Ready, [], [], 0;
      past := Past(0, 0, [], [], None, false, false, false, false, false);
    }

    // -------------------------------------------------------------- what the other threads do

    /** The other threads take these steps, as far as the shared state lets them take all of them. */
    method LetOthersRun(steps: seq<Step>) returns (ghost taken: seq<Step>)
      modifies this, runtime
      ensures Run(old(View()), taken) == Some(View())
      ensures SameLoop(old(View()), View())
    {
      var after := Run(View(), steps);
      if (forall i :: 0 <= i < |steps| ==> OtherThread(steps[i])) && after.Some? {
        OthersKeepLoop(View(), steps);
        Become(after.value);
        taken := steps;
      } else {
        taken := [];
      }
    }

    method Become(w: World)
      modifies this, runtime
      ensures View() == w
    {
      runtime.config, runtime.state := w.config, w.state;
      clock, queue, loop, stopping := w.clock, w.queue, w.loop, w.stopping;
      activeBackup, activeRepository := w.activeBackup, w.activeRepository;
      requests, backups := w.requests, w.backups;
      repositoryWorkers, installWorkers, past := w.repositoryWorkers, w.installWorkers, w.past;
    }

    /** The management thread applies a policy it resolved for the management source it expects, holding the mutation
        lock. Every refusal leaves the service as it was; an application is a step of the service. */
    method ApplyManagedPolicy(expected: string, source: string, resolved: Option<EffectiveConfig>)
      returns (outcome: PolicySequence.ApplyOutcome)
      requires !MutationLocked(View())
      modifies this, runtime
      ensures outcome.SourceChanged? <==> expected != source
      ensures outcome.Rejected? <==> expected == source && resolved.None?
      ensures outcome.RuntimeBusy? <==>
        expected == source && resolved.Some? && !Enabled(old(View()), Environment(ApplyPolicy(resolved.value)))
      ensures outcome.Applied? ==> View() == Apply(old(View()), Environment(ApplyPolicy(resolved.value)))
      ensures !outcome.Applied? ==> View() == old(View())
    {
      hide InstallManaged, PolicyBusy, IsConfigured;
      hide SameElsewhere, SameDeeds, SameHold, SamePrune, KeepsOperation;
      if expected != source {
        return PolicySequence.SourceChanged;
      }
      if resolved.None? {
        return PolicySequence.Rejected;
      }
      var applied := runtime.InstallManagedPolicy(resolved.value, clock);
      if !applied {
        return PolicySequence.RuntimeBusy;
      }
      queue := queue + [Nudge];
      past := past.(reidentified := false);
      if !IsConfigured(resolved.value) {
        past := past.(ledger := past.ledger + [Cleared]);
      }
      return PolicySequence.Applied;
    }

    // -------------------------------------------------------------- what the loop does

    method FinishBackup(intervalHours: nat, kind: OutcomeKind)
      modifies this`activeBackup, this`past, runtime`state
      ensures View() == CloseBackup(old(View()), intervalHours, kind)
    {
      runtime.FinishBackupAt(clock, intervalHours, kind);
      activeBackup := false;
      past := past.(finishes := past.finishes + 1, raced := false, ledger := past.ledger + [Finished(kind, clock)]);
    }

    method FinishRepositoryOperation(snapshot: EffectiveConfig, operation: OperationKind, outcome: ExecutionResult,
                                     saved: bool)
      modifies this, runtime
      ensures View() == FinishRepositoryIn(old(View()), snapshot, operation, outcome, saved)
    {
      hide FinishRepository, IsConfigured;
      hide SameElsewhere, SameDeeds, SameHold, SamePrune, KeepsOperation;
      if runtime.state.repository == OperationRunning(operation) && !IsConfigured(snapshot) {
        past := past.(ledger := past.ledger + [Cleared]);
      }
      runtime.FinishRepositoryOperation(snapshot, operation, outcome, saved, clock);
    }

    /** An event that leads to an evaluation, unless the loop only drains. */
    method EvaluateNext()
      modifies this`loop
      ensures View() == ThenEvaluate(old(View()))
      ensures !loop.Stopped?
    {
      loop := if stopping then Receiving else EvaluationDue;
    }

    method StartRepositoryWorker(snapshot: EffectiveConfig, operation: OperationKind, spawned: bool, saved: bool)
      modifies this, runtime
      ensures View() == HandleEvent(old(View()), snapshot, RepositoryRequested(operation), spawned, saved)
      ensures !loop.Stopped?
    {
      hide FinishRepositoryIn;
      hide SameElsewhere, SameDeeds, SameHold, SamePrune, KeepsOperation;
      if stopping {
        loop := Receiving;
        return;
      }
      if activeBackup || activeRepository {
        FinishRepositoryOperation(snapshot, operation, ExecutionFailed("repository_operation_conflict"), saved);
      } else if spawned {
        activeRepository := true;
        repositoryWorkers := repositoryWorkers + [RepositoryWorker(operation, None)];
      } else {
        FinishRepositoryOperation(snapshot, operation, ExecutionFailed("executor_start_failed"), saved);
      }
      loop := Receiving;
    }

    method StartUpdateWorker(snapshot: EffectiveConfig, spawned: bool, saved: bool)
      modifies this, runtime
      ensures View() == HandleEvent(old(View()), snapshot, InstallRequested, spawned, saved)
      ensures !loop.Stopped?
    {
      loop := Receiving;
      if stopping {
        return;
      }
      if activeBackup || activeRepository || !spawned {
        runtime.FinishUpdateInstall(InstallFailed, clock);
        return;
      }
      installWorkers := installWorkers + 1;
    }

    /** One event, received and dispatched. */
    method Dispatch(snapshot: EffectiveConfig, event: Event, spawned: bool, saved: bool)
      modifies this, runtime
      ensures View() == HandleEvent(old(View()), snapshot, event, spawned, saved)
      ensures !loop.Stopped?
    {
      hide FinishRepositoryIn, CloseBackup, FinishInstall;
      hide SameElsewhere, SameDeeds, SameHold, SamePrune, KeepsOperation;
      match event {
        case Stop =>
          stopping := true;
          loop := Receiving;
        case Resume =>
          if !stopping {
            runtime.RecordResume(clock);
          }
          EvaluateNext();
        case Nudge =>
          EvaluateNext();
        case RunNow =>
          EvaluateNext();
        case BackupFinished(kind) =>
          FinishBackup(snapshot.schedule.intervalHours, kind);
          loop := Receiving;
        case RepositoryRequested(operation) =>
          StartRepositoryWorker(snapshot, operation, spawned, saved);
        case RepositoryFinished(operation, outcome) =>
          FinishRepositoryOperation(snapshot, operation, outcome, saved);
          activeRepository := false;
          EvaluateNext();
        case InstallRequested =>
          StartUpdateWorker(snapshot, spawned, saved);
        case InstallFinished(outcome) =>
          if stopping {
            loop := Receiving;
          } else {
            runtime.FinishUpdateInstall(outcome, clock);
            EvaluateNext();
          }
      }
    }

    /** An evaluation under the configuration read for it, and the worker it may start. */
    method EvaluateAndMaybeStart(snapshot: EffectiveConfig, conditions: Conditions, spawned: bool)
      modifies this, runtime
      ensures View() == EvaluateIn(old(View()), snapshot, conditions, spawned)
      ensures loop.Receiving?
    {
      hide Evaluate, CloseBackup;
      hide SameElsewhere, SameDeeds, SameHold, SamePrune, KeepsOperation;
      var trigger := runtime.EvaluateSchedule(snapshot, clock, conditions);
      loop := Receiving;
      if trigger.None? {
        return;
      }
      past := past.(starts := past.starts + 1, ledger := past.ledger + [Cleared]);
      if spawned {
        activeBackup := true;
        backups := backups + [Starting];
      } else {
        FinishBackup(runtime.config.schedule.intervalHours, OutcomeKind.Failed("executor_start_failed"));
      }
    }

    /** Waiting on the channel: an event, the next deadline, or the end. A stopping loop leaves once neither token is
        set or its grace period is over; until then it waits. */
    method Await(expired: bool) returns (ghost taken: seq<Step>)
      requires loop.Receiving?
      modifies this`loop
      ensures Run(old(View()), taken) == Some(View())
      ensures loop.Stopped? ==> expired || (!activeBackup && !activeRepository)
    {
      if stopping && (expired || (!activeBackup && !activeRepository)) {
        RunOne(View(), Loop(Exit));
        loop := Stopped;
        taken := [Loop(Exit)];
      } else if queue != [] {
        RunOne(View(), Loop(Receive));
        loop := Handling(runtime.config);
        taken := [Loop(Receive)];
      } else if !stopping {
        RunOne(View(), Loop(Timeout));
        loop := EvaluationDue;
        taken := [Loop(Timeout)];
      } else {
        taken := [];
      }
    }

    method HandleNext(spawned: bool, saved: bool) returns (ghost taken: seq<Step>)
      requires loop.Handling? && queue != []
      modifies this, runtime
      ensures taken == [Loop(Handle(spawned, saved))] && Run(old(View()), taken) == Some(View())
      ensures !loop.Stopped?
    {
      hide HandleEvent, Run;
      hide SameElsewhere, SameDeeds, SameHold, SamePrune, KeepsOperation;
      taken := [Loop(Handle(spawned, saved))];
      RunOne(View(), taken[0]);
      var snapshot, event := loop.snapshot, queue[0];
      queue := queue[1..];
      Dispatch(snapshot, event, spawned, saved);
    }

    method EvaluateNow(turn: Turn) returns (ghost taken: seq<Step>)
      requires loop.EvaluationDue? || loop.Evaluating?
      modifies this, runtime
      ensures |taken| == 1 && taken[0].Loop? && Run(old(View()), taken) == Some(View())
      ensures !loop.Stopped?
    {
      hide EvaluateIn, Run;
      hide SameElsewhere, SameDeeds, SameHold, SamePrune, KeepsOperation;
      if loop.EvaluationDue? {
        taken := [Loop(ReadConfiguration)];
        RunOne(View(), taken[0]);
        loop := if activeBackup then Receiving else Evaluating(runtime.config);
      } else {
        taken := [Loop(ServiceSystem.EvaluateSchedule(turn.conditions, turn.spawned))];
        RunOne(View(), taken[0]);
        EvaluateAndMaybeStart(loop.snapshot, turn.conditions, turn.spawned);
      }
    }

    /** The loop's next action, if it has one. */
    method Act(turn: Turn) returns (ghost taken: seq<Step>)
      modifies this, runtime
      ensures Run(old(View()), taken) == Some(View())
      ensures loop.Stopped? && !old(loop).Stopped? ==> turn.expired || (!activeBackup && !activeRepository)
      ensures old(loop).Stopped? ==> View() == old(View())
    {
      hide Apply, Enabled;
      taken := [];
      match loop {
        case Receiving =>
          taken := Await(turn.expired);
        case Handling(_) =>
          if queue != [] {
            taken := HandleNext(turn.spawned, turn.saved);
          }
        case EvaluationDue =>
          taken := EvaluateNow(turn);
        case Evaluating(_) =>
          taken := EvaluateNow(turn);
        case Stopped =>
      }
    }

    /** The whole loop, whatever the other threads do between its actions, is a run of the service's steps; and a loop
        that left without running out of grace left no backup and no repository operation behind. */
    method RunEventLoop(turns: seq<Turn>) returns (ghost taken: seq<Step>)
      modifies this, runtime
      ensures Run(old(View()), taken) == Some(View())
      ensures Inv(old(View())) ==> Inv(View())
      ensures
        Inv(old(View())) && !old(loop).Stopped? && loop.Stopped? && (forall i :: 0 <= i < |turns| ==> !turns[i].expired)
        ==> backups == [] && repositoryWorkers == []
    {
      hide Apply, Enabled;
      taken := [];
      for i := 0 to |turns|
        invariant Run(old(View()), taken) == Some(View())
        invariant
          !old(loop).Stopped? && loop.Stopped? && (forall j :: 0 <= j < i ==> !turns[j].expired)
          ==> !activeBackup && !activeRepository
      {
        ghost var others := LetOthersRun(turns[i].others);
        RunConcat(old(View()), taken, others);
        taken := taken + others;
        ghost var own := Act(turns[i]);
        RunConcat(old(View()), taken, own);
        taken := taken + own;
      }
      if Inv(old(View())) {
        RunKeepsInv(old(View()), taken);
      }
    }

    // -------------------------------------------------------------- what a backup worker does

    /** All other threads, the loop among them, take these steps, as far as the shared state lets them take all. */
    method LetAllRun(steps: seq<Step>) returns (ghost taken: seq<Step>)
      modifies this, runtime
      ensures Run(old(View()), taken) == Some(View())
    {
      var after := Run(View(), steps);
      if after.Some? {
        Become(after.value);
        taken := steps;
      } else {
        taken := [];
      }
    }

    method ReadOwnConfiguration()
      requires backups != [] && backups[0].Starting?
      modifies this`backups, this`past
      ensures View() == BackupApply(old(View()), 0, CaptureConfiguration)
    {
      backups, past := backups[0 := BackingUp(runtime.config)], past.(strayed := past.reidentified);
    }

    /** restic reports progress, or ends. */
    method WatchRestic(progress: bool, kind: OutcomeKind)
      requires backups != [] && backups[0].BackingUp?
      modifies this`backups, this`past, runtime`state
      ensures View() == BackupApply(old(View()), 0, if progress then ReportProgress else EndBackup(kind))
    {
      hide UpdateProgress;
      if progress {
        runtime.ReportProgress();
        return;
      }
      past := past.(deeds := past.deeds + [DidBackup(kind)]);
      if IsSuccess(kind) {
        backups := backups[0 := RetentionDue(backups[0].config, kind)];
      } else {
        backups := backups[0 := Reporting(kind)];
      }
    }

    method SendReport()
      requires backups != [] && backups[0].Reporting?
      modifies this`backups, this`queue
      ensures View() == BackupApply(old(View()), 0, ReportBackup)
    {
      backups, queue := Remove(backups, 0), queue + [BackupFinished(backups[0].kind)];
    }

    method PlanRetentionPhase()
      requires backups != [] && backups[0].RetentionDue?
      modifies this`backups, runtime`state
      ensures View() == BackupApply(old(View()), 0, PlanRetention)
    {
      hide BeginRetention;
      var worker := backups[0];
      var plan := runtime.BeginRetentionPhase(clock);
      if plan.None? {
        backups := backups[0 := Reporting(worker.kind)];
      } else {
        var interval := runtime.config.retention.pruneIntervalDays;
        backups := backups[0 := Forgetting(worker.config, worker.kind, Plan(plan.value, clock, interval))];
      }
    }

    /** One restic command of the retention phase; an append-only repository never gets a forget. */
    method RunRetentionCommand(result: ExecutionResult)
      requires backups != [] && (backups[0].Forgetting? || backups[0].Pruning?)
      modifies this`backups, this`past
      ensures View() == BackupApply(old(View()), 0,
                                    if old(backups[0]).Forgetting? then Forget(result) else Prune(result))
    {
      hide RetentionOf;
      var worker := backups[0];
      var mode := worker.config.repository.mode;
      if worker.Pruning? {
        past := past.(deeds := past.deeds
                               + [DidPrune(result, mode, clock, runtime.state.service.lastPrune,
                                           worker.plan.intervalDays)]);
        backups := backups[0 := Recording(worker.kind, RetentionOf(result, RetentionSucceeded(true),
                                                                   "retention_prune_failed"))];
        return;
      }
      if mode != AppendOnly {
        past := past.(deeds := past.deeds + [DidForget(result, mode)]);
      }
      backups := backups[0 := AfterForget(worker, result)];
    }

    method RecordRetentionResult(saved: bool)
      requires backups != [] && backups[0].Recording?
      modifies this`backups, runtime`state
      ensures View() == BackupApply(old(View()), 0, RecordRetention(saved))
    {
      hide FinishRetention;
      var worker := backups[0];
      runtime.FinishRetentionPhase(worker.result, clock);
      var warned := !worker.result.RetentionSucceeded? || !saved;
      backups := backups[0 := Reporting(if warned then OutcomeKind.SucceededWithWarnings else worker.kind)];
    }

    /** The worker's next action: read the configuration, report progress, end the backup, plan, run and record
        retention, and report. */
    method Perform(turn: WorkerTurn)
      requires backups != []
      modifies this`backups, this`past, this`queue, runtime`state
      ensures View() == BackupApply(old(View()), 0, NextStep(old(backups[0]), turn))
    {
      hide BackupApply;
      match backups[0] {
        case Starting => ReadOwnConfiguration();
        case BackingUp(_) => WatchRestic(turn.progress, turn.kind);
        case RetentionDue(_, _) => PlanRetentionPhase();
        case Forgetting(_, _, _) => RunRetentionCommand(turn.result);
        case Pruning(_, _, _) => RunRetentionCommand(turn.result);
        case Recording(_, _) => RecordRetentionResult(turn.saved);
        case Reporting(_) => SendReport();
      }
    }

    /** One step of the service, if there is a worker. */
    method WorkerActs(turn: WorkerTurn) returns (ghost taken: seq<Step>)
      modifies this, runtime
      ensures |taken| <= 1 && Run(old(View()), taken) == Some(View())
    {
      hide Run, BackupApply;
      if backups == [] {
        RunNone(View());
        return [];
      }
      taken := [Backup(0, NextStep(backups[0], turn))];
      RunOne(View(), taken[0]);
      Perform(turn);
    }

    /** The whole life of a backup worker, with any steps of the loop and the other threads between its actions, is a
        run of the service's steps and so keeps their invariant. */
    method RunBackupWorker(turns: seq<WorkerTurn>) returns (ghost taken: seq<Step>)
      modifies this, runtime
      ensures Run(old(View()), taken) == Some(View())
      ensures Inv(old(View())) ==> Inv(View())
    {
      hide Apply, Enabled, Inv;
      taken := [];
      for i := 0 to |turns|
        invariant Run(old(View()), taken) == Some(View())
      {
        ghost var others := LetAllRun(turns[i].others);
        RunConcat(old(View()), taken, others);
        taken := taken + others;
        ghost var own := WorkerActs(turns[i]);
        RunConcat(old(View()), taken, own);
        taken := taken + own;
      }
      if Inv(old(View())) {
        RunKeepsInv(old(View()), taken);
      }
    }
  }
}
