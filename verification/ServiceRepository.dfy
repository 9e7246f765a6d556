/** Every result of a repository operation is recorded, and a success vouches for the configuration in force. */
module ServiceRepository {
  import opened Common
  import opened Config
  import opened Outcomes
  import opened Schedule
  import opened Runtime
  import opened ServiceSystem
  import opened ServiceSafety
  import opened ServiceTheorems

  predicate ConcernsRepository(event: Event) {
    event.RepositoryRequested? || event.RepositoryFinished?
  }

  /** What is asked for, under way or reported is the operation the status shows as running. */
  predicate Matching(w: World) {
    && (forall e :: e in w.queue && ConcernsRepository(e) ==> w.state.repository == OperationRunning(e.operation))
    && (forall worker :: worker in w.repositoryWorkers ==> w.state.repository == OperationRunning(worker.operation))
  }

  lemma {:induction false} QueuedIsCounted(queue: seq<Event>, event: Event)
    requires event in queue
    ensures Count(queue, KindOf(event)) > 0
  {
    if queue[0] != event {
      assert event in queue[1..];
      QueuedIsCounted(queue[1..], event);
    }
  }

  lemma IdleIsMatching(w: World)
    requires Inv(w) && !w.state.repository.OperationRunning?
    ensures Matching(w)
  {
    forall e | e in w.queue
      ensures !ConcernsRepository(e)
    {
      QueuedIsCounted(w.queue, e);
    }
  }

  /** Steps that bring nothing new for the repository. */
  lemma OthersKeepMatching(w: World, next: World)
    requires Matching(w) && Inv(next) && KeepsOperation(w.state, next.state)
    requires forall e :: e in next.queue && ConcernsRepository(e) ==> e in w.queue
    requires forall worker :: worker in next.repositoryWorkers ==> worker in w.repositoryWorkers
    ensures Matching(next)
  {
    if !next.state.repository.OperationRunning? {
      IdleIsMatching(next);
    }
  }

  lemma EnvironmentKeepsMatching(w: World, step: EnvironmentStep)
    requires Inv(w) && Matching(w) && EnvironmentEnabled(w, step)
    ensures Matching(EnvironmentApply(w, step))
  {
    var next := EnvironmentApply(w, step);
    EnvironmentKeepsInv(w, step);
    if step.ReportRepository? || step.CaptureRepository? {
      assert w.repositoryWorkers[step.worker] in w.repositoryWorkers;
    } else {
      OthersKeepMatching(w, next);
    }
  }

  lemma HandleKeepsMatching(w: World, spawned: bool, saved: bool)
    requires Inv(w) && Matching(w) && w.loop.Handling?
    ensures Matching(LoopApply(w, Handle(spawned, saved)))
  {
    var next := LoopApply(w, Handle(spawned, saved));
    HandleKeepsInv(w, spawned, saved);
    assert w.queue[0] in w.queue;
    if next.repositoryWorkers != w.repositoryWorkers {
      assert next.state == w.state
             && next.repositoryWorkers == w.repositoryWorkers + [RepositoryWorker(w.queue[0].operation, None)];
    } else {
      OthersKeepMatching(w, next);
    }
  }

  lemma LoopKeepsMatching(w: World, step: LoopStep)
    requires Inv(w) && Matching(w) && LoopEnabled(w, step)
    ensures Matching(LoopApply(w, step))
  {
    LoopKeepsInv(w, step);
    match step
    case Handle(spawned, saved) => HandleKeepsMatching(w, spawned, saved);
    case EvaluateSchedule(conditions, spawned) =>
      OthersKeepMatching(w, EvaluateIn(w, w.loop.snapshot, conditions, spawned));
    case _ => OthersKeepMatching(w, LoopApply(w, step));
  }

  lemma BackupKeepsMatching(w: World, i: nat, step: BackupStep)
    requires Inv(w) && Matching(w) && BackupEnabled(w, i, step)
    ensures Matching(BackupApply(w, i, step))
  {
    BackupKeepsInv(w, i, step);
    OthersKeepMatching(w, BackupApply(w, i, step));
  }

  lemma AskingKeepsMatching(w: World, answer: (RuntimeState, bool), operation: OperationKind)
    requires Matching(w)
    requires if answer.1 then answer.0.repository == OperationRunning(operation)
             && !w.state.repository.OperationRunning?
             else KeepsOperation(w.state, answer.0)
    requires Inv(Answer(w, answer, RepositoryRequested(operation)))
    ensures Matching(Answer(w, answer, RepositoryRequested(operation)))
  {
    if !answer.1 {
      OthersKeepMatching(w, Answer(w, answer, RepositoryRequested(operation)));
    }
  }

  lemma PostsNothing(queue: seq<Event>, event: Event, next: seq<Event>)
    requires !ConcernsRepository(event) && (next == queue || next == queue + [event])
    ensures forall e :: e in next && ConcernsRepository(e) ==> e in queue
  {
  }

  lemma OtherRequestsPostNothing(w: World, step: RequestStep)
    requires RequestEnabled(w, step) && !step.RepositoryOperation?
    ensures forall e :: e in RequestApply(w, step).queue && ConcernsRepository(e) ==> e in w.queue
  {
    var next := RequestApply(w, step).queue;
    match step
    case RunBackupNow => PostsNothing(w.queue, RunNow, next);
    case InstallUpdate => PostsNothing(w.queue, InstallRequested, next);
    case _ => PostsNothing(w.queue, Nudge, next);
  }

  lemma RequestKeepsMatching(w: World, step: RequestStep)
    requires Inv(w) && Matching(w) && RequestEnabled(w, step)
    ensures Matching(RequestApply(w, step))
  {
    RequestKeepsInv(w, step);
    if step.RepositoryOperation? {
      RepositoryRequestMatches(w, step.seen, step.operation, step.saved);
    } else {
      OtherRequestsPostNothing(w, step);
      OthersKeepMatching(w, RequestApply(w, step));
    }
  }

  lemma RepositoryRequestMatches(w: World, seen: EffectiveConfig, operation: OperationKind, saved: bool)
    requires Matching(w) && Inv(RepositoryOperationIn(w, seen, operation, saved))
    ensures Matching(RepositoryOperationIn(w, seen, operation, saved))
  {
    var answer := BeginRepository(w.state, seen, operation, saved, w.loop != Stopped, w.clock);
    var flagged := w.(past := w.past.(reidentified := w.past.reidentified
                                                      && RepositoryRefused(w.state, seen, operation, w.clock)));
    AskingKeepsMatching(flagged, answer, operation);
  }

  lemma {:induction false} RunKeepsMatching(w: World, steps: seq<Step>)
    requires Inv(w) && Matching(w) && Run(w, steps).Some?
    ensures Matching(Run(w, steps).value)
  {
    if steps != [] {
      var last := |steps| - 1;
      RunKeepsMatching(w, steps[..last]);
      RunKeepsInv(w, steps[..last]);
      var before := Run(w, steps[..last]).value;
      match steps[last]
      case Environment(s) => EnvironmentKeepsMatching(before, s);
      case Loop(s) => LoopKeepsMatching(before, s);
      case Backup(i, s) => BackupKeepsMatching(before, i, s);
      case Request(s) => RequestKeepsMatching(before, s);
    }
  }

  lemma ReachableMatching(w: World)
    requires Reachable(w)
    ensures Matching(w)
  {
    var service, config, now, steps :| Run(Initial(service, config, now), steps) == Some(w);
    InitialInv(service, config, now);
    RunKeepsMatching(Initial(service, config, now), steps);
  }

  // ---------------------------------------------------------------- under which identity

  /** Every repository worker that has read the configuration, and the report of the last one, were under the identity
      the configuration still has. */
  predicate UnderCurrent(w: World) {
    && (forall worker :: worker in w.repositoryWorkers && worker.config.Some? ==>
          IdentityOf(worker.config.value) == IdentityOf(w.config))
    && (forall e :: e in w.queue && e.RepositoryFinished? ==> w.past.tested == Some(IdentityOf(w.config)))
  }

  /** Nothing can change the identity while an operation runs. */
  lemma RequestKeepsIdentity(w: World, step: RequestStep)
    requires Inv(w) && RequestEnabled(w, step) && w.state.repository.OperationRunning?
    ensures IdentityOf(RequestApply(w, step).config) == IdentityOf(w.config)
  {
    match step
    case RunBackupNow => assert RunNowIn(w).config == w.config;
    case Defer(seen, minutes) => assert DeferIn(w, seen, minutes).config == w.config;
    case RepositoryOperation(_, _, _) =>
    case InstallUpdate =>
    case EditSources(_, _) =>
    case WriteRetention =>
    case _ =>
  }

  lemma OthersKeepUnderCurrent(w: World, next: World)
    requires Inv(w) && Matching(w) && UnderCurrent(w)
    requires w.state.repository.OperationRunning? ==> IdentityOf(next.config) == IdentityOf(w.config)
    requires forall e :: e in next.queue && e.RepositoryFinished? ==> e in w.queue
    requires forall worker :: worker in next.repositoryWorkers && worker.config.Some? ==> worker in w.repositoryWorkers
    requires next.past.tested == w.past.tested
    ensures UnderCurrent(next)
  {
    if !w.state.repository.OperationRunning? {
      assert w.repositoryWorkers == [];
      forall e | e in w.queue
        ensures !ConcernsRepository(e)
      {
      }
    }
  }

  lemma EnvironmentKeepsUnderCurrent(w: World, step: EnvironmentStep)
    requires Inv(w) && Matching(w) && UnderCurrent(w) && EnvironmentEnabled(w, step)
    ensures UnderCurrent(EnvironmentApply(w, step))
  {
    var next := EnvironmentApply(w, step);
    match step
    case ReportRepository(i, outcome) =>
      assert w.repositoryWorkers[i] in w.repositoryWorkers;
      assert next.past.tested == Some(IdentityOf(w.config));
    case CaptureRepository(i) =>
    case _ => OthersKeepUnderCurrent(w, next);
  }

  lemma LoopKeepsUnderCurrent(w: World, step: LoopStep)
    requires Inv(w) && Matching(w) && UnderCurrent(w) && LoopEnabled(w, step)
    ensures UnderCurrent(LoopApply(w, step))
  {
    OthersKeepUnderCurrent(w, LoopApply(w, step));
  }

  lemma BackupKeepsUnderCurrent(w: World, i: nat, step: BackupStep)
    requires Inv(w) && Matching(w) && UnderCurrent(w) && BackupEnabled(w, i, step)
    ensures UnderCurrent(BackupApply(w, i, step))
  {
    OthersKeepUnderCurrent(w, BackupApply(w, i, step));
  }

  lemma RequestKeepsUnderCurrent(w: World, step: RequestStep)
    requires Inv(w) && Matching(w) && UnderCurrent(w) && RequestEnabled(w, step)
    ensures UnderCurrent(RequestApply(w, step))
  {
    if w.state.repository.OperationRunning? {
      RequestKeepsIdentity(w, step);
    }
    if !step.RepositoryOperation? {
      OtherRequestsPostNothing(w, step);
    }
    OthersKeepUnderCurrent(w, RequestApply(w, step));
  }

  lemma {:induction false} RunKeepsUnderCurrent(w: World, steps: seq<Step>)
    requires Inv(w) && Matching(w) && UnderCurrent(w) && Run(w, steps).Some?
    ensures UnderCurrent(Run(w, steps).value)
  {
    if steps != [] {
      var last := |steps| - 1;
      RunKeepsUnderCurrent(w, steps[..last]);
      RunKeepsMatching(w, steps[..last]);
      RunKeepsInv(w, steps[..last]);
      var before := Run(w, steps[..last]).value;
      match steps[last]
      case Environment(s) => EnvironmentKeepsUnderCurrent(before, s);
      case Loop(s) => LoopKeepsUnderCurrent(before, s);
      case Backup(i, s) => BackupKeepsUnderCurrent(before, i, s);
      case Request(s) => RequestKeepsUnderCurrent(before, s);
    }
  }

  lemma ReachableUnderCurrent(w: World)
    requires Reachable(w)
    ensures UnderCurrent(w)
  {
    var service, config, now, steps :| Run(Initial(service, config, now), steps) == Some(w);
    InitialInv(service, config, now);
    RunKeepsUnderCurrent(Initial(service, config, now), steps);
  }

  lemma FinishRecords(s: RuntimeState, config: EffectiveConfig, operation: OperationKind, outcome: ExecutionResult,
                      saved: bool, now: Time)
    requires s.repository == OperationRunning(operation)
    ensures
      var t, success := FinishRepository(s, config, operation, outcome, saved, now), outcome.ExecutionSucceeded?;
      && !t.repository.OperationRunning?
      && (AllowsBackup(t.repository) <==> success && saved)
      && (success ==> t.service.verified == Some(IdentityOf(config)) && !t.service.validationRequired)
      && (!success ==> t.service.verified == s.service.verified)
  {
    var recorded := RecordRepository(s, config, operation, outcome, saved, now);
    assert FinishRepository(s, config, operation, outcome, saved, now) ==
           ApplyConfigurationStatus(recorded, config, now);
  }

  lemma HandledResult(v: World, snapshot: EffectiveConfig, operation: OperationKind, outcome: ExecutionResult,
                      spawned: bool, saved: bool)
    ensures
      var next := HandleEvent(v, snapshot, RepositoryFinished(operation, outcome), spawned, saved);
      && next.state == FinishRepository(v.state, snapshot, operation, outcome, saved, v.clock)
      && !next.activeRepository
  {
  }

  /** How the runtime stands after the result at the head of the queue. */
  predicate RecordsResult(w: World, next: World, success: bool, saved: bool) {
    && !next.state.repository.OperationRunning? && !next.activeRepository
    && (AllowsBackup(next.state.repository) <==> success && saved)
    && (success ==> next.state.service.verified == Some(IdentityOf(next.config)) == w.past.tested)
    && (success ==> !next.state.service.validationRequired)
    && (!success ==> next.state.service.verified == w.state.service.verified)
  }

  /** In every run a reported result ends the operation the status shows, never a later one, and is never ignored; a
      saved success makes the repository usable and records exactly the identity the worker tested, which the
      configuration still has; a failure leaves it unusable. */
  lemma ResultsAreRecorded(w: World, spawned: bool, saved: bool)
    requires Reachable(w) && w.loop.Handling? && w.queue != [] && w.queue[0].RepositoryFinished?
    ensures RecordsResult(w, LoopApply(w, Handle(spawned, saved)), w.queue[0].outcome.ExecutionSucceeded?, saved)
  {
    ReachableInv(w);
    ReachableMatching(w);
    ReachableUnderCurrent(w);
    assert w.queue[0] in w.queue && ConcernsRepository(w.queue[0]);
    var event := w.queue[0];
    HandledResult(w.(queue := w.queue[1..]), w.loop.snapshot, event.operation, event.outcome, spawned, saved);
    ResultIsRecorded(w, event, saved, LoopApply(w, Handle(spawned, saved)));
  }

  lemma ResultIsRecorded(w: World, event: Event, saved: bool, next: World)
    requires w.loop.Handling? && event.RepositoryFinished? && w.state.repository == OperationRunning(event.operation)
    requires IdentityOf(w.loop.snapshot) == IdentityOf(w.config) && w.past.tested == Some(IdentityOf(w.config))
    requires next.state == FinishRepository(w.state, w.loop.snapshot, event.operation, event.outcome, saved, w.clock)
    requires next.config == w.config && !next.activeRepository
    ensures RecordsResult(w, next, event.outcome.ExecutionSucceeded?, saved)
  {
    FinishRecords(w.state, w.loop.snapshot, event.operation, event.outcome, saved, w.clock);
  }
}
