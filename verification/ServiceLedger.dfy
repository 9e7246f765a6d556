/** When an unattended backup starts, told from the history of finishes alone. */
module ServiceLedger {
  import opened Common
  import opened Config
  import opened Outcomes
  import opened Schedule
  import opened Runtime
  import opened ServiceSystem
  import opened ServiceSafety
  import opened ServiceTheorems

  // ---------------------------------------------------------------- the backoff

  /** Five minutes after the first failure, doubling with each further one, up to 320 minutes. */
  lemma BackoffDoubles(failures: nat)
    ensures BackoffMinutes(0) == BackoffMinutes(1) == 5
    ensures failures >= 1 ==> BackoffMinutes(failures + 1) == Min(2 * BackoffMinutes(failures), 320)
    ensures 5 <= BackoffMinutes(failures) <= 320
  {
    assert Pow2(1) == 2 && Pow2(2) == 4 && Pow2(3) == 8 && Pow2(4) == 16 && Pow2(5) == 32 && Pow2(6) == 64;
  }

  // ---------------------------------------------------------------- the ledger

  /** Failures since the last success; cancellations count neither way. */
  function FailuresSince(ledger: seq<Entry>): nat {
    if ledger == [] then 0
    else
      var last := |ledger| - 1;
      match ledger[last]
      case Finished(kind, _) =>
        if IsSuccess(kind) then 0 else FailuresSince(ledger[..last]) + if kind.Failed? then 1 else 0
      case _ => FailuresSince(ledger[..last])
  }

  /** The backoff of the last unsuccessful finish, or the deferral, unless something ended it. */
  function EarliestStart(ledger: seq<Entry>): Option<Time> {
    if ledger == [] then None
    else
      match ledger[|ledger| - 1]
      case Finished(kind, at) =>
        if IsSuccess(kind) then None else Some(at + BackoffMinutes(FailuresSince(ledger)) * MINUTE)
      case Cleared => None
      case Deferred(until) => Some(until)
  }

  function LastSuccess(ledger: seq<Entry>, first: Option<Time>): Option<Time> {
    if ledger == [] then first
    else
      var last := |ledger| - 1;
      match ledger[last]
      case Finished(kind, at) => if IsSuccess(kind) then Some(at) else LastSuccess(ledger[..last], first)
      case _ => LastSuccess(ledger[..last], first)
  }

  /** A backoff of the saturated counter equals the backoff of the true count. */
  lemma SaturationIsHarmless(failures: nat)
    ensures BackoffMinutes(Min(failures, U32_MAX)) == BackoffMinutes(failures)
  {
  }

  /** The runtime's counters say what the ledger says. */
  predicate Agrees(s: RuntimeState, ledger: seq<Entry>, first: Option<Time>) {
    && s.consecutiveFailures == Min(FailuresSince(ledger), U32_MAX)
    && s.notBefore == EarliestStart(ledger)
    && s.lastSuccess == LastSuccess(ledger, first)
  }

  predicate Kept(w: World, first: Option<Time>) {
    Agrees(w.state, w.past.ledger, first)
  }

  // ---------------------------------------------------------------- every step

  /** What an entry says about the counters before and after it. */
  predicate Explains(entry: Entry, s: RuntimeState, t: RuntimeState) {
    match entry
    case Finished(kind, at) =>
      && t.consecutiveFailures == FailuresAfter(s.consecutiveFailures, kind)
      && t.lastSuccess == (if IsSuccess(kind) then Some(at) else s.lastSuccess)
      && t.notBefore == (if IsSuccess(kind) then None else Some(at + BackoffMinutes(t.consecutiveFailures) * MINUTE))
    case Cleared => SameCounters(s, t) && t.notBefore == None
    case Deferred(until) => SameCounters(s, t) && t.notBefore == Some(until)
  }

  /** Either nothing was entered and nothing moved, or one entry explains what did. */
  predicate Follows(w: World, next: World) {
    var l, m := w.past.ledger, next.past.ledger;
    || (m == l && SameSchedule(w.state, next.state))
    || (|m| == |l| + 1 && m == l + [m[|l|]] && Explains(m[|l|], w.state, next.state))
  }

  lemma EntryAgrees(s: RuntimeState, ledger: seq<Entry>, entry: Entry, t: RuntimeState, first: Option<Time>)
    requires Agrees(s, ledger, first) && Explains(entry, s, t)
    ensures Agrees(t, ledger + [entry], first)
  {
    assert (ledger + [entry])[..|ledger|] == ledger;
    SaturationIsHarmless(FailuresSince(ledger + [entry]));
  }

  lemma FollowsKept(w: World, next: World, first: Option<Time>)
    requires Kept(w, first) && Follows(w, next)
    ensures Kept(next, first)
  {
    var l, m := w.past.ledger, next.past.ledger;
    if m != l {
      EntryAgrees(w.state, l, m[|l|], next.state, first);
    }
  }

  lemma NoteFollows(w: World, state: RuntimeState, entry: Entry, next: World)
    requires next.state == state && next.past.ledger == w.past.ledger + [entry] && Explains(entry, w.state, state)
    ensures Follows(w, next)
  {
  }

  /** A configuration status: the earliest start goes exactly when the configuration does. */
  lemma InstallFollows(w: World, config: EffectiveConfig, state: RuntimeState)
    requires Configured(w.state, config, state)
    ensures Follows(w, Install(w, config, state))
  {
  }

  lemma AnswerFollows(w: World, answer: (RuntimeState, bool), event: Event)
    requires SameSchedule(w.state, answer.0)
    ensures Follows(w, Answer(w, answer, event))
  {
  }

  /** What a run-now or deferral request leaves is what its entry says. */
  lemma AskedFollows(w: World, answer: (RuntimeState, bool), event: Event, entry: Entry)
    requires Explains(entry, w.state, answer.0)
    ensures Follows(w, Note(Answer(w, answer, event), entry))
  {
    NoteFollows(w, answer.0, entry, Note(Answer(w, answer, event), entry));
  }

  lemma RunNowFollows(w: World)
    ensures Follows(w, RunNowIn(w))
  {
    var ready := w.(requests := Ready);
    var answer := RequestBackup(w.state, w.loop != Stopped, w.clock);
    if BackupRefused(w.state, w.clock) {
      AnswerFollows(ready, answer, RunNow);
    } else {
      AskedFollows(ready, answer, RunNow, Cleared);
    }
  }

  lemma DeferFollows(w: World, seen: EffectiveConfig, minutes: nat)
    ensures Follows(w, DeferIn(w, seen, minutes))
  {
    var answer := DeferBackup(w.state, seen, minutes, w.clock);
    if answer.1 {
      AskedFollows(w, answer, Nudge, Deferred(DeferredUntil(w.clock, minutes)));
    } else {
      AnswerFollows(w, answer, Nudge);
    }
  }

  lemma EditFollows(w: World, next: EffectiveConfig, changed: bool)
    ensures Follows(w, Install(if changed then Checked(w) else w, next, InstallLocal(w.state, next, changed, w.clock)))
  {
    InstallFollows(if changed then Checked(w) else w, next, InstallLocal(w.state, next, changed, w.clock));
  }

  lemma ManagedFollows(w: World, next: EffectiveConfig)
    ensures Follows(w, Install(Checked(w), next, InstallManaged(w.state, next, w.clock)))
  {
    InstallFollows(Checked(w), next, InstallManaged(w.state, next, w.clock));
  }

  lemma UnenrolledFollows(w: World)
    ensures Follows(w, ApplyUnenrolledIn(w))
  {
    InstallFollows(w, w.config, ApplyConfigurationStatus(w.state, w.config, w.clock));
  }

  lemma CommitFollows(w: World, next: EffectiveConfig)
    ensures Follows(w, Install(Checked(w.(requests := Enrolled)), next, InstallManaged(w.state, next, w.clock)))
  {
    hide InstallManaged;
    ManagedFollows(w.(requests := Enrolled), next);
  }

  lemma OperationFollows(w: World, seen: EffectiveConfig, operation: OperationKind, saved: bool)
    ensures Follows(w, RepositoryOperationIn(w, seen, operation, saved))
  {
    hide RepositoryOperationIn, Follows;
    NothingFollows(w, RepositoryOperationIn(w, seen, operation, saved));
  }

  lemma InstallUpdateFollows(w: World)
    ensures Follows(w, InstallUpdateIn(w))
  {
    hide InstallUpdateIn, Follows;
    NothingFollows(w, InstallUpdateIn(w));
  }

  lemma NothingFollows(w: World, next: World)
    requires next.past.ledger == w.past.ledger && SameSchedule(w.state, next.state)
    ensures Follows(w, next)
  {
  }

  lemma RequestFollows(w: World, step: RequestStep)
    requires RequestEnabled(w, step)
    ensures Follows(w, RequestApply(w, step))
  {
    hide Follows, RunNowIn, DeferIn, ApplyUnenrolledIn, InstallLocal, InstallManaged, Install;
    hide RepositoryOperationIn, InstallUpdateIn, SameThreads, SameElsewhere, SameHold, SamePrune, KeepsOperation;
    match step
    case RunBackupNow => RunNowFollows(w);
    case Defer(seen, minutes) => DeferFollows(w, seen, minutes);
    case EditSchedule(schedule) => EditFollows(w, w.config.(schedule := schedule), false);
    case EditSources(paths, exclusions) => EditFollows(w, w.config.(paths := paths, exclusions := exclusions), false);
    case EditRepository(repository, changed) => EditFollows(w, w.config.(repository := repository), changed);
    case CommitEnrollment(next) => CommitFollows(w, next);
    case ApplyUnenrolled => UnenrolledFollows(w);
    case RepositoryOperation(seen, operation, saved) => OperationFollows(w, seen, operation, saved);
    case InstallUpdate => InstallUpdateFollows(w);
    case _ => NothingFollows(w, RequestApply(w, step));
  }

  lemma EnvironmentFollows(w: World, step: EnvironmentStep)
    requires EnvironmentEnabled(w, step)
    ensures Follows(w, EnvironmentApply(w, step))
  {
    if step.ApplyPolicy? {
      ManagedFollows(w, step.next);
    }
  }

  lemma BackupFollows(w: World, i: nat, step: BackupStep)
    requires BackupEnabled(w, i, step)
    ensures Follows(w, BackupApply(w, i, step))
  {
  }

  lemma RepositoryFollows(w: World, snapshot: EffectiveConfig, operation: OperationKind, outcome: ExecutionResult,
                          saved: bool)
    ensures Follows(w, FinishRepositoryIn(w, snapshot, operation, outcome, saved))
  {
    var state := FinishRepository(w.state, snapshot, operation, outcome, saved, w.clock);
    RecordedFollows(w, state, snapshot, w.state.repository == OperationRunning(operation));
  }

  lemma RecordedFollows(w: World, state: RuntimeState, snapshot: EffectiveConfig, recorded: bool)
    requires if recorded then Configured(w.state, snapshot, state) else state == w.state
    ensures Follows(w, Conclude(w, state, recorded && !IsConfigured(snapshot)))
  {
  }

  lemma CloseFollows(w: World, hours: nat, kind: OutcomeKind)
    ensures Follows(w, CloseBackup(w, hours, kind))
  {
    NoteFollows(w, FinishBackup(w.state, hours, kind, w.clock), Finished(kind, w.clock), CloseBackup(w, hours, kind));
  }

  lemma RequestedFollows(w: World, snapshot: EffectiveConfig, operation: OperationKind, spawned: bool, saved: bool)
    ensures Follows(w, HandleEvent(w, snapshot, RepositoryRequested(operation), spawned, saved))
  {
    if w.activeBackup || w.activeRepository {
      RepositoryFollows(w, snapshot, operation, ExecutionFailed("repository_operation_conflict"), saved);
    } else {
      RepositoryFollows(w, snapshot, operation, ExecutionFailed("executor_start_failed"), saved);
    }
  }

  lemma HandleFollows(w: World, snapshot: EffectiveConfig, event: Event, spawned: bool, saved: bool)
    ensures Follows(w, HandleEvent(w, snapshot, event, spawned, saved))
  {
    hide FinishRepositoryIn, CloseBackup;
    match event
    case BackupFinished(kind) => CloseFollows(w, snapshot.schedule.intervalHours, kind);
    case RepositoryRequested(operation) => RequestedFollows(w, snapshot, operation, spawned, saved);
    case RepositoryFinished(operation, outcome) => RepositoryFollows(w, snapshot, operation, outcome, saved);
    case _ =>
  }

  lemma ReschedulingMovesOnlyAtStart(s: RuntimeState, config: EffectiveConfig, now: Time, c: Conditions)
    ensures
      var (t, trigger) := Reschedule(s, config, now, c);
      SameCounters(s, t) && t.notBefore == if trigger.None? then s.notBefore else None
  {
  }

  lemma EvaluationMovesOnlyAtStart(s: RuntimeState, config: EffectiveConfig, now: Time, c: Conditions)
    ensures
      var (t, trigger) := Evaluate(s, config, now, c);
      SameCounters(s, t) && t.notBefore == if trigger.None? then s.notBefore else None
  {
    ReschedulingMovesOnlyAtStart(AfterHold(s, now), config, now, c);
  }

  lemma EvaluateKept(w: World, snapshot: EffectiveConfig, conditions: Conditions, spawned: bool, first: Option<Time>)
    requires Kept(w, first)
    ensures Kept(EvaluateIn(w, snapshot, conditions, spawned), first)
  {
    EvaluationMovesOnlyAtStart(w.state, snapshot, w.clock, conditions);
    var (state, trigger) := Evaluate(w.state, snapshot, w.clock, conditions);
    if trigger.None? {
      FollowsKept(w, w.(state := state, loop := Receiving), first);
    } else {
      StartKept(w, state, spawned, first);
    }
  }

  lemma StartKept(w: World, state: RuntimeState, spawned: bool, first: Option<Time>)
    requires Kept(w, first) && SameCounters(w.state, state) && state.notBefore == None
    ensures Kept(Started(w, state, spawned), first)
  {
    var ledger := w.past.ledger + [Cleared];
    EntryAgrees(w.state, w.past.ledger, Cleared, state, first);
    if !spawned {
      var kind := OutcomeKind.Failed("executor_start_failed");
      var finished := FinishBackup(state, w.config.schedule.intervalHours, kind, w.clock);
      FinishExplained(state, w.config.schedule.intervalHours, kind, w.clock);
      EntryAgrees(state, ledger, Finished(kind, w.clock), finished, first);
      StartedUnspawned(w, state);
    }
  }

  lemma FinishExplained(s: RuntimeState, hours: nat, kind: OutcomeKind, now: Time)
    ensures Explains(Finished(kind, now), s, FinishBackup(s, hours, kind, now))
  {
  }

  lemma StartedUnspawned(w: World, state: RuntimeState)
    ensures
      var kind, r := OutcomeKind.Failed("executor_start_failed"), Started(w, state, false);
      && r.state == FinishBackup(state, w.config.schedule.intervalHours, kind, w.clock)
      && r.past.ledger == w.past.ledger + [Cleared] + [Finished(kind, w.clock)]
  {
  }

  lemma LoopKept(w: World, step: LoopStep, first: Option<Time>)
    requires Kept(w, first) && LoopEnabled(w, step)
    ensures Kept(LoopApply(w, step), first)
  {
    match step
    case Handle(spawned, saved) =>
      var popped := w.(queue := w.queue[1..]);
      HandleFollows(popped, w.loop.snapshot, w.queue[0], spawned, saved);
      FollowsKept(popped, HandleEvent(popped, w.loop.snapshot, w.queue[0], spawned, saved), first);
    case EvaluateSchedule(conditions, spawned) => EvaluateKept(w, w.loop.snapshot, conditions, spawned, first);
    case _ =>
  }

  lemma StepKept(w: World, step: Step, first: Option<Time>)
    requires Kept(w, first) && Enabled(w, step)
    ensures Kept(Apply(w, step), first)
  {
    match step
    case Environment(s) => EnvironmentFollows(w, s); FollowsKept(w, EnvironmentApply(w, s), first);
    case Loop(s) => LoopKept(w, s, first);
    case Backup(i, s) => BackupFollows(w, i, s); FollowsKept(w, BackupApply(w, i, s), first);
    case Request(s) => RequestFollows(w, s); FollowsKept(w, RequestApply(w, s), first);
  }

  /** Along every run the failure counter, the earliest start and the last success are those of the ledger. */
  lemma {:induction false} LedgerIsKept(service: ServiceState, config: EffectiveConfig, now: Time, steps: seq<Step>)
    requires Run(Initial(service, config, now), steps).Some?
    ensures Kept(Run(Initial(service, config, now), steps).value, service.lastSuccess)
  {
    if steps != [] {
      var last := |steps| - 1;
      LedgerIsKept(service, config, now, steps[..last]);
      StepKept(Run(Initial(service, config, now), steps[..last]).value, steps[last], service.lastSuccess);
    }
  }

  // ---------------------------------------------------------------- when an unattended backup starts

  /** The loop stands before an evaluation that neither an update, an enrollment, an unvalidated repository nor a
      request decides. */
  predicate LeftToTheSchedule(w: World) {
    && w.loop.Evaluating? && IsConfigured(w.loop.snapshot)
    && !Held(w.state, w.clock) && !w.state.managementActive && AllowsBackup(w.state.repository)
    && !w.state.manualRequested
    && w.loop.snapshot.schedule.intervalHours > 0
    && w.clock + w.loop.snapshot.schedule.intervalHours * HOUR <= MAX_TIME
  }

  /** What the ledger and the conditions say about this instant. */
  function Instant(w: World, first: Option<Time>, c: Conditions): Snapshot {
    Snapshot(w.clock, LastSuccess(w.past.ledger, first), w.state.resumedAt, EarliestStart(w.past.ledger), false, false,
             c.networkRequired, c.networkAvailable, c.onBattery, c.meteredNetwork)
  }

  /** In every run, an unblocked evaluation starts a backup exactly when the interval since the last success and the
      backoff of the last failures have both elapsed; and whenever it leaves the service idle, the deadline it reports
      is no later than one interval from now or the end of the backoff. */
  lemma UnattendedStartIff(service: ServiceState, config: EffectiveConfig, now: Time, steps: seq<Step>, w: World,
                           c: Conditions, spawned: bool)
    requires Run(Initial(service, config, now), steps) == Some(w) && LeftToTheSchedule(w)
    ensures
      var schedule, instant := w.loop.snapshot.schedule, Instant(w, service.lastSuccess, c);
      var next := LoopApply(w, EvaluateSchedule(c, spawned));
      && (next.past.starts == w.past.starts + 1 <==> Due(schedule, instant) && Unblocked(schedule, instant))
      && (!Due(schedule, instant) ==>
            && next.state.nextDeadline.Some?
            && w.clock < next.state.nextDeadline.value
            && next.state.nextDeadline.value <= Later(w.clock + schedule.intervalHours * HOUR,
                                                      EarliestStart(w.past.ledger)))
  {
    hide Run, Initial, EvaluateIn, Due, Unblocked, Inv;
    KeptAndSafe(service, config, now, steps, w);
    ScheduleDecides(w, service.lastSuccess, c, spawned);
  }

  lemma KeptAndSafe(service: ServiceState, config: EffectiveConfig, now: Time, steps: seq<Step>, w: World)
    requires Run(Initial(service, config, now), steps) == Some(w)
    ensures Kept(w, service.lastSuccess) && Inv(w)
  {
    hide Run, Kept, Inv;
    LedgerIsKept(service, config, now, steps);
    InitialInv(service, config, now);
    RunKeepsInv(Initial(service, config, now), steps);
  }

  lemma ScheduleDecides(w: World, first: Option<Time>, c: Conditions, spawned: bool)
    requires Kept(w, first) && Inv(w) && LeftToTheSchedule(w)
    ensures
      var schedule, instant := w.loop.snapshot.schedule, Instant(w, first, c);
      var next := EvaluateIn(w, w.loop.snapshot, c, spawned);
      && (next.past.starts == w.past.starts + 1 <==> Due(schedule, instant) && Unblocked(schedule, instant))
      && (!Due(schedule, instant) ==>
            && next.state.nextDeadline.Some?
            && w.clock < next.state.nextDeadline.value
            && next.state.nextDeadline.value <= Later(w.clock + schedule.intervalHours * HOUR, instant.notBefore))
  {
    var s := AfterHold(w.state, w.clock);
    assert SnapshotOf(s, w.clock, c) == Instant(w, first, c);
    RescheduleStartsIff(s, w.loop.snapshot, w.clock, c);
    var (state, trigger) := Evaluate(w.state, w.loop.snapshot, w.clock, c);
    assert (state, trigger) == Reschedule(s, w.loop.snapshot, w.clock, c);
  }

  lemma RescheduleStartsIff(s: RuntimeState, config: EffectiveConfig, now: Time, c: Conditions)
    requires IsConfigured(config) && !s.managementActive && AllowsBackup(s.repository)
    requires !s.manualRequested && !s.state.Running?
    requires config.schedule.intervalHours > 0 && now + config.schedule.intervalHours * HOUR <= MAX_TIME
    ensures
      var instant := SnapshotOf(s, now, c);
      var (t, trigger) := Reschedule(s, config, now, c);
      && (trigger.Some? <==> Due(config.schedule, instant) && Unblocked(config.schedule, instant))
      && (!Due(config.schedule, instant) ==>
            && t.nextDeadline.Some? && now < t.nextDeadline.value
            && t.nextDeadline.value <= Later(now + config.schedule.intervalHours * HOUR, instant.notBefore))
  {
    AutomaticStartIff(config.schedule, SnapshotOf(s, now, c));
    IdleDeadlineIsBounded(config.schedule, SnapshotOf(s, now, c));
  }

  // ---------------------------------------------------------------- no busy spin

  /** An evaluation that returns before deciding and leaves a deadline that has already passed. */
  predicate SpinsOn(s: RuntimeState, config: EffectiveConfig, now: Time) {
    && !Held(s, now) && !s.managementActive
    && (!IsConfigured(config) || !AllowsBackup(s.repository))
    && (var kept := AfterHold(s, now);
        && !(kept.state.Waiting? && kept.state.reason in {Network, Battery, MeteredNetwork})
        && kept.nextDeadline.Some? && kept.nextDeadline.value <= now)
  }

  /** After an evaluation that starts nothing the loop sleeps, unless the evaluation returned before deciding and
      left an elapsed deadline in place; every hold and every decision leaves a positive delay. */
  lemma SleepsIff(s: RuntimeState, config: EffectiveConfig, now: Time, c: Conditions)
    requires Evaluate(s, config, now, c).1.None?
    requires AfterHold(s, now).state.Running? ==> AfterHold(s, now).nextDeadline.None?
    ensures NextEvaluationDelay(Evaluate(s, config, now, c).0, now) > 0 <==> !SpinsOn(s, config, now)
  {
    var kept := AfterHold(s, now);
    if !Held(s, now) && IsConfigured(config) && !s.managementActive && AllowsBackup(s.repository) {
      DecisionSleeps(kept, config, now, c);
    }
  }

  lemma DecisionSleeps(s: RuntimeState, config: EffectiveConfig, now: Time, c: Conditions)
    requires IsConfigured(config) && !s.managementActive && AllowsBackup(s.repository)
    requires Reschedule(s, config, now, c).1.None? && (s.state.Running? ==> s.nextDeadline.None?)
    ensures NextEvaluationDelay(Reschedule(s, config, now, c).0, now) > 0
  {
    var instant := SnapshotOf(s, now, c);
    IdleDeadlineIsBounded(config.schedule, instant);
    match Decide(config.schedule, instant)
    case Waiting(blockers, retryAt) =>
      assert blockers == Blockers(config.schedule, instant) && retryAt == GraceEnd(config.schedule, instant);
      assert blockers[0] == Blocker.WakeGrace ==> retryAt.Some? && retryAt.value > now;
    case _ =>
  }

  lemma RunningHasNoDeadline(w: World)
    requires Inv(w) && w.loop.Evaluating?
    ensures AfterHold(w.state, w.clock).state.Running? ==> AfterHold(w.state, w.clock).nextDeadline.None?
  {
  }

  /** In every run, after an evaluation that started nothing, the next wake-up is at least a millisecond away, unless
      the evaluation returned early on an elapsed deadline. */
  lemma NoBusySpin(w: World, c: Conditions, spawned: bool)
    requires Reachable(w) && w.loop.Evaluating?
    requires LoopApply(w, EvaluateSchedule(c, spawned)).past.starts == w.past.starts
    ensures NextEvaluationDelay(LoopApply(w, EvaluateSchedule(c, spawned)).state, w.clock) > 0
            <==> !SpinsOn(w.state, w.loop.snapshot, w.clock)
  {
    hide Evaluate, CloseBackup, NextEvaluationDelay, SpinsOn, Reachable, Inv;
    hide SameElsewhere, SameDeeds, SamePrune, KeepsOperation;
    ReachableInv(w);
    RunningHasNoDeadline(w);
    SleepsIff(w.state, w.loop.snapshot, w.clock, c);
  }

  // ---------------------------------------------------------------- a spin that happens

  /** The service restarts right after a success of a verified configuration. */
  predicate FreshAtStart(service: ServiceState, config: EffectiveConfig, now: Time) {
    && IsConfigured(config) && !service.validationRequired && service.lastSuccess == Some(now)
    && service.verified == Some(IdentityOf(config)) && service.verifiedAt.Some?
    && 0 < config.schedule.intervalHours && now + config.schedule.intervalHours * HOUR <= MAX_TIME
  }

  lemma StaleEvaluationDates(w: World, config: EffectiveConfig)
    requires w.loop == Evaluating(config) && IsConfigured(config) && AllowsBackup(w.state.repository)
    requires !Held(w.state, w.clock) && !w.state.managementActive && w.state.holdPrevious.None?
    requires w.state.state == Unconfigured && !w.state.manualRequested && w.state.notBefore.None?
    requires w.state.lastSuccess == Some(w.clock) && 0 < config.schedule.intervalHours
    requires w.clock + config.schedule.intervalHours * HOUR <= MAX_TIME
    ensures
      var next := LoopApply(w, EvaluateSchedule(CLEAR, true));
      && next == w.(loop := Receiving, state := next.state) && next.state.state == Unconfigured
      && next.state.nextDeadline == Some(w.clock + config.schedule.intervalHours * HOUR)
      && !Held(next.state, w.clock) && !Held(next.state, w.clock + config.schedule.intervalHours * HOUR)
      && !next.state.managementActive && next.state.holdPrevious.None?
  {
    var s := AfterHold(w.state, w.clock);
    var instant := SnapshotOf(s, w.clock, CLEAR);
    assert Decide(config.schedule, instant) == Decision.Idle(w.clock + config.schedule.intervalHours * HOUR);
  }

  /** The loop stands before its first evaluation with the configuration it read, but the sources are gone. */
  predicate SourcesGone(w: World, config: EffectiveConfig, now: Time) {
    && w.loop == Evaluating(config) && AllowsBackup(w.state.repository) && w.clock == now
    && !Held(w.state, w.clock) && !w.state.managementActive && w.state.holdPrevious.None?
    && w.state.state == Unconfigured && !w.state.manualRequested && w.state.notBefore.None?
    && w.state.lastSuccess == Some(now) && !IsConfigured(w.config)
    && !w.stopping && !w.activeBackup && !w.past.raced && !w.past.clockWentBack && w.queue == [Nudge]
  }

  lemma SourcesRemovedAfterReading(service: ServiceState, config: EffectiveConfig, now: Time) returns (w: World)
    requires FreshAtStart(service, config, now)
    ensures Reachable(w) && SourcesGone(w, config, now)
  {
    var w0 := Initial(service, config, now);
    ReachableInitial(service, config, now);
    ReachableStep(w0, Loop(ReadConfiguration));
    var w1 := w0.(loop := Evaluating(config));
    ReachableStep(w1, Request(EditSources([], [])));
    SourcesRemoved(w1);
    w := RequestApply(w1, EditSources([], []));
  }

  /** For every verified configuration a run reaches an evaluation after which the loop does not sleep, without a race
      and with a forward clock: the sources are removed while an evaluation still holds the configuration that had them,
      its decision dates the unconfigured status, the evaluation for the removal leaves the date,
        and the date passes. */
  lemma SpinIsReached(service: ServiceState, config: EffectiveConfig, now: Time) returns (w: World)
    requires FreshAtStart(service, config, now)
    ensures Reachable(w) && !w.past.raced && !w.past.clockWentBack && w.loop.Evaluating?
    ensures SpinsOn(w.state, w.loop.snapshot, w.clock)
  {
    hide Reachable, EvaluateIn, SpinsOn;
    var due := now + config.schedule.intervalHours * HOUR;
    var edited := SourcesRemovedAfterReading(service, config, now);
    ReachableStep(edited, Loop(EvaluateSchedule(CLEAR, true)));
    StaleEvaluationDates(edited, config);
    var dated := LoopApply(edited, EvaluateSchedule(CLEAR, true));
    assert DatedUnconfigured(dated, due);
    var woken := NudgeLeavesTheDate(dated, due);
    w := WakeAfter(woken, due);
  }

  /** An idle loop whose unconfigured status has a date. */
  predicate DatedUnconfigured(w: World, due: Time) {
    && w.loop.Receiving? && !w.stopping && !w.activeBackup && w.clock <= due
    && !IsConfigured(w.config) && w.state.state == Unconfigured && w.state.nextDeadline == Some(due)
    && !Held(w.state, w.clock) && !Held(w.state, due) && !w.state.managementActive && w.state.holdPrevious.None?
    && !w.past.raced && !w.past.clockWentBack
  }

  /** The wake-up is received, handled, and evaluated under the configuration without sources, which decides nothing. */
  lemma NudgeLeavesTheDate(w: World, due: Time) returns (next: World)
    requires Reachable(w) && DatedUnconfigured(w, due) && w.queue == [Nudge]
    ensures Reachable(next) && DatedUnconfigured(next, due) && next.queue == []
  {
    hide Reachable;
    ReachableStep(w, Loop(Receive));
    var received := LoopApply(w, Receive);
    ReachableStep(received, Loop(Handle(true, true)));
    var handled := LoopApply(received, Handle(true, true));
    ReachableStep(handled, Loop(ReadConfiguration));
    var read := LoopApply(handled, ReadConfiguration);
    ReachableStep(read, Loop(EvaluateSchedule(CLEAR, true)));
    UnconfiguredDecidesNothing(read, due);
    next := LoopApply(read, EvaluateSchedule(CLEAR, true));
  }

  lemma UnconfiguredDecidesNothing(w: World, due: Time)
    requires w.loop == Evaluating(w.config) && DatedUnconfigured(w.(loop := Receiving), due)
    ensures
      var next := LoopApply(w, EvaluateSchedule(CLEAR, true));
      DatedUnconfigured(next, due) && next.queue == w.queue
  {
  }

  lemma SourcesRemoved(w: World)
    requires RequestEnabled(w, EditSources([], []))
    ensures
      var next := RequestApply(w, EditSources([], []));
      && !IsConfigured(next.config) && next.state.state == Unconfigured && next.state.notBefore.None?
      && !next.state.manualRequested && next.state.lastSuccess == w.state.lastSuccess
      && next.state.repository == w.state.repository && next.state.managementActive == w.state.managementActive
      && SameHold(w.state, next.state)
      && next.loop == w.loop && next.clock == w.clock && next.past.raced == w.past.raced
      && next.past.clockWentBack == w.past.clockWentBack && next.activeBackup == w.activeBackup
      && next.stopping == w.stopping && next.queue == w.queue + [Nudge]
  {
  }

  /** The deadline passes, the loop times out and reads the configuration again. */
  lemma WakeAfter(w: World, due: Time) returns (next: World)
    requires Reachable(w) && DatedUnconfigured(w, due) && w.queue == []
    ensures Reachable(next) && !next.past.raced && !next.past.clockWentBack
    ensures next.loop.Evaluating? && SpinsOn(next.state, next.loop.snapshot, next.clock)
  {
    hide Reachable;
    ReachableStep(w, Environment(SetClock(due)));
    var late := EnvironmentApply(w, SetClock(due));
    ReachableStep(late, Loop(Timeout));
    var awake := late.(loop := EvaluationDue);
    ReachableStep(awake, Loop(ReadConfiguration));
    next := awake.(loop := Evaluating(w.config));
  }
}
