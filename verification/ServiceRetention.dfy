/** What earns a forget and a prune, over whole runs. */
module ServiceRetention {
  import opened Common
  import opened Config
  import opened Outcomes
  import opened Schedule
  import opened Runtime
  import opened ServiceSystem
  import opened ServiceSafety
  import opened ServiceTheorems

  predicate Elapsed(lastPrune: Option<Time>, at: Time, intervalDays: nat) {
    lastPrune.Some? ==> at - lastPrune.value >= intervalDays * DAY
  }

  /** A forget directly follows a successful backup and a prune directly follows a successful forget, both for a
      standard repository; `timely` adds the interval since the prune recorded at that time. */
  predicate Earned(deeds: seq<Deed>, i: nat, timely: bool)
    requires i < |deeds|
  {
    match deeds[i]
    case DidBackup(_) => true
    case DidForget(_, mode) =>
      mode == Standard && i > 0 && deeds[i - 1].DidBackup? && IsSuccess(deeds[i - 1].kind)
    case DidPrune(_, mode, at, lastPrune, intervalDays) =>
      && mode == Standard && i > 0 && deeds[i - 1].DidForget? && deeds[i - 1].result.ExecutionSucceeded?
      && (timely ==> Elapsed(lastPrune, at, intervalDays))
  }

  predicate AllEarned(deeds: seq<Deed>, timely: bool) {
    forall i :: 0 <= i < |deeds| ==> Earned(deeds, i, timely)
  }

  lemma EarnedSnoc(deeds: seq<Deed>, deed: Deed, timely: bool)
    requires AllEarned(deeds, timely) && Earned(deeds + [deed], |deeds|, timely)
    ensures AllEarned(deeds + [deed], timely)
  {
    forall i | 0 <= i < |deeds| + 1
      ensures Earned(deeds + [deed], i, timely)
    {
      if i < |deeds| {
        assert Earned(deeds, i, timely);
        assert (deeds + [deed])[i] == deeds[i] && (i > 0 ==> (deeds + [deed])[i - 1] == deeds[i - 1]);
      }
    }
  }

  predicate PlanHolds(plan: Plan, lastPrune: Option<Time>, clock: Time, timely: bool) {
    plan.prune && timely ==> plan.decidedAt <= clock && Elapsed(lastPrune, plan.decidedAt, plan.intervalDays)
  }

  /** What a worker's place says about the last deed and its plan. */
  predicate InPlace(worker: Worker, deeds: seq<Deed>, lastPrune: Option<Time>, clock: Time, timely: bool) {
    && (worker.RetentionDue? || worker.Forgetting? ==>
          IsSuccess(worker.kind) && deeds != [] && deeds[|deeds| - 1] == DidBackup(worker.kind))
    && (worker.Forgetting? ==> PlanHolds(worker.plan, lastPrune, clock, timely))
    && (worker.Pruning? ==>
          && worker.plan.prune && PlanHolds(worker.plan, lastPrune, clock, timely)
          && worker.config.repository.mode == Standard
          && deeds != [] && deeds[|deeds| - 1].DidForget? && deeds[|deeds| - 1].result.ExecutionSucceeded?)
  }

  predicate Diligent(w: World) {
    && AllEarned(w.past.deeds, !w.past.clockWentBack)
    && forall worker :: worker in w.backups ==>
         InPlace(worker, w.past.deeds, w.state.service.lastPrune, w.clock, !w.past.clockWentBack)
  }

  /** Everyone else leaves deeds, workers and the recorded prune alone; a clock that moves on keeps every plan. */
  lemma OthersKeepDiligent(w: World, next: World)
    requires Diligent(w) && next.past.deeds == w.past.deeds && SamePrune(w.state, next.state)
    requires w.past.clockWentBack ==> next.past.clockWentBack
    requires !next.past.clockWentBack ==> w.clock <= next.clock
    requires next.backups == w.backups || next.backups == w.backups + [Starting]
    ensures Diligent(next)
  {
    var timely := !next.past.clockWentBack;
    forall i | 0 <= i < |w.past.deeds|
      ensures Earned(w.past.deeds, i, timely)
    {
      assert Earned(w.past.deeds, i, !w.past.clockWentBack);
    }
    forall worker | worker in next.backups
      ensures InPlace(worker, next.past.deeds, next.state.service.lastPrune, next.clock, !next.past.clockWentBack)
    {
      if worker in w.backups {
        assert InPlace(worker, w.past.deeds, w.state.service.lastPrune, w.clock, !w.past.clockWentBack);
      }
    }
  }

  /** With one worker there is nobody else whose place a deed could disturb. */
  lemma WorkerMoves(w: World, i: nat, worker: Worker, next: World)
    requires Inv(w) && i < |w.backups| && next.backups == w.backups[i := worker]
    requires AllEarned(next.past.deeds, !next.past.clockWentBack)
    requires InPlace(worker, next.past.deeds, next.state.service.lastPrune, next.clock, !next.past.clockWentBack)
    ensures Diligent(next)
  {
    assert |w.backups| == 1;
    assert next.backups == [worker];
  }

  lemma ForgetKeepsDiligent(w: World, i: nat, result: ExecutionResult, next: World)
    requires Inv(w) && Diligent(w) && BackupEnabled(w, i, Forget(result)) && next == ForgetIn(w, i, result)
    ensures Diligent(next)
  {
    var worker, deeds, timely := w.backups[i], w.past.deeds, !w.past.clockWentBack;
    assert worker in w.backups;
    assert InPlace(worker, deeds, w.state.service.lastPrune, w.clock, timely);
    if worker.config.repository.mode == Standard {
      EarnedSnoc(deeds, DidForget(result, Standard), timely);
    }
    WorkerMoves(w, i, next.backups[i], next);
  }

  lemma PruneKeepsDiligent(w: World, i: nat, result: ExecutionResult)
    requires Inv(w) && Diligent(w) && BackupEnabled(w, i, Prune(result))
    ensures Diligent(PruneIn(w, i, result))
  {
    var worker, deeds, timely := w.backups[i], w.past.deeds, !w.past.clockWentBack;
    assert worker in w.backups;
    assert InPlace(worker, deeds, w.state.service.lastPrune, w.clock, timely);
    var next := PruneIn(w, i, result);
    EarnedSnoc(deeds, DidPrune(result, Standard, w.clock, w.state.service.lastPrune, worker.plan.intervalDays), timely);
    WorkerMoves(w, i, next.backups[i], next);
  }

  lemma PlanKeepsDiligent(w: World, i: nat)
    requires Inv(w) && Diligent(w) && BackupEnabled(w, i, PlanRetention)
    ensures Diligent(PlanIn(w, i))
  {
    assert w.backups[i] in w.backups;
    assert InPlace(w.backups[i], w.past.deeds, w.state.service.lastPrune, w.clock, !w.past.clockWentBack);
    var next := PlanIn(w, i);
    WorkerMoves(w, i, next.backups[i], next);
  }

  lemma BackupKeepsDiligent(w: World, i: nat, step: BackupStep)
    requires Inv(w) && Diligent(w) && BackupEnabled(w, i, step)
    ensures Diligent(BackupApply(w, i, step))
  {
    var next := BackupApply(w, i, step);
    match step
    case Forget(result) => ForgetKeepsDiligent(w, i, result, next);
    case Prune(result) => PruneKeepsDiligent(w, i, result);
    case PlanRetention => PlanKeepsDiligent(w, i);
    case EndBackup(kind) =>
      EarnedSnoc(w.past.deeds, DidBackup(kind), !w.past.clockWentBack);
      WorkerMoves(w, i, next.backups[i], next);
    case ReportBackup =>
      assert |w.backups| == 1;
      assert next.backups == [];
    case ReportProgress =>
      assert w.backups[i := w.backups[i]] == w.backups;
      assert w.backups[i] in w.backups;
      assert InPlace(w.backups[i], w.past.deeds, w.state.service.lastPrune, w.clock, !w.past.clockWentBack);
      WorkerMoves(w, i, w.backups[i], next);
    case _ => WorkerMoves(w, i, next.backups[i], next);
  }

  lemma StepKeepsDiligent(w: World, step: Step)
    requires Inv(w) && Diligent(w) && Enabled(w, step)
    ensures Diligent(Apply(w, step))
  {
    match step
    case Environment(s) => OthersKeepDiligent(w, EnvironmentApply(w, s));
    case Loop(s) => OthersKeepDiligent(w, LoopApply(w, s));
    case Backup(i, s) => BackupKeepsDiligent(w, i, s);
    case Request(s) => OthersKeepDiligent(w, RequestApply(w, s));
  }

  lemma {:induction false} RunKeepsDiligent(w: World, steps: seq<Step>)
    requires Inv(w) && Diligent(w) && Run(w, steps).Some?
    ensures Diligent(Run(w, steps).value)
  {
    if steps != [] {
      var last := |steps| - 1;
      RunKeepsDiligent(w, steps[..last]);
      RunKeepsInv(w, steps[..last]);
      StepKeepsDiligent(Run(w, steps[..last]).value, steps[last]);
    }
  }

  /** In every run each forget follows a successful backup and each prune a successful forget, none for an
      append-only repository; and unless the clock went back, each prune ran at least the configured interval after
      the last recorded one. */
  lemma PrunesAreEarned(w: World, i: nat)
    requires Reachable(w) && i < |w.past.deeds|
    ensures Earned(w.past.deeds, i, !w.past.clockWentBack)
  {
    var service, config, now, steps :| Run(Initial(service, config, now), steps) == Some(w);
    InitialInv(service, config, now);
    RunKeepsDiligent(Initial(service, config, now), steps);
  }

  // ---------------------------------------------------------------- how far prunes are apart

  predicate PruneDone(deed: Deed) {
    deed.DidPrune? && deed.result.ExecutionSucceeded?
  }

  predicate Noted(at: Time, lastPrune: Option<Time>) {
    lastPrune.Some? && at <= lastPrune.value
  }

  /** The one worker has pruned and is about to record it. */
  predicate AboutToRecord(backups: seq<Worker>) {
    |backups| == 1 && backups[0].Recording? && backups[0].result == RetentionSucceeded(true)
  }

  predicate DeedRecorded(deeds: seq<Deed>, i: nat, lastPrune: Option<Time>, clock: Time, backups: seq<Worker>)
    requires i < |deeds|
  {
    PruneDone(deeds[i]) ==>
      && deeds[i].at <= clock
      && (Noted(deeds[i].at, lastPrune) || (i + 1 == |deeds| && AboutToRecord(backups)))
  }

  /** Every prune that succeeded is recorded, or its worker is about to. */
  predicate Recorded(w: World) {
    !w.past.clockWentBack ==>
      forall i :: 0 <= i < |w.past.deeds| ==>
        DeedRecorded(w.past.deeds, i, w.state.service.lastPrune, w.clock, w.backups)
  }

  predicate Apart(earlier: Deed, later: Deed) {
    PruneDone(earlier) && later.DidPrune? ==> earlier.at + later.intervalDays * DAY <= later.at
  }

  /** A prune is at least its own interval after every earlier one that succeeded. */
  predicate Spaced(w: World) {
    !w.past.clockWentBack ==>
      forall i, j :: 0 <= i < j < |w.past.deeds| ==> Apart(w.past.deeds[i], w.past.deeds[j])
  }

  lemma OthersKeepRecorded(w: World, next: World)
    requires Inv(w) && Recorded(w) && Spaced(w)
    requires next.past.deeds == w.past.deeds && SamePrune(w.state, next.state)
    requires w.past.clockWentBack ==> next.past.clockWentBack
    requires !next.past.clockWentBack ==> w.clock <= next.clock
    requires next.backups == w.backups || (next.backups == w.backups + [Starting] && w.backups == [])
    ensures Recorded(next) && Spaced(next)
  {
    if !next.past.clockWentBack {
      forall i | 0 <= i < |w.past.deeds|
        ensures DeedRecorded(next.past.deeds, i, next.state.service.lastPrune, next.clock, next.backups)
      {
        assert DeedRecorded(w.past.deeds, i, w.state.service.lastPrune, w.clock, w.backups);
      }
    }
  }

  /** A worker whose step is not the recording one: everything earlier was recorded before. */
  lemma WorkerKeepsRecorded(w: World, i: nat, next: World)
    requires Inv(w) && Recorded(w) && i < |w.backups| && !w.backups[i].Recording?
    requires next.past.clockWentBack == w.past.clockWentBack && next.clock == w.clock && SamePrune(w.state, next.state)
    requires
      || next.past.deeds == w.past.deeds
      || (|next.past.deeds| == |w.past.deeds| + 1 && w.past.deeds <= next.past.deeds
          && (PruneDone(next.past.deeds[|w.past.deeds|]) ==>
                next.past.deeds[|w.past.deeds|].at == w.clock && AboutToRecord(next.backups)))
    ensures Recorded(next)
    ensures !w.past.clockWentBack ==>
              forall k :: 0 <= k < |w.past.deeds| && PruneDone(w.past.deeds[k]) ==>
                Noted(w.past.deeds[k].at, w.state.service.lastPrune)
  {
    assert |w.backups| == 1 && !AboutToRecord(w.backups);
    if !w.past.clockWentBack {
      forall k | 0 <= k < |next.past.deeds|
        ensures DeedRecorded(next.past.deeds, k, next.state.service.lastPrune, next.clock, next.backups)
      {
        if k < |w.past.deeds| {
          assert DeedRecorded(w.past.deeds, k, w.state.service.lastPrune, w.clock, w.backups);
        }
      }
      forall k | 0 <= k < |w.past.deeds| && PruneDone(w.past.deeds[k])
        ensures Noted(w.past.deeds[k].at, w.state.service.lastPrune)
      {
        assert DeedRecorded(w.past.deeds, k, w.state.service.lastPrune, w.clock, w.backups);
      }
    }
  }

  lemma SpacedSnoc(deeds: seq<Deed>, deed: Deed)
    requires forall i, j :: 0 <= i < j < |deeds| ==> Apart(deeds[i], deeds[j])
    requires forall i :: 0 <= i < |deeds| ==> Apart(deeds[i], deed)
    ensures forall i, j :: 0 <= i < j < |deeds + [deed]| ==> Apart((deeds + [deed])[i], (deeds + [deed])[j])
  {
  }

  lemma PruneKeepsSpaced(w: World, i: nat, result: ExecutionResult)
    requires Inv(w) && Diligent(w) && Recorded(w) && Spaced(w) && BackupEnabled(w, i, Prune(result))
    ensures Recorded(PruneIn(w, i, result)) && Spaced(PruneIn(w, i, result))
  {
    var worker, next := w.backups[i], PruneIn(w, i, result);
    assert worker in w.backups;
    assert InPlace(worker, w.past.deeds, w.state.service.lastPrune, w.clock, !w.past.clockWentBack);
    WorkerKeepsRecorded(w, i, next);
    if !w.past.clockWentBack {
      var deed := next.past.deeds[|w.past.deeds|];
      forall k | 0 <= k < |w.past.deeds|
        ensures Apart(w.past.deeds[k], deed)
      {
      }
      SpacedSnoc(w.past.deeds, deed);
    }
  }

  lemma DeedKeepsSpaced(w: World, deed: Deed)
    requires Spaced(w) && !deed.DidPrune?
    ensures Spaced(Did(w, deed))
  {
    if !w.past.clockWentBack {
      SpacedSnoc(w.past.deeds, deed);
    }
  }

  lemma RecordKeepsSpaced(w: World, i: nat, saved: bool)
    requires Inv(w) && Recorded(w) && Spaced(w) && BackupEnabled(w, i, RecordRetention(saved))
    ensures Recorded(RecordIn(w, i, saved)) && Spaced(RecordIn(w, i, saved))
  {
    var next := RecordIn(w, i, saved);
    assert |w.backups| == 1;
    if !w.past.clockWentBack {
      forall k | 0 <= k < |w.past.deeds|
        ensures DeedRecorded(next.past.deeds, k, next.state.service.lastPrune, next.clock, next.backups)
      {
        assert DeedRecorded(w.past.deeds, k, w.state.service.lastPrune, w.clock, w.backups);
      }
    }
  }

  lemma BackupKeepsSpaced(w: World, i: nat, step: BackupStep)
    requires Inv(w) && Diligent(w) && Recorded(w) && Spaced(w) && BackupEnabled(w, i, step)
    ensures Recorded(BackupApply(w, i, step)) && Spaced(BackupApply(w, i, step))
  {
    var next := BackupApply(w, i, step);
    match step
    case Prune(result) => PruneKeepsSpaced(w, i, result);
    case RecordRetention(saved) => RecordKeepsSpaced(w, i, saved);
    case EndBackup(kind) =>
      WorkerKeepsRecorded(w, i, next);
      DeedKeepsSpaced(w, DidBackup(kind));
    case Forget(result) =>
      WorkerKeepsRecorded(w, i, next);
      DeedKeepsSpaced(w, DidForget(result, w.backups[i].config.repository.mode));
    case _ => WorkerKeepsRecorded(w, i, next);
  }

  lemma LoopKeepsSpaced(w: World, step: LoopStep)
    requires Inv(w) && Recorded(w) && Spaced(w) && LoopEnabled(w, step)
    ensures Recorded(LoopApply(w, step)) && Spaced(LoopApply(w, step))
  {
    var next := LoopApply(w, step);
    LoopKeepsInv(w, step);
    if next.backups != w.backups {
      assert next.backups == w.backups + [Starting];
      assert |next.backups| <= 1;
    }
    OthersKeepRecorded(w, next);
  }

  lemma StepKeepsSpaced(w: World, step: Step)
    requires Inv(w) && Diligent(w) && Recorded(w) && Spaced(w) && Enabled(w, step)
    ensures Recorded(Apply(w, step)) && Spaced(Apply(w, step))
  {
    match step
    case Environment(s) => OthersKeepRecorded(w, EnvironmentApply(w, s));
    case Loop(s) => LoopKeepsSpaced(w, s);
    case Backup(i, s) => BackupKeepsSpaced(w, i, s);
    case Request(s) => OthersKeepRecorded(w, RequestApply(w, s));
  }

  lemma {:induction false} RunKeepsSpaced(w: World, steps: seq<Step>)
    requires Inv(w) && Diligent(w) && Recorded(w) && Spaced(w) && Run(w, steps).Some?
    ensures Recorded(Run(w, steps).value) && Spaced(Run(w, steps).value)
  {
    if steps != [] {
      var last := |steps| - 1;
      RunKeepsSpaced(w, steps[..last]);
      RunKeepsInv(w, steps[..last]);
      RunKeepsDiligent(w, steps[..last]);
      StepKeepsSpaced(Run(w, steps[..last]).value, steps[last]);
    }
  }

  /** In every run with a forward clock, any prune runs at least its configured interval after every earlier prune of
      the process that succeeded. */
  lemma PrunesAreApart(w: World, i: nat, j: nat)
    requires Reachable(w) && !w.past.clockWentBack && i < j < |w.past.deeds|
    ensures Apart(w.past.deeds[i], w.past.deeds[j])
  {
    var service, config, now, steps :| Run(Initial(service, config, now), steps) == Some(w);
    InitialInv(service, config, now);
    RunKeepsSpaced(Initial(service, config, now), steps);
  }
}
