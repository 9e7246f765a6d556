/** The single-flight runner that turns policy-revision reports into page reloads
    (apps/ResticPal.UI/Services/ManagedConfigurationSynchronization.cs).

    `Gate` is the six lock-protected fields. Every lock section of `ObserveAsync` is one
    step of `System`, in which any number of calls interleave. */
module ConfigurationSync {
  import opened Common

  /** A `string?`: `None` is the C# null. */
  type Revision = Option<string>

  datatype Gate = Gate(
    hasObserved: bool,
    observed: Revision,
    inProgress: bool,
    pending: bool,
    pendingRevision: Revision,
    pendingForce: bool)

  const FRESH_GATE := Gate(false, None, false, false, None, false)

  /** What the first lock section of a call decides. */
  datatype Entry = Baseline | Declined | Queued | BecomesRunner

  function EntryOf(g: Gate, revision: Revision, force: bool): Entry {
    var revisionChanged := !g.hasObserved || g.observed != revision;
    if !g.hasObserved && !force && !g.pending && !g.inProgress then Baseline
    else if !force && !revisionChanged && !g.pending then Declined
    else if g.inProgress then Queued
    else BecomesRunner
  }

  function Enter(g: Gate, revision: Revision, force: bool): Gate {
    match EntryOf(g, revision, force)
    case Baseline => g.(observed := revision, hasObserved := true)
    case Declined => g
    case _ =>
      g.(pendingRevision := revision, pendingForce := g.pendingForce || force,
         pending := true, inProgress := true)
  }

  function PreserveFailedTarget(g: Gate, target: Revision, force: bool): Gate {
    if g.pending then g.(inProgress := false)
    else g.(pendingRevision := target, pendingForce := force, pending := true, inProgress := false)
  }

  // ---------------------------------------------------------------- the interleaved system

  /** Where a call that owns the runner loop stands between two lock sections. */
  datatype Phase =
    | Deciding
    | Calling(target: Revision, force: bool)
    | Synchronized(target: Revision)
    | Unsuccessful(target: Revision, keepForce: bool)

  /** How the awaited callback ends. */
  datatype Answer = ReturnsTrue | ReturnsFalse | Throws

  datatype System = System(gate: Gate, runners: map<nat, Phase>)

  const FRESH := System(FRESH_GATE, map[])

  datatype Step =
    | Observe(id: nat, revision: Revision, force: bool)
    | TakeTarget(id: nat)
    | Answered(id: nat, answer: Answer)
    | Publish(id: nat)
    | Preserve(id: nat)

  predicate Enabled(s: System, step: Step) {
    if step.Observe? then step.id !in s.runners
    else
      && step.id in s.runners
      && match step
         case TakeTarget(id) => s.runners[id].Deciding?
         case Answered(id, _) => s.runners[id].Calling?
         case Publish(id) => s.runners[id].Synchronized?
         case Preserve(id) => s.runners[id].Unsuccessful?
  }

  function Apply(s: System, step: Step): System
    requires Enabled(s, step)
  {
    var g := s.gate;
    match step
    case Observe(id, revision, force) =>
      System(Enter(g, revision, force),
             if EntryOf(g, revision, force).BecomesRunner? then s.runners[id := Deciding] else s.runners)
    case TakeTarget(id) =>
      if !g.pending then System(g.(inProgress := false), s.runners - {id})
      else System(g.(pending := false, pendingForce := false),
                  s.runners[id := Calling(g.pendingRevision, g.pendingForce)])
    case Answered(id, answer) =>
      var Calling(target, force) := s.runners[id];
      var next := match answer
        case ReturnsTrue => Synchronized(target)
        case ReturnsFalse => Unsuccessful(target, false)
        case Throws => Unsuccessful(target, force);
      s.(runners := s.runners[id := next])
    case Publish(id) =>
      System(g.(observed := s.runners[id].target, hasObserved := true), s.runners[id := Deciding])
    case Preserve(id) =>
      System(PreserveFailedTarget(g, s.runners[id].target, s.runners[id].keepForce), s.runners - {id})
  }

  /** The state a run ends in, `None` when some step was not enabled. */
  function Run(s: System, steps: seq<Step>): Option<System> {
    if steps == [] then Some(s)
    else
      var before := Run(s, steps[..|steps| - 1]);
      var last := steps[|steps| - 1];
      if before.Some? && Enabled(before.value, last) then Some(Apply(before.value, last)) else None
  }

  lemma RunExtends(s: System, steps: seq<Step>, step: Step)
    requires Run(s, steps).Some? && Enabled(Run(s, steps).value, step)
    ensures Run(s, steps + [step]) == Some(Apply(Run(s, steps).value, step))
  {
    assert (steps + [step])[..|steps|] == steps;
  }

  // ---------------------------------------------------------------- single flight

  predicate SingleFlight(s: System) {
    && (s.gate.inProgress <==> s.runners != map[])
    && (forall i, j :: i in s.runners && j in s.runners ==> i == j)
    && (s.gate.pendingForce ==> s.gate.pending)
  }

  lemma OnlyKey(m: map<nat, Phase>, id: nat)
    requires id in m && forall i, j :: i in m && j in m ==> i == j
    ensures m.Keys == {id} && m - {id} == map[]
  {
  }

  lemma SingleFlightStep(s: System, step: Step)
    requires SingleFlight(s) && Enabled(s, step)
    ensures SingleFlight(Apply(s, step))
  {
    if !step.Observe? {
      OnlyKey(s.runners, step.id);
      var after := Apply(s, step).runners;
      assert after == map[] || step.id in after;
    } else {
      assert step.id in Apply(s, step).runners || Apply(s, step).runners == s.runners;
    }
  }

  /** In every interleaving of `ObserveAsync` calls at most one call owns the runner loop, so
      at most one callback is ever in flight, and the in-progress flag is exact. */
  lemma {:induction false} AtMostOneRunner(steps: seq<Step>)
    requires Run(FRESH, steps).Some?
    ensures SingleFlight(Run(FRESH, steps).value)
  {
    if steps != [] {
      AtMostOneRunner(steps[..|steps| - 1]);
      SingleFlightStep(Run(FRESH, steps[..|steps| - 1]).value, steps[|steps| - 1]);
    }
  }

  // ---------------------------------------------------------------- what a step may publish

  /** The observed revision moves only to a first baseline, or to a target whose callback
      returned true; a callback that failed leaves it alone. */
  lemma ObservedMovesOnlyOnBaselineOrSuccess(steps: seq<Step>, step: Step)
    requires Run(FRESH, steps + [step]).Some?
    ensures
      var s := Run(FRESH, steps).value;
      var after := Run(FRESH, steps + [step]).value;
      (after.gate.observed, after.gate.hasObserved) != (s.gate.observed, s.gate.hasObserved) ==>
        || (step.Observe? && !s.gate.hasObserved && after.gate.observed == step.revision && s.runners == map[])
        || (step.Publish? && after.gate.observed == s.runners[step.id].target
            && SucceededWith(steps, step.id, s.runners[step.id].target))
  {
    assert (steps + [step])[..|steps|] == steps;
    AtMostOneRunner(steps);
    if step.Publish? {
      SynchronizedMeansReturnedTrue(steps, step.id);
    }
  }

  /** The last callback of call `id` was given `target` and returned true. */
  predicate SucceededWith(steps: seq<Step>, id: nat, target: Revision) {
    exists i :: 0 <= i < |steps| && ReturnedTrueAt(steps, i, id, target)
  }

  predicate ReturnedTrueAt(steps: seq<Step>, i: nat, id: nat, target: Revision)
    requires i < |steps|
  {
    && steps[i] == Answered(id, ReturnsTrue)
    && Run(FRESH, steps[..i]).Some?
    && id in Run(FRESH, steps[..i]).value.runners
    && Run(FRESH, steps[..i]).value.runners[id].Calling?
    && Run(FRESH, steps[..i]).value.runners[id].target == target
  }

  lemma {:induction false} SynchronizedMeansReturnedTrue(steps: seq<Step>, id: nat)
    requires Run(FRESH, steps).Some?
    requires id in Run(FRESH, steps).value.runners && Run(FRESH, steps).value.runners[id].Synchronized?
    ensures SucceededWith(steps, id, Run(FRESH, steps).value.runners[id].target)
  {
    var front := steps[..|steps| - 1];
    var last := steps[|steps| - 1];
    var s := Run(FRESH, front).value;
    if last == Answered(id, ReturnsTrue) {
      assert ReturnedTrueAt(steps, |steps| - 1, id, s.runners[id].target);
    } else {
      assert id in s.runners && s.runners[id] == Run(FRESH, steps).value.runners[id];
      SynchronizedMeansReturnedTrue(front, id);
      var i :| 0 <= i < |front| && ReturnedTrueAt(front, i, id, s.runners[id].target);
      assert front[..i] == steps[..i];
      assert ReturnedTrueAt(steps, i, id, s.runners[id].target);
    }
  }

  // ---------------------------------------------------------------- force requests

  /** A forced report has been made and no callback has received `force = true` since. */
  predicate ForceOwed(steps: seq<Step>)
    requires Run(FRESH, steps).Some?
  {
    if steps == [] then false
    else
      var last := steps[|steps| - 1];
      var s := Run(FRESH, steps[..|steps| - 1]).value;
      if last.Observe? && last.force then true
      else if last.TakeTarget? && Delivers(s, last.id, true) then false
      else ForceOwed(steps[..|steps| - 1])
  }

  predicate Delivers(s: System, id: nat, force: bool)
    requires Enabled(s, TakeTarget(id))
  {
    var after := Apply(s, TakeTarget(id)).runners;
    id in after && after[id].Calling? && after[id].force == force
  }

  /** A force request stays recorded until some callback is started with `force = true`. */
  lemma {:induction false} ForceStaysRecorded(steps: seq<Step>)
    requires Run(FRESH, steps).Some? && ForceOwed(steps)
    ensures
      var g := Run(FRESH, steps).value.gate;
      g.pending && g.pendingForce
  {
    var front := steps[..|steps| - 1];
    AtMostOneRunner(front);
    var last := steps[|steps| - 1];
    if !(last.Observe? && last.force) {
      ForceStaysRecorded(front);
    }
  }

  /** Once a forced callback has thrown, the retry is forced again exactly when nothing was
      queued behind it, or something queued behind it was itself forced. A plain report
      arriving during the flight makes the force disappear. */
  lemma ThrownForceIsRetriedIff(steps: seq<Step>, id: nat, id': nat)
    requires Run(FRESH, steps + [Preserve(id)]).Some?
    requires Run(FRESH, steps).value.runners[id].keepForce
    ensures
      var s := Run(FRESH, steps).value;
      var after := Run(FRESH, steps + [Preserve(id)]).value;
      && after.runners == map[]
      && var retried := Apply(after, Observe(id', after.gate.pendingRevision, false));
      && id' in retried.runners
      && (Delivers(retried, id', true) <==> !s.gate.pending || s.gate.pendingForce)
  {
    assert (steps + [Preserve(id)])[..|steps|] == steps;
    AtMostOneRunner(steps);
    SingleFlightStep(Run(FRESH, steps).value, Preserve(id));
  }

  // ---------------------------------------------------------------- convergence

  /** The target of the callback in flight, if one is. */
  ghost function InFlight(s: System): Option<Revision> {
    if exists id :: id in s.runners && !s.runners[id].Deciding? then
      var id :| id in s.runners && !s.runners[id].Deciding?;
      Some(s.runners[id].target)
    else None
  }

  /** The revision the system will have observed once it has run dry without further failures. */
  ghost function Settling(s: System): Option<Revision> {
    if s.gate.pending then Some(s.gate.pendingRevision)
    else if InFlight(s).Some? then InFlight(s)
    else if s.gate.hasObserved then Some(s.gate.observed)
    else None
  }

  /** The guard of the branch that loses a report: it equals the revision observed so far,
      nothing is queued, and a different target is already in flight. */
  ghost predicate StaleDecline(s: System, step: Step) {
    && step.Observe?
    && EntryOf(s.gate, step.revision, step.force).Declined?
    && InFlight(s).Some?
    && InFlight(s).value != step.revision
  }

  /** Revisions in the order in which their reports entered the lock. */
  function Reports(steps: seq<Step>): seq<Revision> {
    if steps == [] then []
    else
      var front := Reports(steps[..|steps| - 1]);
      var last := steps[|steps| - 1];
      if last.Observe? then front + [last.revision] else front
  }

  function Latest(reports: seq<Revision>): Option<Revision> {
    if reports == [] then None else Some(reports[|reports| - 1])
  }

  /** The most recent report took the losing branch. */
  ghost predicate LatestWasStale(steps: seq<Step>)
    requires Run(FRESH, steps).Some?
  {
    steps != [] &&
    var last := steps[|steps| - 1];
    if last.Observe? then StaleDecline(Run(FRESH, steps[..|steps| - 1]).value, last)
    else LatestWasStale(steps[..|steps| - 1])
  }

  lemma InFlightIs(s: System, id: nat)
    requires SingleFlight(s) && id in s.runners
    ensures InFlight(s) == if s.runners[id].Deciding? then None else Some(s.runners[id].target)
  {
  }

  lemma SettlingStep(s: System, step: Step)
    requires SingleFlight(s) && Enabled(s, step)
    ensures !step.Observe? ==> Settling(Apply(s, step)) == Settling(s)
    ensures step.Observe? ==> (Settling(Apply(s, step)) == Some(step.revision) <==> !StaleDecline(s, step))
  {
    SingleFlightStep(s, step);
    var after := Apply(s, step);
    if step.Observe? {
      assert InFlight(after) == InFlight(s) by {
        if step.id in after.runners { InFlightIs(after, step.id); }
        if s.runners == map[] { assert InFlight(s).None?; }
      }
    } else {
      InFlightIs(s, step.id);
      if step.id in after.runners { InFlightIs(after, step.id); } else { OnlyKey(s.runners, step.id); }
    }
  }

  /** Exactly when reports are not lost: whatever the interleaving, the revision the system is
      settling on is the latest one reported, unless the latest report took the losing branch. */
  lemma {:induction false} SettlesOnLatestIff(steps: seq<Step>)
    requires Run(FRESH, steps).Some?
    ensures Settling(Run(FRESH, steps).value) == Latest(Reports(steps)) <==> !LatestWasStale(steps)
  {
    if steps != [] {
      var front := steps[..|steps| - 1];
      SettlesOnLatestIff(front);
      AtMostOneRunner(front);
      SettlingStep(Run(FRESH, front).value, steps[|steps| - 1]);
    }
  }

  predicate Quiescent(s: System) {
    s.runners == map[] && !s.gate.pending
  }

  /** At quiescence the observed revision is the latest reported one, unless the latest report
      took the losing branch. */
  lemma QuiescentObservesLatestIff(steps: seq<Step>)
    requires Run(FRESH, steps).Some? && Reports(steps) != [] && Quiescent(Run(FRESH, steps).value)
    ensures
      var g := Run(FRESH, steps).value.gate;
      (g.hasObserved && Some(g.observed) == Latest(Reports(steps))) <==> !LatestWasStale(steps)
  {
    SettlesOnLatestIff(steps);
    assert InFlight(Run(FRESH, steps).value).None?;
  }

  /** Once left, a revision is never reported again. */
  predicate NeverReturns(reports: seq<Revision>) {
    forall i, j, k :: 0 <= i <= j <= k < |reports| && reports[i] == reports[k] ==> reports[j] == reports[i]
  }

  /** Every revision the system holds was reported. */
  predicate OnlyReported(s: System, reports: seq<Revision>) {
    && (s.gate.hasObserved ==> s.gate.observed in reports)
    && (s.gate.pending ==> s.gate.pendingRevision in reports)
    && (forall id :: id in s.runners && !s.runners[id].Deciding? ==> s.runners[id].target in reports)
  }

  lemma {:induction false} RunHoldsOnlyReported(steps: seq<Step>)
    requires Run(FRESH, steps).Some?
    ensures OnlyReported(Run(FRESH, steps).value, Reports(steps))
  {
    if steps != [] {
      RunHoldsOnlyReported(steps[..|steps| - 1]);
    }
  }

  lemma {:induction false} NeverReturningIsNeverStale(steps: seq<Step>)
    requires Run(FRESH, steps).Some? && NeverReturns(Reports(steps))
    ensures !LatestWasStale(steps)
  {
    if steps != [] {
      var front := steps[..|steps| - 1];
      var last := steps[|steps| - 1];
      var reports, s := Reports(front), Run(FRESH, front).value;
      assert NeverReturns(reports) by {
        assert forall i :: 0 <= i < |reports| ==> Reports(steps)[i] == reports[i];
      }
      NeverReturningIsNeverStale(front);
      if last.Observe? && EntryOf(s.gate, last.revision, last.force).Declined? && InFlight(s).Some? {
        SettlesOnLatestIff(front);
        RunHoldsOnlyReported(front);
        var i :| 0 <= i < |reports| && reports[i] == s.gate.observed;
        var all := Reports(steps);
        assert all[i] == all[|reports|] && all[|reports| - 1] == InFlight(s).value;
      }
    }
  }

  /** If revisions never return to an earlier value, quiescence means the latest is observed. */
  lemma QuiescentObservesLatest(steps: seq<Step>)
    requires Run(FRESH, steps).Some? && Reports(steps) != [] && Quiescent(Run(FRESH, steps).value)
    requires NeverReturns(Reports(steps))
    ensures
      var g := Run(FRESH, steps).value.gate;
      g.hasObserved && Some(g.observed) == Latest(Reports(steps))
  {
    NeverReturningIsNeverStale(steps);
    QuiescentObservesLatestIff(steps);
  }

  const ABA: seq<Step> := [
    Observe(0, Some("a"), false), Observe(1, Some("b"), false), TakeTarget(1),
    Observe(2, Some("a"), false), Answered(1, ReturnsTrue), Publish(1), TakeTarget(1)]

  /** The hypothesis is needed: a, then b, then a again while b is loading, ends quiet on b. */
  lemma ReturningRevisionIsLost()
    ensures Run(FRESH, ABA).Some? && Quiescent(Run(FRESH, ABA).value)
    ensures Run(FRESH, ABA).value.gate.observed == Some("b") && Latest(Reports(ABA)) == Some(Some("a"))
  {
    var s1 := Apply(FRESH, ABA[0]);
    var s2 := Apply(s1, ABA[1]);
    var s3 := Apply(s2, ABA[2]);
    var s4 := Apply(s3, ABA[3]);
    var s5 := Apply(s4, ABA[4]);
    var s6 := Apply(s5, ABA[5]);
    assert Run(FRESH, ABA[..0]) == Some(FRESH);
    RunPrefix(ABA, 0, s1); RunPrefix(ABA, 1, s2); RunPrefix(ABA, 2, s3); RunPrefix(ABA, 3, s4);
    RunPrefix(ABA, 4, s5); RunPrefix(ABA, 5, s6); RunPrefix(ABA, 6, Apply(s6, ABA[6]));
    assert ABA[..7] == ABA;
    assert Reports(ABA[..0]) == [];
    ReportsPrefix(ABA, 0); ReportsPrefix(ABA, 1); ReportsPrefix(ABA, 2); ReportsPrefix(ABA, 3);
    ReportsPrefix(ABA, 4); ReportsPrefix(ABA, 5); ReportsPrefix(ABA, 6);
    assert Apply(s6, ABA[6]).runners == map[];
  }

  lemma RunPrefix(steps: seq<Step>, n: nat, next: System)
    requires n < |steps| && Run(FRESH, steps[..n]).Some?
    requires Enabled(Run(FRESH, steps[..n]).value, steps[n])
    requires next == Apply(Run(FRESH, steps[..n]).value, steps[n])
    ensures Run(FRESH, steps[..n + 1]) == Some(next)
  {
    assert steps[..n + 1] == steps[..n] + [steps[n]];
    RunExtends(FRESH, steps[..n], steps[n]);
  }

  lemma ReportsPrefix(steps: seq<Step>, n: nat)
    requires n < |steps|
    ensures Reports(steps[..n + 1]) ==
            Reports(steps[..n]) + if steps[n].Observe? then [steps[n].revision] else []
  {
    assert steps[..n + 1][..n] == steps[..n];
  }

  // ---------------------------------------------------------------- the object itself

  datatype Report = Report(revision: Revision, force: bool)

  /** One awaited callback: the reports other callers make meanwhile, then its answer. */
  datatype Await = Await(reports: seq<Report>, answer: Answer)

  /** `Suspended`: the script ran out while the callback was still being awaited. */
  datatype CallResult = Returned(value: bool) | Threw | Suspended

  class ManagedConfigurationSynchronization {
    var hasObservedRevision: bool
    var observedRevision: Revision
    var synchronizationInProgress: bool
    var synchronizationPending: bool
    var pendingRevision: Revision
    var pendingForceSynchronization: bool

    function View(): Gate
      reads this
    {
      Gate(hasObservedRevision, observedRevision, synchronizationInProgress,
           synchronizationPending, pendingRevision, pendingForceSynchronization)
    }

    constructor ()
      ensures View() == FRESH_GATE
    {
      hasObservedRevision, observedRevision := false, None;
      synchronizationInProgress, synchronizationPending := false, false;
      pendingRevision, pendingForceSynchronization := None, false;
    }

    /** The first lock section of `ObserveAsync`. */
    method EnterLock(revision: Revision, force: bool) returns (entry: Entry)
      modifies this
      ensures entry == EntryOf(old(View()), revision, force)
      ensures View() == Enter(old(View()), revision, force)
    {
      if !hasObservedRevision && !force && !synchronizationPending && !synchronizationInProgress {
        observedRevision := revision;
        hasObservedRevision := true;
        return Baseline;
      }
      var revisionChanged := !hasObservedRevision || observedRevision != revision;
      if !force && !revisionChanged && !synchronizationPending {
        return Declined;
      }
      pendingRevision := revision;
      pendingForceSynchronization := pendingForceSynchronization || force;
      synchronizationPending := true;
      if synchronizationInProgress {
        return Queued;
      }
      synchronizationInProgress := true;
      return BecomesRunner;
    }

    method KeepFailedTarget(target: Revision, force: bool)
      modifies this
      ensures View() == PreserveFailedTarget(old(View()), target, force)
    {
      if !synchronizationPending {
        pendingRevision := target;
        pendingForceSynchronization := force;
        synchronizationPending := true;
      }
      synchronizationInProgress := false;
    }

    /** Reports that other calls make while call `id` awaits its callback. */
    method WhileAwaiting(reports: seq<Report>, id: nat, ghost s0: System, ghost before: seq<Step>)
      returns (ghost trace: seq<Step>)
      requires Run(s0, before).Some? && Run(s0, before).value.gate == View()
      requires SingleFlight(Run(s0, before).value) && id in Run(s0, before).value.runners
      modifies this
      ensures Run(s0, trace).Some? && Run(s0, trace).value.gate == View()
      ensures SingleFlight(Run(s0, trace).value)
      ensures Run(s0, trace).value.runners == Run(s0, before).value.runners
    {
      trace := before;
      for i := 0 to |reports|
        invariant Run(s0, trace).Some? && Run(s0, trace).value.gate == View()
        invariant SingleFlight(Run(s0, trace).value)
        invariant Run(s0, trace).value.runners == Run(s0, before).value.runners
      {
        ghost var step := Observe(id + 1, reports[i].revision, reports[i].force);
        ghost var s := Run(s0, trace).value;
        assert Enabled(s, step);
        SingleFlightStep(s, step);
        RunExtends(s0, trace, step);
        var entry := EnterLock(reports[i].revision, reports[i].force);
        trace := trace + [step];
      }
    }

    /** One whole call, against any script of callbacks. Its effect is a run of the
        interleaved system; `true` means that nothing was left pending, `false` and an
        exception mean that something was. */
    method ObserveAsync(id: nat, revision: Revision, force: bool, awaits: seq<Await>, ghost s0: System)
      returns (result: CallResult, ghost trace: seq<Step>)
      requires SingleFlight(s0) && s0.gate == View() && id !in s0.runners
      modifies this
      ensures Run(s0, trace).Some? && Run(s0, trace).value.gate == View()
      ensures SingleFlight(Run(s0, trace).value)
      ensures result.Suspended? <==> id in Run(s0, trace).value.runners
      ensures result == Returned(true) ==> !View().pending
      ensures result == Returned(false) || result.Threw? ==> View().pending
    {
      ghost var first := Observe(id, revision, force);
      SingleFlightStep(s0, first);
      RunExtends(s0, [], first);
      var entry := EnterLock(revision, force);
      trace := [] + [first];
      if entry.Baseline? || entry.Declined? {
        return Returned(true), trace;
      }
      if entry.Queued? {
        return Returned(false), trace;
      }
      var next := 0;
      while true
        invariant 0 <= next <= |awaits|
        invariant Run(s0, trace).Some? && Run(s0, trace).value.gate == View()
        invariant SingleFlight(Run(s0, trace).value)
        invariant id in Run(s0, trace).value.runners && Run(s0, trace).value.runners[id].Deciding?
        decreases |awaits| - next
      {
        trace := Extend(s0, trace, TakeTarget(id));
        if !synchronizationPending {
          synchronizationInProgress := false;
          return Returned(true), trace;
        }
        var target, targetForce := pendingRevision, pendingForceSynchronization;
        synchronizationPending, pendingForceSynchronization := false, false;
        if next == |awaits| {
          return Suspended, trace;
        }
        trace := WhileAwaiting(awaits[next].reports, id, s0, trace);
        var answer := awaits[next].answer;
        next := next + 1;
        trace := AfterAwait(id, target, targetForce, answer, s0, trace);
        if answer != ReturnsTrue {
          return (if answer.Throws? then Threw else Returned(false)), trace;
        }
      }
    }

    /** What the runner does with the callback's answer. */
    method AfterAwait(id: nat, target: Revision, force: bool, answer: Answer, ghost s0: System, ghost before: seq<Step>)
      returns (ghost trace: seq<Step>)
      requires Run(s0, before).Some? && Run(s0, before).value.gate == View()
      requires SingleFlight(Run(s0, before).value)
      requires id in Run(s0, before).value.runners && Run(s0, before).value.runners[id] == Calling(target, force)
      modifies this
      ensures Run(s0, trace).Some? && Run(s0, trace).value.gate == View()
      ensures SingleFlight(Run(s0, trace).value)
      ensures answer == ReturnsTrue ==>
        id in Run(s0, trace).value.runners && Run(s0, trace).value.runners[id].Deciding?
      ensures answer != ReturnsTrue ==> id !in Run(s0, trace).value.runners && View().pending
    {
      trace := Extend(s0, before, Answered(id, answer));
      if answer == ReturnsTrue {
        trace := Extend(s0, trace, Publish(id));
        observedRevision := target;
        hasObservedRevision := true;
      } else {
        trace := Extend(s0, trace, Preserve(id));
        KeepFailedTarget(target, answer.Throws? && force);
      }
    }
  }

  /** Appends an enabled step of call `id` to a run. */
  ghost method Extend(s0: System, before: seq<Step>, step: Step) returns (trace: seq<Step>)
    requires Run(s0, before).Some? && SingleFlight(Run(s0, before).value)
    requires Enabled(Run(s0, before).value, step)
    ensures Run(s0, trace) == Some(Apply(Run(s0, before).value, step))
    ensures SingleFlight(Run(s0, trace).value)
  {
    SingleFlightStep(Run(s0, before).value, step);
    RunExtends(s0, before, step);
    trace := before + [step];
  }
}
