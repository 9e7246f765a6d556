/** The per-page reload plan and the callback that the synchronization runner awaits
    (apps/ResticPal.UI/Services/ConfigurationReloadGate.cs and the reload half of
    apps/ResticPal.UI/MainWindow.xaml.cs), composed with the runner itself. */
module PageReload {
  import opened Common
  import opened ConfigurationSync

  datatype Page = Sources | Repository | Schedule | Retention | Updates

  /** The order in which the callback visits the pages. */
  const PAGES: seq<Page> := [Sources, Repository, Schedule, Retention, Updates]

  datatype Plan = Plan(hasTarget: bool, target: Revision, eligible: set<Page>, pending: set<Page>)

  const FRESH_PLAN := Plan(false, None, {}, {})

  /** The plan adopts the target afresh: nothing completed earlier counts any more. */
  predicate StartsPass(p: Plan, target: Revision, force: bool) {
    force || !p.hasTarget || p.target != target
  }

  function Begin(p: Plan, target: Revision, force: bool, eligible: set<Page>): Plan {
    if StartsPass(p, target, force) then Plan(true, target, eligible, eligible)
    else p.(eligible := p.eligible + eligible, pending := p.pending + (eligible - p.eligible))
  }

  function Complete(p: Plan, page: Page): Plan {
    p.(pending := p.pending - {page})
  }

  predicate Reloadable(p: Plan, unsaved: set<Page>, discard: bool, page: Page) {
    page in p.pending && (discard || page !in unsaved)
  }

  // ---------------------------------------------------------------- the composed system

  /** Progress of the awaited callback. */
  datatype Callback =
    | NotRunning
    | Visiting(rest: seq<Page>, discard: bool)
    | Loading(page: Page, rest: seq<Page>, discard: bool)
    | Finished(result: bool)

  /** `reloaded` and `eligibleAtCall` are history: the successful reloads since the plan last
      adopted a target, and the pages eligible when the callback last started. */
  datatype Window = Window(
    sync: System,
    plan: Plan,
    callback: Callback,
    unsaved: set<Page>,
    reloaded: seq<Page>,
    eligibleAtCall: set<Page>)

  const FRESH_WINDOW := Window(FRESH, FRESH_PLAN, NotRunning, {}, [], {})

  datatype Move =
    | Runner(step: Step)
    | StartCallback(id: nat, eligible: set<Page>, busy: bool, discard: bool)
    | VisitPage
    | PageLoaded(success: bool)
    | Conclude
    | Answer(id: nat)
    | CallbackThrows(id: nat)
    | Edit(unsaved: set<Page>)

  predicate InCallback(w: Window, id: nat) {
    id in w.sync.runners && w.sync.runners[id].Calling?
  }

  predicate CanMove(w: Window, m: Move) {
    match m
    case Runner(step) => !step.Answered? && Enabled(w.sync, step)
    case StartCallback(id, _, _, _) => InCallback(w, id) && w.callback.NotRunning?
    case VisitPage => w.callback.Visiting? && w.callback.rest != []
    case PageLoaded(_) => w.callback.Loading?
    case Conclude => w.callback.Visiting? && w.callback.rest == []
    case Answer(id) => InCallback(w, id) && w.callback.Finished?
    case CallbackThrows(id) => InCallback(w, id) && !w.callback.NotRunning?
    case Edit(unsaved) => Updates !in unsaved
  }

  function MoveTo(w: Window, m: Move): Window
    requires CanMove(w, m)
  {
    match m
    case Runner(step) => w.(sync := Apply(w.sync, step))
    case StartCallback(id, eligible, busy, discard) =>
      var Calling(target, force) := w.sync.runners[id];
      var plan := Begin(w.plan, target, force, eligible);
      w.(plan := plan, eligibleAtCall := eligible,
         reloaded := if StartsPass(w.plan, target, force) then [] else w.reloaded,
         callback :=
           if plan.pending == {} then Finished(true)
           else if busy then Finished(false)
           else if exists page :: Reloadable(plan, w.unsaved, discard, page) then Visiting(PAGES, discard)
           else Visiting([], discard))
    case VisitPage =>
      var Visiting(rest, discard) := w.callback;
      w.(callback := if Reloadable(w.plan, w.unsaved, discard, rest[0]) then Loading(rest[0], rest[1..], discard)
                     else Visiting(rest[1..], discard))
    case PageLoaded(success) =>
      var Loading(page, rest, discard) := w.callback;
      if success then
        w.(callback := Visiting(rest, discard), plan := Complete(w.plan, page), reloaded := w.reloaded + [page])
      else w.(callback := Visiting(rest, discard))
    case Conclude => w.(callback := Finished(w.plan.pending == {}))
    case Answer(id) =>
      w.(callback := NotRunning,
         sync := Apply(w.sync, Answered(id, if w.callback.result then ReturnsTrue else ReturnsFalse)))
    case CallbackThrows(id) => w.(callback := NotRunning, sync := Apply(w.sync, Answered(id, Throws)))
    case Edit(unsaved) => w.(unsaved := unsaved)
  }

  function Play(moves: seq<Move>): Option<Window> {
    if moves == [] then Some(FRESH_WINDOW)
    else
      var before := Play(moves[..|moves| - 1]);
      var last := moves[|moves| - 1];
      if before.Some? && CanMove(before.value, last) then Some(MoveTo(before.value, last)) else None
  }

  // ---------------------------------------------------------------- what every move keeps

  /** The plan accounts for each page of the pass exactly once: still pending, or reloaded. */
  predicate Accounted(w: Window) {
    && (forall page :: page in w.plan.eligible <==> page in w.plan.pending || page in w.reloaded)
    && (forall page :: page in w.reloaded ==> page !in w.plan.pending)
    && Distinct(w.reloaded)
  }

  /** The callback works for the one call in flight, on the plan's own target. */
  ghost predicate OnTarget(w: Window) {
    && (w.callback.NotRunning? || exists id :: InCallback(w, id) && w.plan.target == w.sync.runners[id].target)
    && (!w.callback.NotRunning? ==> w.plan.hasTarget && w.eligibleAtCall <= w.plan.eligible)
    && (w.callback.Finished? && w.callback.result ==> w.plan.pending == {})
    && (w.callback.Loading? ==> w.callback.page in w.plan.pending)
    && Updates !in w.unsaved
  }

  /** A published target is the plan's, with nothing left to reload. */
  predicate Settled(w: Window) {
    forall id :: id in w.sync.runners && w.sync.runners[id].Synchronized? ==>
      && w.callback.NotRunning?
      && w.plan.target == w.sync.runners[id].target
      && w.plan.pending == {}
      && w.eligibleAtCall <= w.plan.eligible
  }

  ghost predicate Invariant(w: Window) {
    SingleFlight(w.sync) && Accounted(w) && OnTarget(w) && Settled(w)
  }

  lemma AccountedStep(w: Window, m: Move)
    requires Accounted(w) && OnTarget(w) && CanMove(w, m)
    ensures Accounted(MoveTo(w, m))
  {
  }

  lemma OnTargetStep(w: Window, m: Move)
    requires Invariant(w) && CanMove(w, m)
    ensures OnTarget(MoveTo(w, m))
  {
    var after := MoveTo(w, m);
    if !w.callback.NotRunning? {
      var id :| InCallback(w, id) && w.plan.target == w.sync.runners[id].target;
      assert InCallback(after, id) || after.callback.NotRunning?;
    } else if m.StartCallback? {
      assert InCallback(after, m.id);
    }
  }

  lemma InvariantStep(w: Window, m: Move)
    requires Invariant(w) && CanMove(w, m)
    ensures Invariant(MoveTo(w, m))
  {
    match m {
      case Runner(step) => SingleFlightStep(w.sync, step);
      case Answer(id) =>
        SingleFlightStep(w.sync, Answered(id, if w.callback.result then ReturnsTrue else ReturnsFalse));
      case CallbackThrows(id) => SingleFlightStep(w.sync, Answered(id, Throws));
      case _ =>
    }
    AccountedStep(w, m);
    OnTargetStep(w, m);
  }

  lemma {:induction false} InvariantAlways(moves: seq<Move>)
    requires Play(moves).Some?
    ensures Invariant(Play(moves).value)
  {
    if moves != [] {
      InvariantAlways(moves[..|moves| - 1]);
      InvariantStep(Play(moves[..|moves| - 1]).value, moves[|moves| - 1]);
    }
  }

  // ---------------------------------------------------------------- main results

  /** When the observed revision advances, every page that was eligible when the callback for it
      started has been reloaded successfully since the plan adopted exactly that target. */
  lemma AdvanceMeansReloaded(moves: seq<Move>, id: nat)
    requires Play(moves).Some? && CanMove(Play(moves).value, Runner(Publish(id)))
    ensures
      var w := Play(moves).value;
      var after := MoveTo(w, Runner(Publish(id)));
      && after.sync.gate.observed == w.plan.target
      && forall page :: page in w.eligibleAtCall ==> page in w.reloaded
  {
    InvariantAlways(moves);
    assert Settled(Play(moves).value);
  }

  /** In every interleaving no page is reloaded twice within one pass of a target. */
  lemma EachPageAtMostOncePerPass(moves: seq<Move>)
    requires Play(moves).Some?
    ensures Distinct(Play(moves).value.reloaded)
    ensures forall page :: page in Play(moves).value.reloaded ==> page !in Play(moves).value.plan.pending
  {
    InvariantAlways(moves);
  }

  /** The discard flag the running callback was started with. */
  function DiscardRequested(moves: seq<Move>): bool {
    if moves == [] then false
    else if moves[|moves| - 1].StartCallback? then moves[|moves| - 1].discard
    else DiscardRequested(moves[..|moves| - 1])
  }

  lemma {:induction false} CallbackKeepsDiscard(moves: seq<Move>)
    requires Play(moves).Some?
    ensures
      var callback := Play(moves).value.callback;
      callback.Visiting? || callback.Loading? ==> callback.discard == DiscardRequested(moves)
  {
    if moves != [] {
      CallbackKeepsDiscard(moves[..|moves| - 1]);
    }
  }

  /** A page that starts to reload has no unsaved edits at that moment, unless the callback in
      progress was started with a discard request. */
  lemma NeverOverwritesUnsavedEdits(moves: seq<Move>, m: Move)
    requires Play(moves).Some? && CanMove(Play(moves).value, m)
    requires !Play(moves).value.callback.Loading? && MoveTo(Play(moves).value, m).callback.Loading?
    ensures DiscardRequested(moves) || MoveTo(Play(moves).value, m).callback.page !in Play(moves).value.unsaved
    ensures MoveTo(Play(moves).value, m).callback.page !in Play(moves).value.reloaded
  {
    CallbackKeepsDiscard(moves);
    InvariantAlways(moves);
  }

  // ---------------------------------------------------------------- one pass of the plan

  datatype PlanCall = BeginCall(offered: set<Page>) | CompleteCall(page: Page)

  /** Calls made while the target stays the same and nothing forces a new pass. */
  function Calls(p: Plan, calls: seq<PlanCall>): Plan {
    if calls == [] then p
    else
      var before := Calls(p, calls[..|calls| - 1]);
      match calls[|calls| - 1]
      case BeginCall(offered) => Begin(before, p.target, false, offered)
      case CompleteCall(page) => Complete(before, page)
  }

  predicate Offers(call: PlanCall, page: Page) {
    call.BeginCall? && page in call.offered
  }

  /** This call is the first to offer the page, and no later call completes it. */
  predicate FirstOfferStands(calls: seq<PlanCall>, page: Page, i: nat)
    requires i < |calls|
  {
    && Offers(calls[i], page)
    && (forall j :: 0 <= j < i ==> !Offers(calls[j], page))
    && (forall j :: i < j < |calls| ==> calls[j] != CompleteCall(page))
  }

  lemma {:induction false} EligibleIffOffered(p: Plan, calls: seq<PlanCall>, page: Page)
    requires p.hasTarget && page !in p.eligible
    ensures Calls(p, calls).hasTarget && Calls(p, calls).target == p.target
    ensures page in Calls(p, calls).eligible <==> exists i :: 0 <= i < |calls| && Offers(calls[i], page)
  {
    if calls != [] {
      var front, last := calls[..|calls| - 1], calls[|calls| - 1];
      EligibleIffOffered(p, front, page);
      assert calls == front + [last];
      if Offers(last, page) {
        assert Offers(calls[|calls| - 1], page);
      } else if page in Calls(p, front).eligible {
        var i :| 0 <= i < |front| && Offers(front[i], page);
        assert Offers(calls[i], page);
      } else {
        assert forall i :: 0 <= i < |front| ==> Offers(calls[i], page) == Offers(front[i], page);
      }
    }
  }

  /** Within a pass a page needs loading exactly when its first offer has not been followed by a completion: offering
      it again after that does not bring it back, and completing it before does not count. */
  lemma {:induction false} PendingExactly(p: Plan, calls: seq<PlanCall>, page: Page)
    requires p.hasTarget && page !in p.eligible && page !in p.pending
    ensures page in Calls(p, calls).pending <==> exists i :: 0 <= i < |calls| && FirstOfferStands(calls, page, i)
  {
    if calls != [] {
      var front, last := calls[..|calls| - 1], calls[|calls| - 1];
      EligibleIffOffered(p, front, page);
      PendingExactly(p, front, page);
      assert calls == front + [last];
      forall i | 0 <= i < |front|
        ensures FirstOfferStands(calls, page, i) <==> FirstOfferStands(front, page, i) && last != CompleteCall(page)
      {
        StandsSnoc(front, last, page, i);
      }
      var n := |front|;
      assert FirstOfferStands(calls, page, n) <==> Offers(last, page) && page !in Calls(p, front).eligible;
    }
  }

  lemma StandsSnoc(front: seq<PlanCall>, last: PlanCall, page: Page, i: nat)
    requires i < |front|
    ensures FirstOfferStands(front + [last], page, i) <==>
            FirstOfferStands(front, page, i) && last != CompleteCall(page)
  {
    var calls := front + [last];
    assert forall j :: 0 <= j < |front| ==> calls[j] == front[j];
    assert calls[|front|] == last;
  }

  // ---------------------------------------------------------------- the objects

  class ConfigurationPageSynchronizationPlan {
    var hasTarget: bool
    var targetRevision: Revision
    var eligiblePages: set<Page>
    var pendingPages: set<Page>

    function View(): Plan
      reads this
    {
      Plan(hasTarget, targetRevision, eligiblePages, pendingPages)
    }

    constructor ()
      ensures View() == FRESH_PLAN
    {
      hasTarget, targetRevision, eligiblePages, pendingPages := false, None, {}, {};
    }

    method BeginTarget(target: Revision, force: bool, eligible: set<Page>)
      modifies this
      ensures View() == Begin(old(View()), target, force, eligible)
      ensures eligible <= eligiblePages && hasTarget && targetRevision == target
    {
      var targetChanged := !hasTarget || targetRevision != target;
      if force || targetChanged {
        hasTarget := true;
        targetRevision := target;
        eligiblePages := eligible;
        pendingPages := eligible;
        return;
      }
      var newlyEligible := eligible - eligiblePages;
      eligiblePages := eligiblePages + eligible;
      pendingPages := pendingPages + newlyEligible;
    }

    method CompletePage(page: Page)
      modifies this
      ensures View() == Complete(old(View()), page)
    {
      pendingPages := pendingPages - {page};
    }
  }

  class MainWindow {
    const plan: ConfigurationPageSynchronizationPlan
    var reloadScopeCount: nat

    constructor ()
      ensures fresh(plan) && plan.View() == FRESH_PLAN && reloadScopeCount == 0
    {
      plan := new ConfigurationPageSynchronizationPlan();
      reloadScopeCount := 0;
    }

    /** The awaited callback. `unsaved[k]` are the pages with unsaved edits when the visit reaches
        the k-th page and `answers[k]` says whether its reload, if attempted, succeeds. */
    method SynchronizeConfigurationPages(target: Revision, force: bool, eligible: set<Page>, busy: bool,
                                         discard: bool, unsaved: seq<set<Page>>, answers: seq<bool>)
      returns (result: bool, loads: seq<Page>)
      requires |unsaved| == |answers| == |PAGES|
      requires forall k :: 0 <= k < |unsaved| ==> Updates !in unsaved[k]
      modifies this, plan
      ensures plan.hasTarget && plan.targetRevision == target && eligible <= plan.eligiblePages
      ensures result <==> plan.pendingPages == {}
      ensures reloadScopeCount == old(reloadScopeCount)
      ensures Distinct(loads)
      ensures forall k :: 0 <= k < |PAGES| && PAGES[k] in loads ==> discard || PAGES[k] !in unsaved[k]
      ensures forall k :: 0 <= k < |PAGES| ==>
        (PAGES[k] in plan.pendingPages <==>
           PAGES[k] in Begin(old(plan.View()), target, force, eligible).pending && (PAGES[k] in loads ==> !answers[k]))
      ensures busy ==> loads == []
    {
      plan.BeginTarget(target, force, eligible);
      loads := [];
      ghost var started := plan.pendingPages;
      if plan.pendingPages == {} {
        return true, loads;
      }
      if busy {
        return false, loads;
      }
      if exists page | page in plan.pendingPages :: discard || page !in unsaved[0] {
        reloadScopeCount := reloadScopeCount + 1;
        for k := 0 to |PAGES|
          invariant plan.hasTarget && plan.targetRevision == target && eligible <= plan.eligiblePages
          invariant reloadScopeCount == old(reloadScopeCount) + 1
          invariant Distinct(loads)
          invariant forall j :: k <= j < |PAGES| ==> PAGES[j] !in loads
          invariant forall j :: 0 <= j < k && PAGES[j] in loads ==> discard || PAGES[j] !in unsaved[j]
          invariant forall j :: 0 <= j < |PAGES| ==>
            (PAGES[j] in plan.pendingPages <==> PAGES[j] in started && (PAGES[j] in loads ==> !answers[j]))
        {
          if PAGES[k] in plan.pendingPages && (discard || PAGES[k] !in unsaved[k]) {
            loads := loads + [PAGES[k]];
            if answers[k] {
              plan.CompletePage(PAGES[k]);
            }
          }
        }
        reloadScopeCount := reloadScopeCount - 1;
      }
      result := plan.pendingPages == {};
    }
  }
}
