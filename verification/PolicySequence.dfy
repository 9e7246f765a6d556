/** The anti-rollback sequence of managed policies: worker, cache and restarts under one management source
    (apps/resticpal-service/src/main.rs, management.rs; crates/resticpal-core/src/management.rs). Fetching and
    signatures are abstract: a reply is an authentic payload or nothing. */
module PolicySequence {
  import opened Common
  import opened Schedule

  const MANAGEMENT_SCHEMA_VERSION: nat := 1
  const MAX_CLOCK_SKEW: int := 5 * MINUTE
  const MAX_SIGNED_MANIFEST_LIFETIME: int := 30 * DAY

  datatype Payload = Payload(schema: nat, sequence: nat, issuedAt: Time, expiresAt: Option<Time>, policy: string)

  /** `validate_payload`: which manifests count at an instant. */
  predicate Acceptable(p: Payload, now: Time, minimum: Option<nat>, signed: bool) {
    && p.schema == MANAGEMENT_SCHEMA_VERSION
    && p.sequence != 0
    && (minimum.Some? ==> minimum.value <= p.sequence)
    && p.issuedAt <= now + MAX_CLOCK_SKEW
    && match p.expiresAt
       case None => !signed
       case Some(expiresAt) =>
         && p.issuedAt < expiresAt <= p.issuedAt + MAX_SIGNED_MANIFEST_LIFETIME
         && now <= expiresAt
  }

  /** The cached manifest is judged at the time it was verified, so it does not age. */
  datatype Cached = Cached(payload: Payload, verifiedAt: Time)

  function LoadCache(cache: Option<Cached>, signed: bool): Option<Payload> {
    if cache.Some? && Acceptable(cache.value.payload, cache.value.verifiedAt, None, signed)
    then Some(cache.value.payload) else None
  }

  function Fetch(reply: Option<Payload>, now: Time, minimum: Option<nat>, signed: bool): Option<Payload> {
    if reply.Some? && Acceptable(reply.value, now, minimum, signed) then reply else None
  }

  /** What the environment decides during one round: the server's reply, whether the policy resolves against the
      local configuration, and when the cache file is written, if it can be. */
  datatype Round = Round(now: Time, reply: Option<Payload>, resolves: bool, savedAt: Option<Time>)

  function SequenceOf(payload: Option<Payload>): Option<nat> {
    if payload.Some? then Some(payload.value.sequence) else None
  }

  /** The result and the cache file it wrote, if any. */
  function LoadBest(cache: Option<Cached>, round: Round, signed: bool): (Option<Payload>, Option<Cached>) {
    var cached := LoadCache(cache, signed);
    var fetched := Fetch(round.reply, round.now, SequenceOf(cached), signed);
    if fetched.None? || SequenceOf(cached) == SequenceOf(fetched) then (if round.resolves then cached else None, None)
    else if round.resolves && round.savedAt.Some? then (fetched, Some(Cached(fetched.value, round.savedAt.value)))
    else (None, None)
  }

  function RefreshPolicy(minimum: nat, round: Round, signed: bool): (Option<Payload>, Option<Cached>) {
    var fetched := Fetch(round.reply, round.now, Some(minimum), signed);
    if fetched.None? || fetched.value.sequence == minimum then (fetched, None)
    else if round.resolves && round.savedAt.Some? then (fetched, Some(Cached(fetched.value, round.savedAt.value)))
    else (None, None)
  }

  datatype ApplyOutcome = Applied | RuntimeBusy | SourceChanged | Rejected

  /** `applied` lists the sequences the runtime took, `since` the first one of this process's worker. `late` records a
      cache written after its manifest stopped being acceptable, `exposed` a refresh before the worker's first
      success. */
  datatype Management = Management(
    signed: bool,
    cache: Option<Cached>,
    sequence: nat,
    activated: bool,
    applied: seq<nat>,
    since: Option<nat>,
    late: bool,
    exposed: bool)

  datatype Step =
    | Restart(round: Round)
    | Activate(round: Round, outcome: ApplyOutcome)
    | Refresh(round: Round, outcome: ApplyOutcome)

  predicate Enabled(m: Management, step: Step) {
    match step
    case Restart(_) => true
    case Activate(_, _) => !m.activated
    case Refresh(_, _) => m.activated
  }

  function Write(m: Management, written: Option<Cached>): Management {
    if written.None? then m else m.(cache := written, late := m.late || LoadCache(written, m.signed).None?)
  }

  /** The worker takes a policy over. */
  function Take(m: Management, payload: Payload): Management {
    m.(sequence := payload.sequence, applied := m.applied + [payload.sequence],
       since := if m.since.Some? then m.since else Some(|m.applied|), exposed := false)
  }

  function Apply(m: Management, step: Step): Management {
    match step
    case Restart(round) =>
      var (loaded, written) := LoadBest(m.cache, round, m.signed);
      var restarted := Write(m, written).(sequence := 0, activated := false, since := None);
      if loaded.Some? then restarted.(applied := m.applied + [loaded.value.sequence]) else restarted
    case Activate(round, outcome) =>
      var (loaded, written) := LoadBest(m.cache, round, m.signed);
      var activated := Write(m, written).(activated := true);
      if loaded.Some? && outcome.Applied? then Take(activated, loaded.value) else activated
    case Refresh(round, outcome) =>
      var (loaded, written) := RefreshPolicy(m.sequence, round, m.signed);
      var refreshed := Write(m, written).(exposed := m.exposed || m.since.None?);
      if loaded.Some? && loaded.value.sequence > m.sequence && outcome.Applied? then Take(refreshed, loaded.value)
      else refreshed
  }

  function Fresh(signed: bool, cache: Option<Cached>): Management {
    Management(signed, cache, 0, false, [], None, false, false)
  }

  function Run(m: Management, steps: seq<Step>): Option<Management> {
    if steps == [] then Some(m)
    else
      var last := |steps| - 1;
      match Run(m, steps[..last])
      case None => None
      case Some(before) => if Enabled(before, steps[last]) then Some(Apply(before, steps[last])) else None
  }

  // ---------------------------------------------------------------- invariants

  predicate Increasing(s: seq<nat>, from: nat) {
    forall i, j :: from <= i < j < |s| ==> s[i] < s[j]
  }

  function Last(m: Management): nat {
    if m.applied == [] then 0 else m.applied[|m.applied| - 1]
  }

  /** The worker's minimum is what it last applied, and everything it applied was increasing. */
  predicate Monotone(m: Management) {
    match m.since
    case None => m.sequence == 0
    case Some(from) =>
      && from < |m.applied| && m.sequence == Last(m)
      && Increasing(m.applied, from) && forall i :: from <= i < |m.applied| ==> m.applied[i] <= m.sequence
  }

  /** The cache is usable and not behind what was applied. */
  predicate Covered(m: Management) {
    m.applied != [] && !m.late && !m.exposed ==>
      LoadCache(m.cache, m.signed).Some? && LoadCache(m.cache, m.signed).value.sequence >= Last(m)
  }

  lemma TakeKeepsMonotone(m: Management, payload: Payload)
    requires Monotone(m) && payload.sequence > m.sequence
    ensures Monotone(Take(m, payload))
  {
  }

  /** Only the worker's sequence, its applied sequences and where they start matter. */
  lemma SameSequences(m: Management, other: Management)
    requires Monotone(m) && other.sequence == m.sequence && other.applied == m.applied && other.since == m.since
    ensures Monotone(other)
  {
  }

  /** What loading gives is never behind the usable cache, and is what the cache then holds. */
  lemma LoadBestCovers(cache: Option<Cached>, round: Round, signed: bool)
    ensures
      var (loaded, written) := LoadBest(cache, round, signed);
      var cached := LoadCache(cache, signed);
      && (loaded.Some? && cached.Some? ==> cached.value.sequence <= loaded.value.sequence)
      && (loaded.Some? ==> loaded.value.sequence > 0)
      && (written.Some? ==> loaded == Some(written.value.payload))
      && (loaded.Some? && written.None? ==> cached == loaded)
  {
  }

  lemma ActivateKeepsMonotone(m: Management, round: Round, outcome: ApplyOutcome)
    requires Monotone(m) && m.since.None?
    ensures Monotone(Apply(m, Activate(round, outcome)))
  {
    LoadBestCovers(m.cache, round, m.signed);
    var (loaded, written) := LoadBest(m.cache, round, m.signed);
    var activated := Write(m, written).(activated := true);
    SameSequences(m, activated);
    hide Monotone, LoadBest, Take;
    if loaded.Some? && outcome.Applied? {
      TakeKeepsMonotone(activated, loaded.value);
    }
  }

  lemma RefreshKeepsMonotone(m: Management, round: Round, outcome: ApplyOutcome)
    requires Monotone(m)
    ensures Monotone(Apply(m, Refresh(round, outcome)))
  {
    var (loaded, written) := RefreshPolicy(m.sequence, round, m.signed);
    var refreshed := Write(m, written).(exposed := m.exposed || m.since.None?);
    SameSequences(m, refreshed);
    hide Monotone, RefreshPolicy, Take;
    if loaded.Some? && loaded.value.sequence > m.sequence && outcome.Applied? {
      TakeKeepsMonotone(refreshed, loaded.value);
    }
  }

  lemma StepKeepsMonotone(m: Management, step: Step)
    requires Monotone(m) && Enabled(m, step) && (m.since.Some? ==> m.activated)
    ensures Monotone(Apply(m, step)) && (Apply(m, step).since.Some? ==> Apply(m, step).activated)
  {
    match step
    case Restart(_) =>
    case Activate(round, outcome) => ActivateKeepsMonotone(m, round, outcome);
    case Refresh(round, outcome) => RefreshKeepsMonotone(m, round, outcome);
  }

  lemma RestartKeepsCovered(m: Management, round: Round)
    requires Covered(m)
    ensures Covered(Apply(m, Restart(round)))
  {
    LoadBestCovers(m.cache, round, m.signed);
  }

  lemma ActivateKeepsCovered(m: Management, round: Round, outcome: ApplyOutcome)
    requires Covered(m)
    ensures Covered(Apply(m, Activate(round, outcome)))
  {
    LoadBestCovers(m.cache, round, m.signed);
  }

  lemma RefreshKeepsCovered(m: Management, round: Round, outcome: ApplyOutcome)
    requires Covered(m) && Monotone(m)
    ensures Covered(Apply(m, Refresh(round, outcome)))
  {
  }

  lemma {:induction false} RunKeeps(m: Management, steps: seq<Step>)
    requires Monotone(m) && Covered(m) && (m.since.Some? ==> m.activated) && Run(m, steps).Some?
    ensures
      var after := Run(m, steps).value;
      Monotone(after) && Covered(after) && (after.since.Some? ==> after.activated) && after.signed == m.signed
  {
    if steps != [] {
      var last := |steps| - 1;
      RunKeeps(m, steps[..last]);
      var before := Run(m, steps[..last]).value;
      StepKeepsMonotone(before, steps[last]);
      match steps[last]
      case Restart(round) => RestartKeepsCovered(before, round);
      case Activate(round, outcome) => ActivateKeepsCovered(before, round, outcome);
      case Refresh(round, outcome) => RefreshKeepsCovered(before, round, outcome);
    }
  }

  // ---------------------------------------------------------------- what a rollback needs

  /** In every run, from the worker's first applied policy on, the applied sequences strictly increase. */
  lemma AppliedStrictlyIncrease(signed: bool, cache: Option<Cached>, steps: seq<Step>)
    requires Run(Fresh(signed, cache), steps).Some?
    ensures
      var m := Run(Fresh(signed, cache), steps).value;
      m.since.Some? ==> m.since.value < |m.applied| && Increasing(m.applied, m.since.value) && m.sequence == Last(m)
  {
    RunKeeps(Fresh(signed, cache), steps);
  }

  /** In every run, unless a manifest expired before its cache was written or a worker refreshed before its first
      applied policy, the cache is never behind what was applied, and a restart never returns an older policy. */
  lemma RestartNeverOlder(signed: bool, cache: Option<Cached>, steps: seq<Step>, round: Round)
    requires Run(Fresh(signed, cache), steps).Some?
    ensures
      var m := Run(Fresh(signed, cache), steps).value;
      m.applied != [] && !m.late && !m.exposed ==>
        && LoadCache(m.cache, signed).Some? && LoadCache(m.cache, signed).value.sequence >= Last(m)
        && (LoadBest(m.cache, round, signed).0.Some? ==> LoadBest(m.cache, round, signed).0.value.sequence >= Last(m))
  {
    RunKeeps(Fresh(signed, cache), steps);
    var m := Run(Fresh(signed, cache), steps).value;
    LoadBestCovers(m.cache, round, signed);
  }

  /** A reply that is acceptable now and carries a chosen sequence. */
  function Replay(sequence: nat, now: Time): Payload {
    Payload(MANAGEMENT_SCHEMA_VERSION, sequence, now, Some(now + DAY), "")
  }

  /** Some refresh applies a sequence not above the last applied one exactly when the worker's minimum is below it. */
  lemma RefreshRollsBackIff(m: Management, now: Time)
    requires Monotone(m) && m.activated
    ensures (exists round, outcome :: RollsBack(m, round, outcome)) <==> m.sequence < Last(m)
    ensures m.since.Some? ==> !exists round, outcome :: RollsBack(m, round, outcome)
  {
    if m.sequence < Last(m) {
      var round := Round(now, Some(Replay(m.sequence + 1, now)), true, Some(now));
      assert RollsBack(m, round, Applied);
    }
  }

  predicate RollsBack(m: Management, round: Round, outcome: ApplyOutcome) {
    var after := Apply(m, Refresh(round, outcome));
    |after.applied| > |m.applied| && Last(after) <= Last(m)
  }

  /** The gap is reachable: after a restart that applied the cached policy, an activation that finds the runtime busy
      leaves the minimum at zero, and any acceptable older manifest is applied next. */
  lemma BusyActivationRollsBack(current: Payload, older: Payload, now: Time, verifiedAt: Time, signed: bool)
    requires Acceptable(current, verifiedAt, None, signed) && Acceptable(older, now, None, signed)
    requires older.sequence < current.sequence
    ensures
      var idle := Round(now, None, true, None);
      var steps := [Restart(idle), Activate(idle, RuntimeBusy),
                    Refresh(Round(now, Some(older), true, Some(now)), Applied)];
      var m := Run(Fresh(signed, Some(Cached(current, verifiedAt))), steps);
      m.Some? && m.value.applied == [current.sequence, older.sequence] && !m.value.late
  {
    var start := Fresh(signed, Some(Cached(current, verifiedAt)));
    var idle := Round(now, None, true, None);
    var first, second := Restart(idle), Activate(idle, RuntimeBusy);
    var third := Refresh(Round(now, Some(older), true, Some(now)), Applied);
    var restarted := Apply(start, first);
    assert restarted == start.(applied := [current.sequence]);
    var busy := Apply(restarted, second);
    assert busy == restarted.(activated := true);
    assert [first][..0] == [] && [first, second][..1] == [first] && [first, second, third][..2] == [first, second];
    assert Run(start, [first]) == Some(restarted);
    assert Run(start, [first, second]) == Some(busy);
  }

  predicate RestartsOlder(m: Management, round: Round) {
    var loaded := LoadBest(m.cache, round, m.signed).0;
    loaded.Some? && loaded.value.sequence < Last(m)
  }

  /** Some restart returns an older policy than the last applied one exactly when the cache is behind it or, where there
      is no usable cache, when it is not the first. */
  lemma RestartRollsBackIff(m: Management, now: Time)
    ensures (exists round :: RestartsOlder(m, round)) <==>
            match LoadCache(m.cache, m.signed)
            case Some(cached) => cached.sequence < Last(m)
            case None => Last(m) > 1
  {
    var cached := LoadCache(m.cache, m.signed);
    forall round
      ensures RestartsOlder(m, round) ==> if cached.Some? then cached.value.sequence < Last(m) else Last(m) > 1
    {
      LoadBestCovers(m.cache, round, m.signed);
    }
    if cached.Some? && cached.value.sequence < Last(m) {
      assert RestartsOlder(m, Round(now, None, true, None));
    }
    if cached.None? && Last(m) > 1 {
      assert RestartsOlder(m, Round(now, Some(Replay(1, now)), true, Some(now)));
    }
  }

  /** An unusable cache is reachable: a manifest that expires between its verification and the writing of its cache is
      applied, and the next restart applies any acceptable older one. */
  lemma ExpiredCacheRollsBack(current: Payload, older: Payload, now: Time, savedAt: Time, later: Time, signed: bool)
    requires Acceptable(current, now, None, signed) && Acceptable(older, later, None, signed)
    requires older.sequence < current.sequence && current.expiresAt.Some? && current.expiresAt.value < savedAt
    ensures
      var steps := [Activate(Round(now, Some(current), true, Some(savedAt)), Applied),
                    Restart(Round(later, Some(older), true, Some(later)))];
      var m := Run(Fresh(signed, None), steps);
      m.Some? && m.value.applied == [current.sequence, older.sequence] && m.value.late && !m.value.exposed
  {
    var start := Fresh(signed, None);
    var first := Activate(Round(now, Some(current), true, Some(savedAt)), Applied);
    var second := Restart(Round(later, Some(older), true, Some(later)));
    var activated := Apply(start, first);
    assert activated.cache == Some(Cached(current, savedAt)) && activated.late
           && activated.applied == [current.sequence];
    assert LoadCache(activated.cache, signed).None?;
    assert [first][..0] == [] && [first, second][..1] == [first];
    assert Run(start, [first]) == Some(activated);
  }

  // ---------------------------------------------------------------- the worker

  /** The management thread and the cache file it replaces. */
  class ManagementWorker {
    const signed: bool
    var cache: Option<Cached>
    var sequence: nat
    var activated: bool
    ghost var applied: seq<nat>
    ghost var since: Option<nat>
    ghost var late: bool
    ghost var exposed: bool

    ghost function View(): Management
      reads this
    {
      Management(signed, cache, sequence, activated, applied, since, late, exposed)
    }

    constructor (signed: bool, cache: Option<Cached>)
      ensures View() == Fresh(signed, cache)
    {
      this.signed := signed;
      this.cache := cache;
      sequence, activated := 0, false;
      applied, since, late, exposed := [], None, false, false;
    }

    method SaveCache(payload: Payload, savedAt: Option<Time>) returns (ok: bool)
      modifies this`cache, this`late
      ensures ok == savedAt.Some?
      ensures View() == Write(old(View()), if ok then Some(Cached(payload, savedAt.value)) else None)
    {
      if savedAt.None? {
        return false;
      }
      cache := Some(Cached(payload, savedAt.value));
      late := late || LoadCache(cache, signed).None?;
      return true;
    }

    method LoadBestPolicy(round: Round) returns (loaded: Option<Payload>)
      modifies this`cache, this`late
      ensures loaded == LoadBest(old(cache), round, signed).0
      ensures View() == Write(old(View()), LoadBest(old(cache), round, signed).1)
    {
      var cached := LoadCache(cache, signed);
      var minimum := SequenceOf(cached);
      var fetched := Fetch(round.reply, round.now, minimum, signed);
      if fetched.None? || minimum == Some(fetched.value.sequence) {
        return if round.resolves then cached else None;
      }
      if !round.resolves {
        return None;
      }
      var ok := SaveCache(fetched.value, round.savedAt);
      return if ok then fetched else None;
    }

    method ActivateSource(round: Round, outcome: ApplyOutcome)
      requires !activated
      modifies this
      ensures View() == Apply(old(View()), Activate(round, outcome))
    {
      var loaded := LoadBestPolicy(round);
      activated := true;
      if loaded.Some? && outcome.Applied? {
        Adopt(loaded.value);
      }
    }

    method RefreshSource(round: Round, outcome: ApplyOutcome)
      requires activated
      modifies this
      ensures View() == Apply(old(View()), Refresh(round, outcome))
    {
      var fetched := Fetch(round.reply, round.now, Some(sequence), signed);
      exposed := exposed || since.None?;
      if fetched.None? || fetched.value.sequence == sequence || !round.resolves {
        return;
      }
      var ok := SaveCache(fetched.value, round.savedAt);
      if ok && outcome.Applied? {
        Adopt(fetched.value);
      }
    }

    method Adopt(payload: Payload)
      modifies this
      ensures View() == Take(old(View()), payload)
    {
      sequence := payload.sequence;
      applied, since := applied + [payload.sequence], if since.Some? then since else Some(|applied|);
      exposed := false;
    }
  }
}
