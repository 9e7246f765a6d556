/** When a backup is due (crates/resticpal-core/src/schedule.rs). Times are milliseconds. */
module Schedule {
  import opened Common
  import opened Config

  type Time = int

  const SECOND: int := 1000
  const MINUTE: int := 60 * SECOND
  const HOUR: int := 60 * MINUTE
  const DAY: int := 24 * HOUR

  /** The last instant chrono can represent; a checked addition beyond it yields nothing. */
  const MAX_TIME: Time := 8_210_266_876_799_999

  function CheckedAdd(t: Time, duration: int): Option<Time> {
    if t + duration <= MAX_TIME then Some(t + duration) else None
  }

  function UnwrapOr<T>(value: Option<T>, default: T): T {
    if value.Some? then value.value else default
  }

  datatype Trigger = Manual | Scheduled | ResumeCatchUp

  datatype Blocker = WakeGrace | NetworkUnavailable | BatteryDisallowed | MeteredNetworkDisallowed

  datatype Decision =
    | AlreadyRunning
    | Idle(nextDeadline: Time)
    | Waiting(blockers: seq<Blocker>, retryAt: Option<Time>)
    | Start(trigger: Trigger)

  datatype Snapshot = Snapshot(
    now: Time,
    lastSuccess: Option<Time>,
    resumedAt: Option<Time>,
    notBefore: Option<Time>,
    manualRequested: bool,
    backupRunning: bool,
    networkRequired: bool,
    networkAvailable: bool,
    onBattery: bool,
    meteredNetwork: bool)

  function CompletionDeadline(lastSuccess: Option<Time>, now: Time, intervalHours: nat): Time {
    match lastSuccess
    case None => now
    case Some(completed) => UnwrapOr(CheckedAdd(Min(completed, now), intervalHours * HOUR), now)
  }

  function Later(deadline: Time, notBefore: Option<Time>): Time {
    match notBefore
    case None => deadline
    case Some(t) => Max(deadline, t)
  }

  function NextDeadline(config: ScheduleConfig, s: Snapshot): Time {
    var scheduled := CompletionDeadline(s.lastSuccess, s.now, config.intervalHours);
    if s.manualRequested then scheduled else Later(scheduled, s.notBefore)
  }

  function GraceEnd(config: ScheduleConfig, s: Snapshot): Option<Time> {
    if s.manualRequested || s.resumedAt.None? then None
    else
      var end := UnwrapOr(CheckedAdd(s.resumedAt.value, config.wakeGraceSeconds * SECOND), s.now);
      if s.now < end then Some(end) else None
  }

  function When(condition: bool, blocker: Blocker): seq<Blocker> {
    if condition then [blocker] else []
  }

  function Blockers(config: ScheduleConfig, s: Snapshot): seq<Blocker> {
    When(GraceEnd(config, s).Some?, WakeGrace)
    + When(s.networkRequired && !s.networkAvailable, NetworkUnavailable)
    + When(!s.manualRequested && s.onBattery && !config.allowOnBattery, BatteryDisallowed)
    + When(s.meteredNetwork && !config.allowMeteredNetwork, MeteredNetworkDisallowed)
  }

  function Decide(config: ScheduleConfig, s: Snapshot): (d: Decision)
    ensures d.Waiting? ==> d.blockers != []
  {
    if s.backupRunning then AlreadyRunning
    else if !s.manualRequested && s.now < NextDeadline(config, s) then Idle(NextDeadline(config, s))
    else if Blockers(config, s) != [] then Waiting(Blockers(config, s), GraceEnd(config, s))
    else Start(if s.manualRequested then Manual else if s.resumedAt.Some? then ResumeCatchUp else Scheduled)
  }

  // ---------------------------------------------------------------- what the decision means

  /** Nothing outside the schedule itself stands in the way of an unattended start. */
  predicate Unblocked(config: ScheduleConfig, s: Snapshot) {
    && (s.resumedAt.Some? ==> s.resumedAt.value + config.wakeGraceSeconds * SECOND <= s.now
                              || s.resumedAt.value + config.wakeGraceSeconds * SECOND > MAX_TIME)
    && (s.networkRequired ==> s.networkAvailable)
    && (s.onBattery ==> config.allowOnBattery)
    && (s.meteredNetwork ==> config.allowMeteredNetwork)
  }

  /** The time has come: a full interval since the last success, and past the backoff time. */
  predicate Due(config: ScheduleConfig, s: Snapshot) {
    && (s.lastSuccess.Some? ==> s.lastSuccess.value + config.intervalHours * HOUR <= s.now)
    && (s.notBefore.Some? ==> s.notBefore.value <= s.now)
  }

  /** An unattended start happens exactly when the interval and the backoff have both elapsed and
      nothing blocks it; a last success recorded in the future never makes it due. */
  lemma AutomaticStartIff(config: ScheduleConfig, s: Snapshot)
    requires !s.backupRunning && !s.manualRequested
    requires config.intervalHours > 0 && s.now + config.intervalHours * HOUR <= MAX_TIME
    ensures Decide(config, s).Start? <==> Due(config, s) && Unblocked(config, s)
    ensures Decide(config, s).Idle? <==> !Due(config, s)
  {
    assert Due(config, s) <==> s.now >= NextDeadline(config, s);
    assert Unblocked(config, s) <==> Blockers(config, s) == [];
  }

  /** At the end of representable time the interval cannot be added and the backup counts as due. */
  lemma OverflowingIntervalIsDue(config: ScheduleConfig, s: Snapshot)
    requires !s.backupRunning && !s.manualRequested && s.lastSuccess.Some?
    requires Min(s.lastSuccess.value, s.now) + config.intervalHours * HOUR > MAX_TIME
    ensures Decide(config, s).Idle? <==> s.notBefore.Some? && s.notBefore.value > s.now
  {
    assert CompletionDeadline(s.lastSuccess, s.now, config.intervalHours) == s.now;
  }

  /** A requested backup ignores interval, backoff, wake grace and battery, but not the network. */
  lemma ManualStartIff(config: ScheduleConfig, s: Snapshot)
    requires !s.backupRunning && s.manualRequested
    ensures Decide(config, s).Start? <==>
              (s.networkRequired ==> s.networkAvailable) && (s.meteredNetwork ==> config.allowMeteredNetwork)
    ensures !Decide(config, s).Idle?
  {
    assert GraceEnd(config, s) == None;
    assert Blockers(config, s) == [] <==>
           (s.networkRequired ==> s.networkAvailable) && (s.meteredNetwork ==> config.allowMeteredNetwork);
  }

  /** However wrong the recorded success, no reported deadline is later than one interval from now
      or the backoff time, and an idle deadline is never in the past. */
  lemma IdleDeadlineIsBounded(config: ScheduleConfig, s: Snapshot)
    ensures CompletionDeadline(s.lastSuccess, s.now, config.intervalHours) <= s.now + config.intervalHours * HOUR
    ensures Decide(config, s).Idle? ==>
              s.now < Decide(config, s).nextDeadline <= Later(s.now + config.intervalHours * HOUR, s.notBefore)
  {
  }
}
