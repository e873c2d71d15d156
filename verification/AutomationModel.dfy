/** What the controller's restart and recovery automation does for one server
    (mc_manager/automation.py), as a state machine. A step is the code between two awaits; the
    task is named by the await it is suspended at. */
module AutomationModel {
  import opened Optional

  datatype Status = Online | Offline | Busy

  datatype Reason = NoReason | StoppedByAdmin | UnderMaintenance

  datatype Stage = Warning | Stopping | Starting

  datatype Pending = Pending(recovery: bool, stage: Stage, hasJob: bool)

  /** The persisted runtime record; writing it is durable. */
  datatype Runtime = Runtime(desired: Option<bool>, intentional: bool, reason: Reason, powerPending: bool,
                             pending: Option<Pending>, maintenanceUntil: real, offlineChecks: nat,
                             lastSeen: Option<Status>, attempts: seq<real>)

  datatype Settings = Settings(enabled: bool, threshold: nat, cooldown: real, maxPerHour: nat, recoverAfterPower: bool)

  predicate ValidSettings(c: Settings) {
    1 <= c.threshold <= 10 && 60.0 <= c.cooldown <= 3600.0 && 1 <= c.maxPerHour <= 12
  }

  /** Where the restart or resume coroutine is suspended. */
  datatype Task =
    | Idle
    | Created(recovery: bool)
    | AwaitStatus(recovery: bool)
    | AwaitWarnings
    | AwaitFlush
    | AwaitStop
    | AwaitStopJob
    | AwaitOffline
    | AwaitStart(recovery: bool)
    | AwaitStartJob(recovery: bool)
    | AwaitOnline(recovery: bool, confirmations: nat)
    | AwaitNotification
    | ResumeCreated(pending: Pending)
    | ResumeAwaitPower(pending: Pending)
    | ResumeAwaitJob(pending: Pending)
    | ResumeAwaitStatus(pending: Pending)
    | ResumeAwaitOnline(confirmations: nat)

  /** What the task's await comes back with: an exception, a deadline, an agent's answer, or a
      readiness check that succeeded (online, and its player list answered) or did not. */
  datatype Reply =
    | Failure | TimedOut | Saw(status: Status) | Accepted | JobSucceeded | JobFailed | JobRunning
    | Ready | NotReady | MoreWarnings | WarningsDone(console: bool) | Woken

  // ---------------------------------------------------------------- history, kept for the theorems

  datatype Mark =
    | Launched(recovery: bool)
    | StopIssued
    | StopSucceeded
    | SawOffline
    | StartIssued(recovery: bool, steadyLine: bool)
    | ReadyCheck
    | UnreadyCheck
    | Succeeded
    | Returned
    | Restarted

  /** What matters of the marks so far: whether each was in order, the stops issued and whether a
      stop job succeeded since the last scheduled launch, whether the last mark saw the server
      offline, how many ready checks the trace ends with, and whether every start had steady line
      power. */
  datatype Digest = Digest(lawful: bool, stops: nat, stopDone: bool, offline: bool, ready: nat, steady: bool)

  function Extend(d: Digest, m: Mark): Digest {
    match m
    case Launched(recovery) =>
      if recovery then d.(offline := false, ready := 0)
      else d.(stops := 0, stopDone := false, offline := false, ready := 0)
    case StopIssued => d.(lawful := d.lawful && d.stops == 0, stops := d.stops + 1, offline := false, ready := 0)
    case StopSucceeded => d.(stopDone := true, offline := false, ready := 0)
    case SawOffline => d.(offline := true, ready := 0)
    case StartIssued(recovery, steady) =>
      d.(lawful := d.lawful && d.offline && (recovery || d.stopDone), steady := d.steady && steady,
         offline := false, ready := 0)
    case ReadyCheck => d.(offline := false, ready := d.ready + 1)
    case UnreadyCheck => d.(offline := false, ready := 0)
    case Succeeded => d.(lawful := d.lawful && d.ready >= 2, offline := false, ready := 0)
    case Returned => d.(offline := false, ready := 0)
    case Restarted => d.(offline := false, ready := 0)
  }

  datatype Reading = Reading(time: real, line: bool)

  /** `readings` are those since the controller last started. */
  datatype History = History(trace: seq<Mark>, digest: Digest, recoveries: seq<real>, readings: seq<Reading>)

  const NO_HISTORY := History([], Digest(true, 0, false, false, 0, true), [], [])

  datatype State = State(rt: Runtime, outage: bool, lineSince: Option<real>, powerConfirmed: bool, task: Task,
                         checking: bool, now: real, history: History)

  /** When the unbroken run of line-power readings that ends with the latest one began. */
  function LineStart(readings: seq<Reading>): Option<real> {
    if readings == [] || !readings[|readings| - 1].line then None
    else
      var before := LineStart(readings[..|readings| - 1]);
      if before.Some? then before else Some(readings[|readings| - 1].time)
  }

  /** Every reading of a stretch of at least 60 seconds, up to the latest one, confirmed line power. */
  predicate SteadyLine(readings: seq<Reading>) {
    LineStart(readings).Some? && readings != []
    && readings[|readings| - 1].time - LineStart(readings).value >= 60.0
  }

  function Noted(s: State, m: Mark): State {
    s.(history := s.history.(trace := s.history.trace + [m], digest := Extend(s.history.digest, m)))
  }

  // ---------------------------------------------------------------- guards and common endings

  predicate Blocked(s: State) {
    !s.powerConfirmed || s.outage
  }

  predicate Allowed(s: State) {
    !Blocked(s) && !s.rt.intentional
  }

  /** The coroutine's `except Exception`. */
  function Aborted(s: State): State {
    s.(rt := s.rt.(pending := None), task := Idle)
  }

  function FinishedRecord(rt: Runtime): Runtime {
    rt.(pending := None, desired := Some(true), intentional := false, reason := NoReason, powerPending := false,
        offlineChecks := 0, lastSeen := Some(Online), maintenanceUntil := 0.0)
  }

  /** `allowed`, the `starting` record and the start request. */
  function StartNow(s: State, recovery: bool): State {
    if !Allowed(s) then Aborted(s)
    else Noted(s.(rt := s.rt.(pending := Some(Pending(recovery, Starting, false))), task := AwaitStart(recovery)),
               StartIssued(recovery, SteadyLine(s.history.readings) && !s.outage))
  }

  function StopNow(s: State): State {
    Noted(s.(task := AwaitStop), StopIssued)
  }

  /** Recording the job id: it fails if the record has lost its pending entry meanwhile. */
  function JobRecorded(s: State, next: Task): State {
    if s.rt.pending.None? then Aborted(s)
    else s.(rt := s.rt.(pending := Some(s.rt.pending.value.(hasJob := true))), task := next)
  }

  function Completed(s: State): State {
    Noted(s.(rt := FinishedRecord(s.rt), task := AwaitNotification), Succeeded)
  }

  /** One readiness check of `wait_state("online")`. */
  function Checked(s: State, confirmations: nat, r: Reply, next: nat -> Task): State {
    match r
    case Ready =>
      var seen := Noted(s, ReadyCheck);
      if confirmations + 1 >= 2 then Completed(seen) else seen.(task := next(confirmations + 1))
    case NotReady => Noted(s, UnreadyCheck).(task := next(0))
    case Failure => Aborted(s)
    case TimedOut => Aborted(s)
    case _ => s
  }

  // ---------------------------------------------------------------- restart and resume

  /** `restart` from its first line to its first await. */
  function RestartBegins(s: State, recovery: bool): State {
    if !Allowed(s) then Aborted(s) else s.(task := AwaitStatus(recovery))
  }

  function StatusSeen(s: State, recovery: bool, status: Status): State {
    if recovery && status != Offline then Aborted(s)
    else if !recovery && status != Online then Aborted(s)
    else if !Allowed(s) then Aborted(s)
    else
      var warned := s.(rt := s.rt.(desired := Some(true), pending := Some(Pending(recovery, Warning, false))));
      if recovery then StartNow(Noted(warned, SawOffline), true) else warned.(task := AwaitWarnings)
  }

  function WarningsOver(s: State, console: bool): State {
    if !Allowed(s) then Aborted(s) else
      var stopping := s.(rt := s.rt.(pending := Some(Pending(false, Stopping, false))));
      if console then stopping.(task := AwaitFlush) else StopNow(stopping)
  }

  /** `resume` once it may act. */
  function ResumeActs(s: State, p: Pending): State {
    if !Allowed(s) then Aborted(s)
    else s.(task := if p.hasJob then ResumeAwaitJob(p) else ResumeAwaitStatus(p))
  }

  function ResumeBegins(s: State, p: Pending): State {
    if p.stage == Warning then Aborted(s)
    else if Blocked(s) then s.(task := ResumeAwaitPower(p))
    else ResumeActs(s, p)
  }

  function ResumeSees(s: State, p: Pending, status: Status): State {
    if status == Offline then RestartBegins(s, true)
    else if status == Online && p.stage == Starting then s.(task := ResumeAwaitOnline(0))
    else Aborted(s)
  }

  /** The task runs from one await to the next. */
  function TaskStep(s: State, r: Reply): State {
    match s.task
    case Idle => s
    case Created(recovery) => RestartBegins(s, recovery)
    case AwaitStatus(recovery) =>
      (match r case Saw(status) => StatusSeen(s, recovery, status) case Failure => Aborted(s) case _ => s)
    case AwaitWarnings =>
      (match r case WarningsDone(console) => WarningsOver(s, console) case Failure => Aborted(s) case _ => s)
    case AwaitFlush =>
      (match r case Accepted => StopNow(s) case Failure => Aborted(s) case _ => s)
    case AwaitStop =>
      (match r case Accepted => JobRecorded(s, AwaitStopJob) case Failure => Aborted(s) case _ => s)
    case AwaitStopJob =>
      (match r
       case JobSucceeded => Noted(s.(task := AwaitOffline), StopSucceeded)
       case JobFailed => Aborted(s) case TimedOut => Aborted(s) case Failure => Aborted(s) case _ => s)
    case AwaitOffline =>
      (match r
       case Saw(status) => if status == Offline then StartNow(Noted(s, SawOffline), false) else s
       case TimedOut => Aborted(s) case Failure => Aborted(s) case _ => s)
    case AwaitStart(recovery) =>
      (match r case Accepted => JobRecorded(s, AwaitStartJob(recovery)) case Failure => Aborted(s) case _ => s)
    case AwaitStartJob(recovery) =>
      (match r
       case JobSucceeded => s.(task := AwaitOnline(recovery, 0))
       case JobFailed => Aborted(s) case TimedOut => Aborted(s) case Failure => Aborted(s) case _ => s)
    case AwaitOnline(recovery, confirmations) => Checked(s, confirmations, r, (n: nat) => AwaitOnline(recovery, n))
    case AwaitNotification => s.(task := Idle)
    case ResumeCreated(p) => ResumeBegins(s, p)
    case ResumeAwaitPower(p) => if Blocked(s) then s else ResumeActs(s, p)
    case ResumeAwaitJob(p) => if r == JobRunning then s else s.(task := ResumeAwaitStatus(p))
    case ResumeAwaitStatus(p) =>
      (match r case Saw(status) => ResumeSees(s, p, status) case Failure => Aborted(s) case _ => s)
    case ResumeAwaitOnline(confirmations) => Checked(s, confirmations, r, (n: nat) => ResumeAwaitOnline(n))
  }

  // ---------------------------------------------------------------- launching

  function Launch(s: State, recovery: bool): State {
    if s.task != Idle then s else Noted(s.(task := Created(recovery)), Launched(recovery))
  }

  /** The schedule's turn in `tick`. */
  function ScheduleDue(s: State): State {
    if s.task == Idle && !Blocked(s) && !s.rt.intentional then Launch(s, false) else s
  }

  /** The administrator's "run now". */
  function RunNow(s: State): State {
    if Allowed(s) then Launch(s, false) else s
  }

  /** Saving the schedule cancels a countdown. */
  function ScheduleSaved(s: State): State {
    if s.task != Idle && s.rt.pending.Some? && s.rt.pending.value.stage == Warning then Aborted(s) else s
  }

  // ---------------------------------------------------------------- the monitor

  function Recent(attempts: seq<real>, now: real): seq<real> {
    if attempts == [] then []
    else
      var rest := Recent(attempts[..|attempts| - 1], now);
      if now - attempts[|attempts| - 1] < 3600.0 then rest + [attempts[|attempts| - 1]] else rest
  }

  function SeenOnline(s: State, c: Settings): State {
    var returning := s.rt.reason == UnderMaintenance
                     && (s.rt.lastSeen in {Some(Offline), Some(Busy)} || s.now >= s.rt.maintenanceUntil);
    var rt := s.rt.(lastSeen := Some(Online), offlineChecks := 0,
                    desired := if returning || s.rt.desired.None? then Some(true) else s.rt.desired,
                    intentional := if returning then false else s.rt.intentional);
    if rt.powerPending && c.recoverAfterPower && !Blocked(s) then Noted(s.(rt := FinishedRecord(rt)), Returned)
    else s.(rt := rt)
  }

  function OfflineCount(s: State, c: Settings): nat {
    if s.rt.offlineChecks + 1 < c.threshold then s.rt.offlineChecks + 1 else c.threshold
  }

  /** Whether a server seen offline is to be recovered now. */
  predicate Recovers(s: State, c: Settings) {
    var attempts := Recent(s.rt.attempts, s.now);
    && !s.rt.intentional && s.rt.desired == Some(true) && !Blocked(s)
    && (s.rt.powerPending ==> c.recoverAfterPower)
    && OfflineCount(s, c) >= c.threshold && s.now >= s.rt.maintenanceUntil
    && |attempts| < c.maxPerHour
    && (attempts != [] ==> s.now - attempts[|attempts| - 1] >= c.cooldown)
  }

  function SeenOffline(s: State, c: Settings): State {
    var seen := s.(rt := s.rt.(lastSeen := Some(Offline), offlineChecks := OfflineCount(s, c)));
    if !Recovers(s, c) then seen
    else
      var launched := Launch(seen.(rt := seen.rt.(attempts := Recent(s.rt.attempts, s.now) + [s.now])), true);
      launched.(history := launched.history.(recoveries := s.history.recoveries + [s.now]))
  }

  function PollBegins(s: State, c: Settings): State {
    if s.checking || s.task != Idle || !c.enabled then s else s.(checking := true)
  }

  /** `check_server` after its await. */
  function PollReturns(s: State, c: Settings, status: Option<Status>): State {
    if !s.checking then s else
      var idle := s.(checking := false);
      if status.None? then idle.(rt := s.rt.(offlineChecks := 0))
      else if s.task != Idle then idle
      else match status.value
        case Online => SeenOnline(idle, c)
        case Offline => SeenOffline(idle, c)
        case Busy => idle.(rt := s.rt.(lastSeen := Some(Busy), offlineChecks := 0))
  }

  // ---------------------------------------------------------------- operations, power, restarts

  function AdminStops(s: State): State {
    s.(task := Idle, rt := s.rt.(desired := Some(false), intentional := true, reason := StoppedByAdmin,
                                 powerPending := false, pending := None))
  }

  function AdminStarts(s: State): State {
    s.(task := Idle, rt := s.rt.(desired := Some(true), intentional := false, reason := NoReason, powerPending := false,
                                 maintenanceUntil := s.now + 600.0, offlineChecks := 0, pending := None))
  }

  function Maintained(s: State): State {
    s.(rt := s.rt.(desired := Some(false), intentional := true, reason := UnderMaintenance,
                   maintenanceUntil := s.now + 3600.0))
  }

  function PowerStops(s: State): State {
    s.(rt := s.rt.(powerPending := s.rt.desired == Some(true)))
  }

  function PowerRead(s: State, line: bool, critical: bool): State {
    var seen := s.(history := s.history.(readings := s.history.readings + [Reading(s.now, line)]));
    if !line then seen.(lineSince := None, powerConfirmed := false, outage := s.outage || critical)
    else
      var since := if s.lineSince.None? then s.now else s.lineSince.value;
      if s.now - since >= 60.0 then seen.(lineSince := Some(since), powerConfirmed := true, outage := false)
      else seen.(lineSince := Some(since))
  }

  /** The controller dies and starts again: only the record and the outage flag survive. */
  function ControllerRestarts(s: State, ups: bool): State {
    Noted(s.(lineSince := None, powerConfirmed := !ups, checking := false,
             task := if s.rt.pending.Some? then ResumeCreated(s.rt.pending.value) else Idle,
             history := s.history.(readings := [])), Restarted)
  }

  datatype Event =
    | Advance(dt: real)
    | PowerReading(line: bool, critical: bool)
    | AdminStop | AdminStart | Maintenance | PowerStop
    | TaskReply(reply: Reply)
    | PollStart | PollReply(status: Option<Status>)
    | Due | RunScript | SaveSchedule
    | ControllerRestart

  datatype Config = Config(ups: bool, settings: Settings)

  function Next(s: State, c: Config, e: Event): State {
    match e
    case Advance(dt) => s.(now := s.now + dt)
    case PowerReading(line, critical) => PowerRead(s, line, critical)
    case AdminStop => AdminStops(s)
    case AdminStart => AdminStarts(s)
    case Maintenance => Maintained(s)
    case PowerStop => PowerStops(s)
    case TaskReply(reply) => TaskStep(s, reply)
    case PollStart => PollBegins(s, c.settings)
    case PollReply(status) => PollReturns(s, c.settings, status)
    case Due => ScheduleDue(s)
    case RunScript => RunNow(s)
    case SaveSchedule => ScheduleSaved(s)
    case ControllerRestart => ControllerRestarts(s, c.ups)
  }

  /** A controller that has just started on a record that has never seen a recovery. */
  predicate Fresh(s: State, c: Config) {
    && s.rt.attempts == [] && s.rt.pending.None? && s.lineSince.None? && s.powerConfirmed == !c.ups
    && s.task == Idle && !s.checking && s.history == NO_HISTORY
  }

  ghost predicate Step(s: State, c: Config, e: Event, s': State) {
    s' == Next(s, c, e) && (e.Advance? ==> e.dt >= 0.0)
  }

  ghost predicate Run(states: seq<State>, c: Config, events: seq<Event>) {
    |states| == |events| + 1 && forall i | 0 <= i < |events| :: Step(states[i], c, events[i], states[i + 1])
  }

  /** What every step keeps holds throughout a run. */
  lemma {:induction false} Throughout(states: seq<State>, c: Config, events: seq<Event>, inv: State -> bool, j: nat)
    requires Run(states, c, events) && inv(states[0]) && j < |states|
    requires forall s, e, s' | inv(s) && Step(s, c, e, s') :: inv(s')
    ensures inv(states[j])
  {
    if j > 0 {
      Throughout(states, c, events, inv, j - 1);
      assert Step(states[j - 1], c, events[j - 1], states[j]);
    }
  }
}
