/** `ServerAutomation` itself, for one server: fields updated in place, one method for each piece
    of code between awaits. The methods that stand for events keep the invariants of the saga, the
    power gate and the recovery rate, and each takes the step of the state machine that the theorems
    about runs speak of. */
module Automation {
  import opened Optional
  import opened AutomationModel
  import opened AutomationTheorems
  import opened AutomationProgress

  datatype Operation = AdminStopped | AdminStarted | AdminMaintains | PowerStopped

  function EventOf(op: Operation): Event {
    match op
    case AdminStopped => AdminStop
    case AdminStarted => AdminStart
    case AdminMaintains => Maintenance
    case PowerStopped => PowerStop
  }

  /** What an operation leaves, by its kind. */
  lemma OperationMeans(s: State, c: Config, op: Operation)
    ensures var s' := Next(s, c, EventOf(op));
            && s' == s.(task := s'.task, rt := s'.rt) && Written(s, op, s'.rt)
            && s'.task == (if op in {AdminStopped, AdminStarted} then Idle else s.task)
            && (op == AdminStopped ==> Parked(s'))
            && (op == AdminStarted ==> !RecoveryWanted(s', c.settings))
            && (op == AdminMaintains ==> Paused(s'))
  {
  }

  /** What an operation writes: a stop clears what was pending, a start gives 600 seconds of grace, and
      maintenance an hour. */
  ghost predicate Written(s: State, op: Operation, rt: Runtime) {
    match op
    case AdminStopped =>
      && rt.desired == Some(false) && rt.intentional && rt.reason == StoppedByAdmin && !rt.powerPending
      && rt.pending.None? && rt.maintenanceUntil == s.rt.maintenanceUntil && SeenBefore(s.rt, rt)
      && rt.offlineChecks == s.rt.offlineChecks
    case AdminStarted =>
      && rt.desired == Some(true) && !rt.intentional && rt.reason == NoReason && !rt.powerPending
      && rt.pending.None? && rt.maintenanceUntil == s.now + 600.0 && SeenBefore(s.rt, rt) && rt.offlineChecks == 0
    case AdminMaintains =>
      && rt.desired == Some(false) && rt.intentional && rt.reason == UnderMaintenance
      && rt.powerPending == s.rt.powerPending && rt.pending == s.rt.pending
      && rt.maintenanceUntil == s.now + 3600.0 && SeenBefore(s.rt, rt) && rt.offlineChecks == s.rt.offlineChecks
    case PowerStopped =>
      rt == s.rt.(powerPending := rt.powerPending) && (rt.powerPending <==> s.rt.desired == Some(true))
  }

  predicate SeenBefore(rt: Runtime, rt': Runtime) {
    rt'.lastSeen == rt.lastSeen && rt'.attempts == rt.attempts
  }

  class ServerAutomation {
    const settings: Settings
    const ups: bool
    var rt: Runtime
    var outage: bool
    var lineSince: Option<real>
    var powerConfirmed: bool
    var task: Task
    var checking: bool
    var now: real
    ghost var history: History

    ghost function Now(): State
      reads this
    {
      State(rt, outage, lineSince, powerConfirmed, task, checking, now, history)
    }

    ghost function Setup(): Config {
      Config(ups, settings)
    }

    /** What `SoundMeans` spells out: every mark was in order, every start had steady line power, and
        the recoveries were spaced. */
    ghost predicate Valid()
      reads this
    {
      ValidSettings(settings) && Sound(Now(), Setup())
    }

    /** A new controller on the persisted record. */
    constructor (settings: Settings, ups: bool, rt: Runtime, outage: bool, now: real)
      ensures this.settings == settings && this.ups == ups
      ensures (ValidSettings(settings) && RateList(rt.attempts, rt.attempts, settings)
               && (rt.attempts != [] ==> rt.attempts[|rt.attempts| - 1] <= now)) ==> Valid()
      ensures rt.attempts == [] && rt.pending.None? ==> Fresh(Now(), Config(ups, settings))
      ensures this.rt == rt && this.outage == outage && lineSince.None? && powerConfirmed == !ups && !checking
      ensures task == if rt.pending.Some? then ResumeCreated(rt.pending.value) else Idle
    {
      this.settings, this.ups, this.rt, this.outage, this.now := settings, ups, rt, outage, now;
      lineSince, powerConfirmed, checking := None, !ups, false;
      task := if rt.pending.Some? then ResumeCreated(rt.pending.value) else Idle;
      history := NO_HISTORY.(recoveries := rt.attempts);
    }

    method PassTime(dt: real)
      requires Valid() && dt >= 0.0
      modifies this
      ensures Valid() && Step(old(Now()), Setup(), Advance(dt), Now())
      ensures Now() == old(Now()).(now := old(now) + dt)
    {
      now := now + dt;
      StepKeepsSound(old(Now()), Setup(), Advance(dt), Now());
    }

    ghost method Note(m: Mark)
      modifies this`history
      ensures Now() == Noted(old(Now()), m)
    {
      history := history.(trace := history.trace + [m], digest := Extend(history.digest, m));
    }

    method IsBlocked() returns (b: bool)
      ensures b == Blocked(Now())
    {
      b := !powerConfirmed || outage;
    }

    method IsAllowed() returns (b: bool)
      ensures b == Allowed(Now())
    {
      b := IsBlocked();
      b := !b && !rt.intentional;
    }

    /** `power_reading`. A reading without line power blocks the automation at once, and if it is critical
        flags an outage; a reading that ends a minute of line power, and no other, clears both. */
    method ReadPower(line: bool, critical: bool)
      requires Valid()
      modifies this
      ensures Valid() && Step(old(Now()), Setup(), PowerReading(line, critical), Now())
      ensures PowerNoted(old(Now()), line, critical, Now())
      ensures !line ==> Blocked(Now())
      ensures Blocked(old(Now())) && !Blocked(Now()) ==> SteadyLine(history.readings)
      ensures rt == old(rt) && task == old(task)
    {
      ReadingIsNoted(Now(), ups, line, critical);
      PowerReadStep(line, critical);
      StepKeepsSound(old(Now()), Setup(), PowerReading(line, critical), Now());
    }

    method PowerReadStep(line: bool, critical: bool)
      modifies this
      ensures Now() == PowerRead(old(Now()), line, critical)
      ensures !line ==> !powerConfirmed
      ensures rt == old(rt) && task == old(task) && (outage ==> old(outage) || (!line && critical))
      ensures PowerInv(old(Now()), ups) && Blocked(old(Now())) && !Blocked(Now()) ==> SteadyLine(history.readings)
    {
      ReadingEndsMinute(Now(), ups, line, critical);
      history := history.(readings := history.readings + [Reading(now, line)]);
      if !line {
        lineSince := None;
        powerConfirmed := false;
        if critical && !outage { outage := true; }
        return;
      }
      if lineSince.None? { lineSince := Some(now); }
      if now - lineSince.value >= 60.0 {
        powerConfirmed := true;
        if outage { outage := false; }
      }
    }

    /** `observe_operation`, by the kind of operation it recognised. It issues nothing itself. A stop
        parks the server (`StopIsSticky`), maintenance pauses it and leaves its task (`MaintenancePauses`),
        a start releases it, and a power stop is remembered for a server that was to run. */
    method ObserveOperation(op: Operation)
      requires Valid()
      modifies this
      ensures Valid() && Step(old(Now()), Setup(), EventOf(op), Now())
      ensures history == old(history)
      ensures Written(old(Now()), op, rt) && task == if op in {AdminStopped, AdminStarted} then Idle else old(task)
      ensures op == AdminStopped ==> Parked(Now())
      ensures op == AdminStarted ==> !RecoveryWanted(Now(), settings)
      ensures op == AdminMaintains ==> Paused(Now())
    {
      Observe(op);
      OperationMeans(old(Now()), Setup(), op);
      StepKeepsSound(old(Now()), Setup(), EventOf(op), Now());
    }

    method Observe(op: Operation)
      modifies this
      ensures Now() == Next(old(Now()), Setup(), EventOf(op))
    {
      match op {
        case PowerStopped =>
          rt := rt.(powerPending := rt.desired == Some(true));
        case AdminStopped =>
          task := Idle;
          rt := rt.(desired := Some(false), intentional := true, reason := StoppedByAdmin);
          rt := rt.(powerPending := false, pending := None);
        case AdminStarted =>
          task := Idle;
          rt := rt.(desired := Some(true), intentional := false, reason := NoReason, powerPending := false);
          rt := rt.(maintenanceUntil := now + 600.0, offlineChecks := 0, pending := None);
        case AdminMaintains =>
          rt := rt.(desired := Some(false), intentional := true, reason := UnderMaintenance);
          rt := rt.(maintenanceUntil := now + 3600.0);
      }
    }

    // -------------------------------------------------------------- the restart coroutine

    method Abort()
      modifies this
      ensures Now() == Aborted(old(Now()))
    {
      rt := rt.(pending := None);
      task := Idle;
    }

    /** A start is issued only when no outage is flagged, no administrator intends the server to be
        down and, with a UPS, line power has been steady. */
    method IssueStart(recovery: bool)
      modifies this
      ensures Now() == StartNow(old(Now()), recovery)
      ensures history != old(history) ==>
                && !old(rt).intentional && !old(outage)
                && (ups && PowerInv(old(Now()), ups) ==> SteadyLine(history.readings))
    {
      var allowed := IsAllowed();
      if !allowed {
        Abort();
        return;
      }
      rt := rt.(pending := Some(Pending(recovery, Starting, false)));
      task := AwaitStart(recovery);
      Note(StartIssued(recovery, SteadyLine(history.readings) && !outage));
    }

    method IssueStop()
      modifies this
      ensures Now() == StopNow(old(Now()))
    {
      task := AwaitStop;
      Note(StopIssued);
    }

    method RecordJob(next: Task)
      modifies this
      ensures Now() == JobRecorded(old(Now()), next)
    {
      if rt.pending.None? {
        Abort();
      } else {
        rt := rt.(pending := Some(rt.pending.value.(hasJob := true)));
        task := next;
      }
    }

    /** `finish`. */
    method Finish()
      modifies this
      ensures Now() == old(Now()).(rt := FinishedRecord(old(rt)))
    {
      rt := rt.(pending := None, desired := Some(true), intentional := false, reason := NoReason);
      rt := rt.(powerPending := false, offlineChecks := 0, lastSeen := Some(Online), maintenanceUntil := 0.0);
    }

    /** One turn of `wait_state(server, "online")`: two ready checks in a row end it. */
    method CheckReady(confirmations: nat, reply: Reply, resumed: bool, recovery: bool)
      modifies this
      ensures Now() == if resumed then Checked(old(Now()), confirmations, reply, (n: nat) => ResumeAwaitOnline(n))
                       else Checked(old(Now()), confirmations, reply, (n: nat) => AwaitOnline(recovery, n))
    {
      var confirmed := 0;
      match reply {
        case Ready =>
          confirmed := confirmations + 1;
          Note(ReadyCheck);
          if confirmed >= 2 {
            Finish();
            task := AwaitNotification;
            Note(Succeeded);
            return;
          }
        case NotReady =>
          Note(UnreadyCheck);
        case Failure =>
          Abort();
          return;
        case TimedOut =>
          Abort();
          return;
        case _ =>
          return;
      }
      task := if resumed then ResumeAwaitOnline(confirmed) else AwaitOnline(recovery, confirmed);
    }

    method BeginRestart(recovery: bool)
      modifies this
      ensures Now() == RestartBegins(old(Now()), recovery)
    {
      var allowed := IsAllowed();
      if allowed {
        task := AwaitStatus(recovery);
      } else {
        Abort();
      }
    }

    method SeeStatus(recovery: bool, status: Status)
      modifies this
      ensures Now() == StatusSeen(old(Now()), recovery, status)
    {
      var allowed := IsAllowed();
      if (recovery && status != Offline) || (!recovery && status != Online) || !allowed {
        Abort();
        return;
      }
      rt := rt.(desired := Some(true), pending := Some(Pending(recovery, Warning, false)));
      if recovery {
        Note(SawOffline);
        IssueStart(true);
      } else {
        task := AwaitWarnings;
      }
    }

    method EndWarnings(console: bool)
      modifies this
      ensures Now() == WarningsOver(old(Now()), console)
    {
      var allowed := IsAllowed();
      if !allowed {
        Abort();
        return;
      }
      rt := rt.(pending := Some(Pending(false, Stopping, false)));
      if console {
        task := AwaitFlush;
      } else {
        IssueStop();
      }
    }

    method BeginResume(p: Pending)
      modifies this
      ensures Now() == ResumeBegins(old(Now()), p)
    {
      if p.stage == Warning {
        Abort();
        return;
      }
      var blocked := IsBlocked();
      if blocked {
        task := ResumeAwaitPower(p);
      } else {
        ActOnResume(p);
      }
    }

    method ActOnResume(p: Pending)
      modifies this
      ensures Now() == ResumeActs(old(Now()), p)
    {
      var allowed := IsAllowed();
      if !allowed {
        Abort();
      } else if p.hasJob {
        task := ResumeAwaitJob(p);
      } else {
        task := ResumeAwaitStatus(p);
      }
    }

    method SeeResumeStatus(p: Pending, status: Status)
      modifies this
      ensures Now() == ResumeSees(old(Now()), p, status)
    {
      if status == Offline {
        BeginRestart(true);
      } else if status == Online && p.stage == Starting {
        task := ResumeAwaitOnline(0);
      } else {
        Abort();
      }
    }

    /** The scheduled or recovery restart goes on with the answer it was waiting for: exactly as each await
        should for each answer, and touching nothing else. It issues no start and, before the flush, no stop
        while the power or an administrator forbids it. */
    method Continue(reply: Reply)
      requires Valid()
      modifies this
      ensures Valid() && Step(old(Now()), Setup(), TaskReply(reply), Now())
      ensures Answered(old(Now()), reply, Now()) && SameAround(old(Now()), Now())
      ensures old(task) == AwaitStatus(false) ==>
                (task == AwaitWarnings <==>
                   reply == Saw(Online) && old(powerConfirmed) && !old(outage) && !old(rt).intentional)
      ensures old(task) == AwaitStatus(true) ==>
                (task == AwaitStart(true) <==>
                   reply == Saw(Offline) && old(powerConfirmed) && !old(outage) && !old(rt).intentional)
      ensures !Allowed(old(Now())) ==> NoStart(old(Now()), Now())
      ensures !Allowed(old(Now())) && !old(task).AwaitFlush? ==> NoStop(old(Now()), Now())
    {
      TaskAnswers(Now(), reply);
      TaskKeepsAround(Now(), reply);
      GoOn(reply);
      CommandsAreGated(old(Now()), reply);
      StepKeepsSound(old(Now()), Setup(), TaskReply(reply), Now());
    }

    method GoOn(reply: Reply)
      modifies this
      ensures Now() == TaskStep(old(Now()), reply)
    {
      match task {
        case Idle =>
        case Created(recovery) => BeginRestart(recovery);
        case AwaitStatus(recovery) =>
          if reply.Saw? { SeeStatus(recovery, reply.status); } else if reply == Failure { Abort(); }
        case AwaitWarnings =>
          if reply.WarningsDone? { EndWarnings(reply.console); } else if reply == Failure { Abort(); }
        case AwaitFlush => ContinueStop(reply);
        case AwaitStop => ContinueStop(reply);
        case AwaitStopJob => ContinueStop(reply);
        case AwaitOffline => ContinueStop(reply);
        case AwaitStart(recovery) =>
          if reply == Accepted { RecordJob(AwaitStartJob(recovery)); } else if reply == Failure { Abort(); }
        case AwaitStartJob(recovery) =>
          if reply == JobSucceeded {
            task := AwaitOnline(recovery, 0);
          } else if reply in {JobFailed, TimedOut, Failure} { Abort(); }
        case AwaitOnline(recovery, confirmations) => CheckReady(confirmations, reply, false, recovery);
        case AwaitNotification => task := Idle;
        case ResumeCreated(p) => BeginResume(p);
        case ResumeAwaitOnline(confirmations) => CheckReady(confirmations, reply, true, true);
        case _ => ContinueResume(reply);
      }
    }

    /** The part of a restart that stops the server. */
    method ContinueStop(reply: Reply)
      requires task.AwaitFlush? || task.AwaitStop? || task.AwaitStopJob? || task.AwaitOffline?
      modifies this
      ensures Now() == TaskStep(old(Now()), reply)
    {
      match task {
        case AwaitFlush =>
          if reply == Accepted { IssueStop(); } else if reply == Failure { Abort(); }
        case AwaitStop =>
          if reply == Accepted { RecordJob(AwaitStopJob); } else if reply == Failure { Abort(); }
        case AwaitStopJob =>
          if reply == JobSucceeded {
            task := AwaitOffline;
            Note(StopSucceeded);
          } else if reply in {JobFailed, TimedOut, Failure} { Abort(); }
        case AwaitOffline =>
          if reply == Saw(Offline) {
            Note(SawOffline);
            IssueStart(false);
          } else if reply in {TimedOut, Failure} { Abort(); }
      }
    }

    /** The waits of `resume` before it acts. */
    method ContinueResume(reply: Reply)
      requires task.ResumeAwaitPower? || task.ResumeAwaitJob? || task.ResumeAwaitStatus?
      modifies this
      ensures Now() == TaskStep(old(Now()), reply)
    {
      match task {
        case ResumeAwaitPower(p) =>
          var blocked := IsBlocked();
          if !blocked { ActOnResume(p); }
        case ResumeAwaitJob(p) =>
          if reply != JobRunning { task := ResumeAwaitStatus(p); }
        case ResumeAwaitStatus(p) =>
          if reply.Saw? { SeeResumeStatus(p, reply.status); } else if reply == Failure { Abort(); }
      }
    }

    // -------------------------------------------------------------- launching and monitoring

    method LaunchTask(recovery: bool) returns (launched: bool)
      modifies this
      ensures launched == old(task.Idle?) && Now() == Launch(old(Now()), recovery)
      ensures task == (if launched then Created(recovery) else old(task)) && rt == old(rt)
      ensures history.trace == old(history).trace + if launched then [Launched(recovery)] else []
    {
      if task != Idle { return false; }
      task := Created(recovery);
      Note(Launched(recovery));
      return true;
    }

    /** The schedule's turn in `tick`: it launches the restart unless a task is running, power is not
        confirmed, an outage is flagged or an administrator intends the server to be down. */
    method TakeDueSchedule()
      requires Valid()
      modifies this
      ensures Valid() && Step(old(Now()), Setup(), Due, Now())
      ensures old(task) == Idle && Open(old(Now())) ==>
                task == Created(false) && rt == old(rt) && history.trace == old(history).trace + [Launched(false)]
      ensures old(task) != Idle || !Open(old(Now())) ==> Now() == old(Now())
    {
      TryDue();
      StepKeepsSound(old(Now()), Setup(), Due, Now());
    }

    method TryDue()
      modifies this
      ensures Now() == ScheduleDue(old(Now()))
    {
      if task != Idle { return; }
      var blocked := IsBlocked();
      if !blocked && !rt.intentional { var launched := LaunchTask(false); }
    }

    /** The poll's turn in `tick`, up to the status request. */
    method BeginPoll()
      requires Valid()
      modifies this
      ensures Valid() && Step(old(Now()), Setup(), PollStart, Now())
      ensures Now() == old(Now()).(checking := old(checking) || (old(task) == Idle && settings.enabled))
    {
      if task == Idle && !checking && settings.enabled { checking := true; }
      StepKeepsSound(old(Now()), Setup(), PollStart, Now());
    }

    /** Exactly the attempts of the last hour, in order: of a sorted list the last ones. */
    method RecentAttempts() returns (attempts: seq<real>)
      ensures attempts == Recent(rt.attempts, now)
      ensures forall a :: multiset(attempts)[a] == if now - a < 3600.0 then multiset(rt.attempts)[a] else 0
      ensures Sorted(rt.attempts) ==>
                |attempts| <= |rt.attempts| && attempts == rt.attempts[|rt.attempts| - |attempts|..]
    {
      attempts := [];
      for i := 0 to |rt.attempts|
        invariant attempts == Recent(rt.attempts[..i], now)
      {
        assert rt.attempts[..i + 1][..i] == rt.attempts[..i];
        if now - rt.attempts[i] < 3600.0 { attempts := attempts + [rt.attempts[i]]; }
      }
      assert rt.attempts[..|rt.attempts|] == rt.attempts;
      forall a ensures multiset(attempts)[a] == if now - a < 3600.0 then multiset(rt.attempts)[a] else 0 {
        RecentCounts(rt.attempts, now, a);
      }
      if Sorted(rt.attempts) { RecentIsSuffix(rt.attempts, now); }
    }

    /** `check_server` after its status request; None when the agent could not be reached. A recovery is
        recorded and launched if and only if one is wanted (`RecoveryWanted`); an unreachable agent is no
        evidence. */
    method CheckServer(status: Option<Status>)
      requires Valid() && checking
      modifies this
      ensures Valid() && Step(old(Now()), Setup(), PollReply(status), Now())
      ensures CheckedOut(old(Now()), settings, status, Now()) && StatusNoted(old(Now()), settings, status, Now())
      ensures NoStart(old(Now()), Now()) && NoStop(old(Now()), Now())
      ensures |history.trace| > |old(history).trace| && LastIs(history.trace, Returned) <==>
                old(task) == Idle && status == Some(Online) && ReturnsFromPower(old(Now()), settings)
    {
      ChecksOut(Now(), settings, status);
      StatusIsNoted(Now(), settings, status);
      HandleStatus(status);
      PowerReturn(old(Now()), settings, status);
      StepKeepsSound(old(Now()), Setup(), PollReply(status), Now());
    }

    method HandleStatus(status: Option<Status>)
      requires checking
      modifies this
      ensures Now() == PollReturns(old(Now()), settings, status)
    {
      checking := false;
      if status.None? {
        rt := rt.(offlineChecks := 0);
        return;
      }
      if task != Idle { return; }
      match status.value {
        case Online => CheckOnline();
        case Busy => rt := rt.(lastSeen := Some(Busy), offlineChecks := 0);
        case Offline => CheckOffline();
      }
    }

    method CheckOnline()
      modifies this
      ensures Now() == SeenOnline(old(Now()), settings)
    {
      var returning := rt.reason == UnderMaintenance
                       && (rt.lastSeen in {Some(Offline), Some(Busy)} || now >= rt.maintenanceUntil);
      rt := rt.(lastSeen := Some(Online), offlineChecks := 0);
      if returning || rt.desired.None? { rt := rt.(desired := Some(true)); }
      if returning { rt := rt.(intentional := false); }
      var blocked := IsBlocked();
      if rt.powerPending && settings.recoverAfterPower && !blocked {
        Finish();
        Note(Returned);
      }
    }

    /** A recovery is launched exactly when it is wanted, and with the spacing of the recoveries kept. */
    method CheckOffline()
      requires task == Idle
      modifies this
      ensures Now() == SeenOffline(old(Now()), settings)
      ensures 1 <= settings.threshold ==>
                history.recoveries ==
                old(history).recoveries + if RecoveryWanted(old(Now()), settings) then [now] else []
      ensures ValidSettings(settings) && RateInv(old(Now()), settings) ==> Spaced(history.recoveries, settings)
    {
      if ValidSettings(settings) && RateInv(Now(), settings) { SpacingKept(Now(), settings); }
      if 1 <= settings.threshold { WantedIsRecovers(Now(), settings); }
      var count := if rt.offlineChecks + 1 < settings.threshold then rt.offlineChecks + 1 else settings.threshold;
      rt := rt.(lastSeen := Some(Offline), offlineChecks := count);
      var blocked := IsBlocked();
      if rt.intentional || rt.desired != Some(true) || blocked { return; }
      if rt.powerPending && !settings.recoverAfterPower { return; }
      if count < settings.threshold || now < rt.maintenanceUntil { return; }
      var attempts := RecentAttempts();
      if |attempts| >= settings.maxPerHour { return; }
      if attempts != [] && now - attempts[|attempts| - 1] < settings.cooldown { return; }
      rt := rt.(attempts := attempts + [now]);
      var launched := LaunchTask(true);
      history := history.(recoveries := history.recoveries + [now]);
    }

    /** The administrator's "run now", under the same conditions. */
    method RunScriptNow()
      requires Valid()
      modifies this
      ensures Valid() && Step(old(Now()), Setup(), RunScript, Now())
      ensures old(task) == Idle && Open(old(Now())) ==>
                task == Created(false) && rt == old(rt) && history.trace == old(history).trace + [Launched(false)]
      ensures old(task) != Idle || !Open(old(Now())) ==> Now() == old(Now())
    {
      TryRun();
      StepKeepsSound(old(Now()), Setup(), RunScript, Now());
    }

    method TryRun()
      modifies this
      ensures Now() == RunNow(old(Now()))
    {
      var allowed := IsAllowed();
      if allowed { var launched := LaunchTask(false); }
    }

    /** Saving the schedule cancels a countdown and nothing else: no command is issued, and a restart
        past its warnings goes on. */
    method SaveSchedule()
      requires Valid()
      modifies this
      ensures Valid() && Step(old(Now()), Setup(), AutomationModel.SaveSchedule, Now())
      ensures history == old(history) && !(rt.pending.Some? && rt.pending.value.stage == Warning && task != Idle)
      ensures Now() == if old(task) != Idle && old(rt).pending.Some? && old(rt).pending.value.stage == Warning
                       then old(Now()).(task := Idle, rt := old(rt).(pending := None))
                       else old(Now())
    {
      CancelCountdown();
      StepKeepsSound(old(Now()), Setup(), AutomationModel.SaveSchedule, Now());
    }

    method CancelCountdown()
      modifies this
      ensures Now() == ScheduleSaved(old(Now()))
    {
      if task != Idle && rt.pending.Some? && rt.pending.value.stage == Warning { Abort(); }
    }

    /** What the next controller finds: `__init__` and the resume loop of `run`. */
    method Reboot()
      requires Valid()
      modifies this
      ensures Valid() && Step(old(Now()), Setup(), ControllerRestart, Now())
      ensures rt == old(rt) && outage == old(outage) && powerConfirmed == !ups && lineSince.None? && !checking
      ensures history.readings == [] && history.recoveries == old(history).recoveries
      ensures task == if rt.pending.Some? then ResumeCreated(rt.pending.value) else Idle
      ensures NoStart(old(Now()), Now()) && NoStop(old(Now()), Now())
    {
      Restart();
      StepKeepsSound(old(Now()), Setup(), ControllerRestart, Now());
    }

    method Restart()
      modifies this
      ensures Now() == ControllerRestarts(old(Now()), ups)
    {
      lineSince, powerConfirmed, checking := None, !ups, false;
      task := Idle;
      if rt.pending.Some? { task := ResumeCreated(rt.pending.value); }
      history := history.(readings := []);
      Note(Restarted);
    }
  }
}
