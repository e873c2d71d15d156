/** What holds in every interleaving of monitor checks, restart tasks, administrator operations,
    power readings and controller restarts. */
module AutomationTheorems {
  import opened Optional
  import opened AutomationModel

  // ---------------------------------------------------------------- an administrator's stop is sticky

  predicate AdminOperation(e: Event) {
    e in {AdminStop, AdminStart, Maintenance}
  }

  /** Stopped by an administrator, with nothing under way. */
  predicate Parked(s: State) {
    && s.rt.intentional && s.rt.reason == StoppedByAdmin && s.rt.desired == Some(false)
    && !s.rt.powerPending && s.rt.pending.None? && s.task == Idle
  }

  predicate Command(m: Mark) {
    m.StopIssued? || m.StartIssued?
  }

  /** No command was issued after the first n marks. */
  ghost predicate QuietSince(s: State, n: nat) {
    n <= |s.history.trace| && forall i | n <= i < |s.history.trace| :: !Command(s.history.trace[i])
  }

  lemma ParkedStays(s: State, c: Config, e: Event, s': State, n: nat)
    requires Parked(s) && QuietSince(s, n) && Step(s, c, e, s') && !AdminOperation(e)
    ensures Parked(s') && QuietSince(s', n)
  {
  }

  /** After an administrator stops a server, whatever was running then, the automation starts or
      stops nothing, and the record keeps saying so, until the next administrator operation:
      through checks, schedules, "run now", power events and controller restarts. */
  lemma {:induction false} StopIsSticky(states: seq<State>, c: Config, events: seq<Event>, j: nat)
    requires Run(states, c, events) && 1 <= j < |states|
    requires events[0] == AdminStop && forall i | 1 <= i < |events| :: !AdminOperation(events[i])
    ensures Parked(states[j]) && QuietSince(states[j], |states[0].history.trace|)
  {
    var n := |states[0].history.trace|;
    if j == 1 {
      assert Step(states[0], c, events[0], states[1]);
    } else {
      StopIsSticky(states, c, events, j - 1);
      assert Step(states[j - 1], c, events[j - 1], states[j]);
      ParkedStays(states[j - 1], c, events[j - 1], states[j], n);
    }
  }

  // ---------------------------------------------------------------- maintenance is a pause

  /** What ends a maintenance: a restart or resume under way that sees the server ready, or a check
      that sees it online after it was seen otherwise, after an hour, or after a power stop. */
  predicate EndsMaintenance(s: State, c: Config, e: Event) {
    || (e == TaskReply(Ready)
        && (match s.task
            case AwaitOnline(_, confirmations) => confirmations >= 1
            case ResumeAwaitOnline(confirmations) => confirmations >= 1
            case _ => false))
    || (&& e == PollReply(Some(Online)) && s.checking && s.task == Idle
        && (|| s.rt.lastSeen in {Some(Offline), Some(Busy)} || s.now >= s.rt.maintenanceUntil
            || (s.rt.powerPending && c.settings.recoverAfterPower && !Blocked(s))))
  }

  predicate Paused(s: State) {
    s.rt.intentional && s.rt.reason == UnderMaintenance
  }

  /** Nothing was launched or started after the first n marks. */
  ghost predicate NoStartSince(s: State, n: nat) {
    n <= |s.history.trace|
    && forall i | n <= i < |s.history.trace| :: !s.history.trace[i].StartIssued? && !s.history.trace[i].Launched?
  }

  lemma PauseTask(s: State, r: Reply, n: nat)
    requires Paused(s) && NoStartSince(s, n)
    ensures var s' := TaskStep(s, r);
            (Paused(s') <==> !(r == Ready && Checks(s.task) && Confirmations(s.task) >= 1))
            && (Paused(s') ==> NoStartSince(s', n))
  {
    if Checks(s.task) {
      PauseCheck(s, r, n);
    } else {
      PauseRest(s, r, n);
    }
  }

  /** The readiness checks, and how many have succeeded in a row. */
  predicate Checks(t: Task) {
    t.AwaitOnline? || t.ResumeAwaitOnline?
  }

  lemma PauseCheck(s: State, r: Reply, n: nat)
    requires Paused(s) && NoStartSince(s, n) && Checks(s.task)
    ensures var s' := TaskStep(s, r);
            (Paused(s') <==> !(r == Ready && Confirmations(s.task) >= 1)) && (Paused(s') ==> NoStartSince(s', n))
  {
  }

  lemma PauseRest(s: State, r: Reply, n: nat)
    requires Paused(s) && NoStartSince(s, n) && !Checks(s.task)
    ensures var s' := TaskStep(s, r); Paused(s') && NoStartSince(s', n)
  {
    if !Noting(s.task) {
      QuietTask(s, r);
    }
  }

  lemma PausePoll(s: State, c: Config, status: Option<Status>, n: nat)
    requires Paused(s) && NoStartSince(s, n)
    ensures var s' := PollReturns(s, c.settings, status);
            (Paused(s') <==> !EndsMaintenance(s, c, PollReply(status))) && (Paused(s') ==> NoStartSince(s', n))
  {
  }

  lemma PauseStep(s: State, c: Config, e: Event, s': State, n: nat)
    requires Paused(s) && NoStartSince(s, n) && Step(s, c, e, s') && !AdminOperation(e)
    ensures Paused(s') <==> !EndsMaintenance(s, c, e)
    ensures !EndsMaintenance(s, c, e) ==> NoStartSince(s', n)
  {
    match e
    case TaskReply(r) => PauseTask(s, r, n);
    case PollReply(status) => PausePoll(s, c, status, n);
    case _ =>
  }

  /** Unlike a stop, maintenance leaves a running restart alone, and such a restart can end it. It
      lasts, and the automation launches nothing and starts nothing, exactly until an event that
      ends it; a restart that is past its last check can still stop the server. */
  lemma {:induction false} MaintenancePauses(states: seq<State>, c: Config, events: seq<Event>, j: nat)
    requires Run(states, c, events) && 1 <= j < |states| && events[0] == Maintenance
    requires forall i | 1 <= i < |events| :: !AdminOperation(events[i])
    requires forall i | 1 <= i < j - 1 :: !EndsMaintenance(states[i], c, events[i])
    ensures Paused(states[j]) <==> j == 1 || !EndsMaintenance(states[j - 1], c, events[j - 1])
    ensures Paused(states[j]) ==> NoStartSince(states[j], |states[0].history.trace|)
  {
    assert Step(states[j - 1], c, events[j - 1], states[j]);
    if j > 1 {
      MaintenancePauses(states, c, events, j - 1);
      PauseStep(states[j - 1], c, events[j - 1], states[j], |states[0].history.trace|);
    }
  }

  // ---------------------------------------------------------------- the restart saga

  /** Stops issued since the last scheduled restart was launched. */
  function StopsSinceLaunch(trace: seq<Mark>): nat {
    if trace == [] || trace[|trace| - 1] == Launched(false) then 0
    else StopsSinceLaunch(trace[..|trace| - 1]) + (if trace[|trace| - 1] == StopIssued then 1 else 0)
  }

  /** A stop job succeeded since the last scheduled restart was launched. */
  predicate StopDone(trace: seq<Mark>) {
    trace != [] && trace[|trace| - 1] != Launched(false)
    && (trace[|trace| - 1] == StopSucceeded || StopDone(trace[..|trace| - 1]))
  }

  predicate LastIs(trace: seq<Mark>, m: Mark) {
    trace != [] && trace[|trace| - 1] == m
  }

  /** What may be noted after a trace. */
  predicate Fits(trace: seq<Mark>, m: Mark) {
    match m
    case StopIssued => StopsSinceLaunch(trace) == 0
    case StartIssued(recovery, _) => LastIs(trace, SawOffline) && (!recovery ==> StopDone(trace))
    case Succeeded => LastIs(trace, ReadyCheck) && |trace| >= 2 && trace[|trace| - 2] == ReadyCheck
    case _ => true
  }

  function Digested(trace: seq<Mark>): Digest {
    if trace == [] then NO_HISTORY.digest else Extend(Digested(trace[..|trace| - 1]), trace[|trace| - 1])
  }

  lemma {:induction false} DigestMeans(trace: seq<Mark>)
    ensures var d := Digested(trace);
            && d.stops == StopsSinceLaunch(trace) && d.stopDone == StopDone(trace)
            && d.offline == LastIs(trace, SawOffline)
            && (d.ready >= 1 ==> LastIs(trace, ReadyCheck))
            && (d.ready >= 2 ==> |trace| >= 2 && trace[|trace| - 2] == ReadyCheck)
  {
    if trace != [] { DigestMeans(trace[..|trace| - 1]); }
  }

  lemma {:induction false} LawfulAt(trace: seq<Mark>, i: nat)
    requires Digested(trace).lawful && i < |trace|
    ensures Fits(trace[..i], trace[i])
    ensures Digested(trace).steady && trace[i].StartIssued? ==> trace[i].steadyLine
    decreases |trace|
  {
    if i < |trace| - 1 {
      LawfulAt(trace[..|trace| - 1], i);
      assert trace[..|trace| - 1][..i] == trace[..i];
    } else {
      DigestMeans(trace[..i]);
    }
  }

  /** At most two marks are added, to the trace and to the digest alike. */
  ghost predicate Grew(h: History, h': History) {
    var n := |h.trace|;
    && n <= |h'.trace| <= n + 2 && h'.trace[..n] == h.trace
    && h'.digest == if |h'.trace| == n then h.digest
                    else if |h'.trace| == n + 1 then Extend(h.digest, h'.trace[n])
                    else Extend(Extend(h.digest, h'.trace[n]), h'.trace[n + 1])
  }

  lemma TwoNotesGrow(s: State, first: Mark, second: Mark)
    ensures Grew(s.history, Noted(s, first).history)
    ensures Grew(s.history, Noted(Noted(s, first), second).history)
  {
  }

  lemma TaskGrows(s: State, r: Reply)
    ensures Grew(s.history, TaskStep(s, r).history)
  {
    if s.task.AwaitOnline? || s.task.ResumeAwaitOnline? {
      CheckGrows(s, r);
    } else if Noting(s.task) {
      NotingTaskGrows(s, r);
    } else {
      QuietTask(s, r);
    }
  }

  lemma NotingTaskGrows(s: State, r: Reply)
    requires Noting(s.task) && !s.task.AwaitOnline? && !s.task.ResumeAwaitOnline?
    ensures Grew(s.history, TaskStep(s, r).history)
  {
    if s.task.AwaitStatus? || s.task.AwaitOffline? {
      StartGrows(s, s.task.AwaitStatus? && s.task.recovery);
    } else {
      TwoNotesGrow(s, StopIssued, Restarted);
      TwoNotesGrow(s, StopSucceeded, Restarted);
    }
  }

  lemma StartGrows(s: State, recovery: bool)
    ensures Grew(s.history, Noted(s, SawOffline).history)
    ensures Grew(s.history, StartNow(Noted(s, SawOffline), recovery).history)
  {
    TwoNotesGrow(s, SawOffline, StartIssued(recovery, SteadyLine(s.history.readings) && !s.outage));
  }

  lemma CheckGrows(s: State, r: Reply)
    requires s.task.AwaitOnline? || s.task.ResumeAwaitOnline?
    ensures Grew(s.history, TaskStep(s, r).history)
  {
    TwoNotesGrow(s, UnreadyCheck, Restarted);
    TwoNotesGrow(s, ReadyCheck, Succeeded);
  }

  lemma StepGrows(s: State, c: Config, e: Event, s': State)
    requires Step(s, c, e, s')
    ensures Grew(s.history, s'.history)
  {
    match e
    case TaskReply(r) => TaskGrows(s, r);
    case PollReply(status) => PollGrows(s, c.settings, status);
    case ControllerRestart => TwoNotesGrow(s, Restarted, Restarted);
    case _ => TwoNotesGrow(s, Launched(false), Restarted);
  }

  lemma PollGrows(s: State, c: Settings, status: Option<Status>)
    ensures Grew(s.history, PollReturns(s, c, status).history)
  {
    TwoNotesGrow(s, Launched(true), Restarted);
    TwoNotesGrow(s, Returned, Restarted);
  }

  lemma GrewTracks(h: History, h': History)
    requires h.digest == Digested(h.trace) && Grew(h, h')
    ensures h'.digest == Digested(h'.trace)
  {
    var n, trace := |h.trace|, h'.trace;
    if |trace| == n + 2 {
      assert trace[..n + 1][..n] == trace[..n];
      assert Digested(trace[..n + 1]) == Extend(h.digest, trace[n]);
    } else if |trace| == n {
      assert trace == h.trace;
    }
  }

  ghost predicate Tracks(s: State) {
    s.history.digest == Digested(s.history.trace)
  }

  lemma StepTracks(s: State, c: Config, e: Event, s': State)
    requires Tracks(s) && Step(s, c, e, s')
    ensures Tracks(s')
  {
    StepGrows(s, c, e, s');
    GrewTracks(s.history, s'.history);
  }

  /** Between a scheduled launch and its stop. */
  predicate BeforeStop(t: Task) {
    match t
    case Created(recovery) => !recovery
    case AwaitStatus(recovery) => !recovery
    case AwaitWarnings => true
    case AwaitFlush => true
    case _ => false
  }

  function Confirmations(t: Task): nat {
    match t
    case AwaitOnline(_, n) => n
    case ResumeAwaitOnline(n) => n
    case _ => 0
  }

  /** What the digest of the trace says at each await. */
  predicate SagaInv(d: Digest, task: Task, ups: bool) {
    && d.lawful && (ups ==> d.steady)
    && (BeforeStop(task) ==> d.stops == 0)
    && (task == AwaitOffline ==> d.stopDone)
    && Confirmations(task) <= 1 && Confirmations(task) <= d.ready
  }

  ghost predicate Inv(s: State, ups: bool) {
    SagaInv(s.history.digest, s.task, ups) && PowerInv(s, ups)
  }

  /** The two steps that issue a command. */
  lemma StartKeepsInv(s: State, recovery: bool, ups: bool)
    requires Inv(s, ups) && (recovery || s.history.digest.stopDone)
    ensures Inv(StartNow(Noted(s, SawOffline), recovery), ups)
  {
  }

  lemma StopKeepsInv(s: State, ups: bool)
    requires Inv(s, ups) && BeforeStop(s.task)
    ensures Inv(StopNow(s), ups)
  {
  }

  lemma CheckKeepsInv(s: State, r: Reply, ups: bool)
    requires Inv(s, ups) && (s.task.AwaitOnline? || s.task.ResumeAwaitOnline?)
    ensures Inv(TaskStep(s, r), ups)
  {
    if r == Ready && Confirmations(s.task) == 1 {
      assert TaskStep(s, r) == Completed(Noted(s, ReadyCheck));
    }
  }

  lemma StatusKeepsInv(s: State, recovery: bool, status: Status, ups: bool)
    requires Inv(s, ups) && s.task == AwaitStatus(recovery)
    ensures Inv(StatusSeen(s, recovery, status), ups)
  {
    if recovery && status == Offline && Allowed(s) {
      StartKeepsInv(s.(rt := s.rt.(desired := Some(true), pending := Some(Pending(recovery, Warning, false)))),
                    true, ups);
    }
  }

  lemma WarningsKeepInv(s: State, console: bool, ups: bool)
    requires Inv(s, ups) && s.task == AwaitWarnings
    ensures Inv(WarningsOver(s, console), ups)
  {
    if Allowed(s) && !console {
      StopKeepsInv(s.(rt := s.rt.(pending := Some(Pending(false, Stopping, false)))), ups);
    }
  }

  predicate Noting(t: Task) {
    || t.AwaitStatus? || t.AwaitWarnings? || t.AwaitFlush? || t.AwaitStopJob? || t.AwaitOffline?
    || t.AwaitOnline? || t.ResumeAwaitOnline?
  }

  /** The awaits after which nothing is noted. */
  lemma QuietTask(s: State, r: Reply)
    requires !Noting(s.task)
    ensures var s' := TaskStep(s, r);
            && s' == s.(rt := s'.rt, task := s'.task)
            && (s'.task == s.task
                || (Confirmations(s'.task) == 0 && (BeforeStop(s'.task) ==> BeforeStop(s.task))
                    && s'.task != AwaitOffline))
  {
  }

  ghost predicate Leaves(s: State, s': State) {
    && s'.rt.attempts == s.rt.attempts && s'.now == s.now
    && s'.history.recoveries == s.history.recoveries && s'.history.readings == s.history.readings
  }

  /** What no task step touches. */
  lemma TaskLeaves(s: State, r: Reply)
    ensures Leaves(s, TaskStep(s, r))
  {
    if s.task.AwaitOnline? || s.task.ResumeAwaitOnline? {
      CheckLeaves(s, r);
    } else if Noting(s.task) {
      NotingTaskLeaves(s, r);
    }
  }

  lemma CheckLeaves(s: State, r: Reply)
    requires s.task.AwaitOnline? || s.task.ResumeAwaitOnline?
    ensures Leaves(s, TaskStep(s, r))
  {
  }

  lemma NotingTaskLeaves(s: State, r: Reply)
    requires Noting(s.task) && !s.task.AwaitOnline? && !s.task.ResumeAwaitOnline?
    ensures Leaves(s, TaskStep(s, r))
  {
  }

  lemma TaskKeepsInv(s: State, r: Reply, ups: bool)
    requires Inv(s, ups)
    ensures Inv(TaskStep(s, r), ups)
  {
    if !Noting(s.task) {
      QuietTask(s, r);
    } else if s.task.AwaitOnline? || s.task.ResumeAwaitOnline? {
      CheckKeepsInv(s, r, ups);
    } else {
      NotingTaskKeepsInv(s, r, ups);
    }
  }

  lemma NotingTaskKeepsInv(s: State, r: Reply, ups: bool)
    requires Inv(s, ups) && Noting(s.task) && !s.task.AwaitOnline? && !s.task.ResumeAwaitOnline?
    ensures Inv(TaskStep(s, r), ups)
  {
    if TaskStep(s, r) != s && TaskStep(s, r) != Aborted(s) {
      match s.task
      case AwaitStatus(recovery) => StatusKeepsInv(s, recovery, r.status, ups);
      case AwaitWarnings => WarningsKeepInv(s, r.console, ups);
      case AwaitFlush => StopKeepsInv(s, ups);
      case AwaitStopJob =>
      case AwaitOffline => StartKeepsInv(s, false, ups);
    }
  }

  lemma LaunchKeepsInv(s: State, recovery: bool, ups: bool)
    requires Inv(s, ups)
    ensures Inv(Launch(s, recovery), ups)
  {
  }

  lemma PollKeepsInv(s: State, c: Settings, status: Option<Status>, ups: bool)
    requires Inv(s, ups)
    ensures Inv(PollReturns(s, c, status), ups)
  {
    PollNotes(s, c, status);
  }

  /** A check changes the record, and at most launches a recovery. */
  lemma PollNotes(s: State, c: Settings, status: Option<Status>)
    ensures var s' := PollReturns(s, c, status);
            && s'.lineSince == s.lineSince && s'.powerConfirmed == s.powerConfirmed && s'.now == s.now
            && s'.history.readings == s.history.readings
            && (|| (s'.task == s.task && s'.history == s.history)
                || (s'.task == s.task && s'.history.digest == Extend(s.history.digest, Returned))
                || (s'.task == Created(true) && s'.history.digest == Extend(s.history.digest, Launched(true))))
  {
  }

  lemma ReadingKeepsInv(s: State, line: bool, critical: bool, ups: bool)
    requires Inv(s, ups)
    ensures Inv(PowerRead(s, line, critical), ups)
  {
    ReadingKeepsPower(s, ups, line, critical);
  }

  lemma RestartKeepsInv(s: State, ups: bool)
    requires Inv(s, ups)
    ensures Inv(ControllerRestarts(s, ups), ups)
  {
  }

  lemma StepKeepsInv(s: State, c: Config, e: Event, s': State)
    requires Inv(s, c.ups) && Step(s, c, e, s')
    ensures Inv(s', c.ups)
  {
    match e
    case TaskReply(r) => TaskKeepsInv(s, r, c.ups);
    case Due => LaunchKeepsInv(s, false, c.ups);
    case RunScript => LaunchKeepsInv(s, false, c.ups);
    case PollReply(status) => PollKeepsInv(s, c.settings, status, c.ups);
    case PowerReading(line, critical) => ReadingKeepsInv(s, line, critical, c.ups);
    case ControllerRestart => RestartKeepsInv(s, c.ups);
    case _ => RecordKeepsInv(s, c, e, s');
  }

  /** The events that only change the record, stop the task or let time pass. */
  lemma RecordKeepsInv(s: State, c: Config, e: Event, s': State)
    requires Inv(s, c.ups) && Step(s, c, e, s')
    requires e in {AdminStop, AdminStart, Maintenance, PowerStop, PollStart, SaveSchedule} || e.Advance?
    ensures Inv(s', c.ups)
  {
  }

  lemma RunKeepsInv(states: seq<State>, c: Config, events: seq<Event>, j: nat)
    requires Run(states, c, events) && Fresh(states[0], c) && j < |states|
    ensures Inv(states[j], c.ups)
  {
    forall s, e, s' | Inv(s, c.ups) && Step(s, c, e, s') ensures Inv(s', c.ups) {
      StepKeepsInv(s, c, e, s');
    }
    Throughout(states, c, events, s => Inv(s, c.ups), j);
  }

  lemma RunTracks(states: seq<State>, c: Config, events: seq<Event>, j: nat)
    requires Run(states, c, events) && Fresh(states[0], c) && j < |states|
    ensures Tracks(states[j])
  {
    forall s, e, s' | Tracks(s) && Step(s, c, e, s') ensures Tracks(s') {
      StepTracks(s, c, e, s');
    }
    Throughout(states, c, events, s => Tracks(s), j);
  }

  /** The restart saga, over every run, controller restarts included. Per launched scheduled
      restart at most one stop is issued, counting what `resume` does; every start is issued on
      the observation that the server is offline, and a scheduled one only after its stop job
      succeeded; restart and resume record success only after two ready checks in a row. (For what a
      check records of a server that is back after a power stop, see `PowerReturn`.) */
  lemma RestartSaga(states: seq<State>, c: Config, events: seq<Event>, j: nat, i: nat)
    requires Run(states, c, events) && Fresh(states[0], c) && j < |states| && i < |states[j].history.trace|
    ensures var before, m := states[j].history.trace[..i], states[j].history.trace[i];
            && (m.StopIssued? ==> StopsSinceLaunch(before) == 0)
            && (m.StartIssued? ==> LastIs(before, SawOffline) && (!m.recovery ==> StopDone(before)))
            && (m.Succeeded? ==> LastIs(before, ReadyCheck) && |before| >= 2 && before[i - 2] == ReadyCheck)
  {
    RunKeepsInv(states, c, events, j);
    RunTracks(states, c, events, j);
    LawfulAt(states[j].history.trace, i);
  }

  /** The power gate. With the UPS enabled, every start the automation issues is issued when no
      outage is flagged and every reading of a stretch of at least 60 seconds up to the latest one
      confirmed line power (`LineStartMeans`), all of them taken since the controller last started. */
  lemma PowerGate(states: seq<State>, c: Config, events: seq<Event>, j: nat, i: nat)
    requires c.ups && Run(states, c, events) && Fresh(states[0], c) && j < |states|
    requires i < |states[j].history.trace| && states[j].history.trace[i].StartIssued?
    ensures states[j].history.trace[i].steadyLine
  {
    RunKeepsInv(states, c, events, j);
    RunTracks(states, c, events, j);
    LawfulAt(states[j].history.trace, i);
  }

  // ---------------------------------------------------------------- readings of the UPS

  /** `line_since` is when the current run of line readings began, and confirmed power means that
      the run has lasted a minute. */
  predicate PowerInv(s: State, ups: bool) {
    var readings := s.history.readings;
    && (readings != [] ==> readings[|readings| - 1].time <= s.now)
    && s.lineSince == LineStart(readings)
    && (ups && s.powerConfirmed ==> SteadyLine(readings))
  }

  lemma ReadingKeepsPower(s: State, ups: bool, line: bool, critical: bool)
    requires PowerInv(s, ups)
    ensures PowerInv(PowerRead(s, line, critical), ups)
  {
    LineStartNext(s.history.readings, Reading(s.now, line));
  }

  lemma LineStartNext(readings: seq<Reading>, r: Reading)
    ensures LineStart(readings + [r])
         == if !r.line then None else if LineStart(readings).Some? then LineStart(readings) else Some(r.time)
  {
    assert (readings + [r])[..|readings|] == readings;
  }

  /** What a run of line readings is. */
  lemma {:induction false} LineStartMeans(readings: seq<Reading>) returns (j: nat)
    requires LineStart(readings).Some?
    ensures j < |readings| && readings[j].time == LineStart(readings).value
    ensures forall k | j <= k < |readings| :: readings[k].line
    ensures j > 0 ==> !readings[j - 1].line
  {
    var init := readings[..|readings| - 1];
    j := |readings| - 1;
    if LineStart(init).Some? {
      j := LineStartMeans(init);
    }
  }

  // ---------------------------------------------------------------- the recovery rate

  predicate Sorted(times: seq<real>) {
    forall i, j | 0 <= i < j < |times| :: times[i] <= times[j]
  }

  /** The persisted attempts are the latest recoveries; those no longer listed are more than an
      hour older than the last one. */
  predicate RateList(all: seq<real>, kept: seq<real>, c: Settings) {
    && Sorted(all)
    && |kept| <= |all| && kept == all[|all| - |kept|..] && (all != [] ==> kept != [])
    && (forall i | 0 <= i < |all| - |kept| :: all[|all| - 1] - all[i] >= 3600.0)
    && Spaced(all, c)
  }

  predicate Spaced(all: seq<real>, c: Settings) {
    && (forall i | 0 <= i && i + c.maxPerHour < |all| :: all[i + c.maxPerHour] - all[i] >= 3600.0)
    && (forall i | 0 <= i < |all| - 1 :: all[i + 1] - all[i] >= c.cooldown)
  }

  predicate RateInv(s: State, c: Settings) {
    var all := s.history.recoveries;
    RateList(all, s.rt.attempts, c) && (all != [] ==> all[|all| - 1] <= s.now)
  }

  /** Of a sorted list, the recent entries are the last ones. */
  lemma {:induction false} RecentIsSuffix(times: seq<real>, now: real)
    requires Sorted(times)
    ensures |Recent(times, now)| <= |times| && Recent(times, now) == times[|times| - |Recent(times, now)|..]
    ensures forall i | 0 <= i < |times| - |Recent(times, now)| :: now - times[i] >= 3600.0
  {
    if times != [] {
      var init, last := times[..|times| - 1], times[|times| - 1];
      if now - last < 3600.0 {
        RecentIsSuffix(init, now);
        assert Recent(times, now) == Recent(init, now) + [last];
      } else {
        AllOld(init, now, last);
      }
    }
  }

  lemma {:induction false} AllOld(times: seq<real>, now: real, bound: real)
    requires now - bound >= 3600.0 && forall i | 0 <= i < |times| :: times[i] <= bound
    ensures Recent(times, now) == []
  {
    if times != [] { AllOld(times[..|times| - 1], now, bound); }
  }

  /** Everything but the recent attempts is more than an hour old. */
  lemma RecentOfAll(all: seq<real>, kept: seq<real>, now: real, c: Settings)
    requires RateList(all, kept, c) && (all != [] ==> all[|all| - 1] <= now)
    ensures var recent := Recent(kept, now);
            && |recent| <= |all| && recent == all[|all| - |recent|..]
            && forall i | 0 <= i < |all| - |recent| :: now - all[i] >= 3600.0
  {
    RecentIsSuffix(kept, now);
    var recent := Recent(kept, now);
    assert recent == all[|all| - |recent|..];
    forall i | 0 <= i < |all| - |recent| ensures now - all[i] >= 3600.0 {
      if i >= |all| - |kept| { assert all[i] == kept[i - (|all| - |kept|)]; }
    }
  }

  lemma NewAttempt(all: seq<real>, kept: seq<real>, now: real, c: Settings)
    requires ValidSettings(c) && RateList(all, kept, c) && (all != [] ==> all[|all| - 1] <= now)
    requires var recent := Recent(kept, now);
             |recent| < c.maxPerHour && (recent != [] ==> now - recent[|recent| - 1] >= c.cooldown)
    ensures RateList(all + [now], Recent(kept, now) + [now], c)
  {
    RecentOfAll(all, kept, now, c);
    SpacedAfter(all, Recent(kept, now), now, c);
    ListAfter(all, Recent(kept, now), now);
  }

  lemma ListAfter(all: seq<real>, recent: seq<real>, now: real)
    requires Sorted(all) && (all != [] ==> all[|all| - 1] <= now)
    requires |recent| <= |all| && recent == all[|all| - |recent|..]
    requires forall i | 0 <= i < |all| - |recent| :: now - all[i] >= 3600.0
    ensures var more, kept := all + [now], recent + [now];
            && Sorted(more) && kept == more[|more| - |kept|..]
            && forall i | 0 <= i < |more| - |kept| :: more[|more| - 1] - more[i] >= 3600.0
  {
    var more := all + [now];
    assert more[|more| - |recent| - 1..] == all[|all| - |recent|..] + [now];
    forall i, j | 0 <= i < j < |more| ensures more[i] <= more[j] {
      if j == |all| { assert all[i] <= all[|all| - 1]; }
    }
  }

  lemma SpacedAfter(all: seq<real>, recent: seq<real>, now: real, c: Settings)
    requires ValidSettings(c) && Spaced(all, c) && |recent| <= |all| && recent == all[|all| - |recent|..]
    requires forall i | 0 <= i < |all| - |recent| :: now - all[i] >= 3600.0
    requires |recent| < c.maxPerHour && (recent != [] ==> now - recent[|recent| - 1] >= c.cooldown)
    ensures Spaced(all + [now], c)
  {
    var more := all + [now];
    forall i | 0 <= i && i + c.maxPerHour < |more| ensures more[i + c.maxPerHour] - more[i] >= 3600.0 {
      if i + c.maxPerHour < |all| { assert all[i + c.maxPerHour] - all[i] >= 3600.0; }
    }
    if all != [] && recent != [] { assert recent[|recent| - 1] == all[|all| - 1]; }
  }

  lemma StepKeepsRate(s: State, c: Config, e: Event, s': State)
    requires ValidSettings(c.settings) && RateInv(s, c.settings) && Step(s, c, e, s')
    ensures RateInv(s', c.settings)
  {
    match e
    case PollReply(status) => PollKeepsRate(s, c.settings, status);
    case TaskReply(r) =>
      TaskLeaves(s, r);
      SameRate(s, c.settings, s');
    case _ =>
      OthersLeave(s, c, e, s');
      SameRate(s, c.settings, s');
  }

  lemma SameRate(s: State, c: Settings, s': State)
    requires RateInv(s, c) && s'.now >= s.now
    requires s'.rt.attempts == s.rt.attempts && s'.history.recoveries == s.history.recoveries
    ensures RateInv(s', c)
  {
  }

  lemma OthersLeave(s: State, c: Config, e: Event, s': State)
    requires Step(s, c, e, s') && !e.PollReply? && !e.TaskReply?
    ensures s'.rt.attempts == s.rt.attempts && s'.history.recoveries == s.history.recoveries && s'.now >= s.now
  {
  }

  lemma PollKeepsRate(s: State, c: Settings, status: Option<Status>)
    requires ValidSettings(c) && RateInv(s, c)
    ensures RateInv(PollReturns(s, c, status), c)
  {
    PollWrites(s, c, status);
    if PollReturns(s, c, status).history.recoveries == s.history.recoveries {
      SameRate(s, c, PollReturns(s, c, status));
    } else {
      NewAttempt(s.history.recoveries, s.rt.attempts, s.now, c);
    }
  }

  /** What a check does to the attempts: a recovery it launches is within the limits. */
  lemma PollWrites(s: State, c: Settings, status: Option<Status>)
    ensures var s', recent := PollReturns(s, c, status), Recent(s.rt.attempts, s.now);
            && s'.now == s.now
            && (|| (s'.history.recoveries == s.history.recoveries && s'.rt.attempts == s.rt.attempts)
                || (&& s'.history.recoveries == s.history.recoveries + [s.now] && s'.rt.attempts == recent + [s.now]
                    && |recent| < c.maxPerHour && (recent != [] ==> s.now - recent[|recent| - 1] >= c.cooldown)))
  {
    if s.checking && s.task == Idle && status == Some(Offline) {
      OfflineWrites(s.(checking := false), c);
    } else {
      OtherPollLeaves(s, c, status);
    }
  }

  lemma OtherPollLeaves(s: State, c: Settings, status: Option<Status>)
    requires !s.checking || s.task != Idle || status != Some(Offline)
    ensures var s' := PollReturns(s, c, status);
            s'.now == s.now && s'.history.recoveries == s.history.recoveries && s'.rt.attempts == s.rt.attempts
  {
  }

  lemma OfflineWrites(s: State, c: Settings)
    requires s.task == Idle
    ensures var s', recent := SeenOffline(s, c), Recent(s.rt.attempts, s.now);
            && s'.now == s.now
            && (if Recovers(s, c)
                then s'.history.recoveries == s.history.recoveries + [s.now] && s'.rt.attempts == recent + [s.now]
                     && |recent| < c.maxPerHour && (recent != [] ==> s.now - recent[|recent| - 1] >= c.cooldown)
                else s'.history.recoveries == s.history.recoveries && s'.rt.attempts == s.rt.attempts)
  {
  }

  /** The recovery rate. For fixed settings and a clock that does not go back, recoveries launched
      by the monitor are at least the cooldown apart, and any `max_restarts_per_hour` + 1 of them
      span at least an hour, controller restarts or not. */
  lemma RecoveryRate(states: seq<State>, c: Config, events: seq<Event>, j: nat)
    requires ValidSettings(c.settings) && Run(states, c, events) && Fresh(states[0], c) && j < |states|
    ensures var all := states[j].history.recoveries;
            Sorted(all) && Spaced(all, c.settings)
  {
    forall s, e, s' | RateInv(s, c.settings) && Step(s, c, e, s') ensures RateInv(s', c.settings) {
      StepKeepsRate(s, c, e, s');
    }
    Throughout(states, c, events, s => RateInv(s, c.settings), j);
  }

  /** So no window of 3600 seconds, wherever it starts, holds more than `max_restarts_per_hour`. */
  lemma WindowBound(states: seq<State>, c: Config, events: seq<Event>, j: nat, first: nat, last: nat, start: real)
    requires ValidSettings(c.settings) && Run(states, c, events) && Fresh(states[0], c) && j < |states|
    requires first <= last < |states[j].history.recoveries|
    requires forall i | first <= i <= last :: start <= states[j].history.recoveries[i] < start + 3600.0
    ensures last - first + 1 <= c.settings.maxPerHour
  {
    RecoveryRate(states, c, events, j);
    var all := states[j].history.recoveries;
    var beyond := first + c.settings.maxPerHour;
    assert beyond < |all| ==> all[beyond] - all[first] >= 3600.0;
  }

  // ---------------------------------------------------------------- what a controller keeps

  /** The invariants of the saga, the power gate and the recovery rate together. */
  ghost predicate Sound(s: State, c: Config) {
    Tracks(s) && Inv(s, c.ups) && RateInv(s, c.settings)
  }

  lemma StepKeepsSound(s: State, c: Config, e: Event, s': State)
    requires ValidSettings(c.settings) && Sound(s, c) && Step(s, c, e, s')
    ensures Sound(s', c)
  {
    StepTracks(s, c, e, s');
    StepKeepsInv(s, c, e, s');
    StepKeepsRate(s, c, e, s');
  }

  /** What a sound state says of the past: every mark was in order, every start had steady line power
      if there is a UPS, and the recoveries were spaced as the settings demand. */
  lemma SoundMeans(s: State, c: Config)
    requires Sound(s, c)
    ensures forall i | 0 <= i < |s.history.trace| :: Fits(s.history.trace[..i], s.history.trace[i])
    ensures c.ups ==> forall i | 0 <= i < |s.history.trace| && s.history.trace[i].StartIssued? ::
              s.history.trace[i].steadyLine
    ensures Sorted(s.history.recoveries) && Spaced(s.history.recoveries, c.settings)
  {
    forall i | 0 <= i < |s.history.trace|
      ensures Fits(s.history.trace[..i], s.history.trace[i])
      ensures c.ups && s.history.trace[i].StartIssued? ==> s.history.trace[i].steadyLine
    {
      LawfulAt(s.history.trace, i);
    }
  }

  /** No start, or no stop, was issued between two states. */
  ghost predicate NoStart(s: State, s': State) {
    |s.history.trace| <= |s'.history.trace|
    && forall i | |s.history.trace| <= i < |s'.history.trace| :: !s'.history.trace[i].StartIssued?
  }

  ghost predicate NoStop(s: State, s': State) {
    |s.history.trace| <= |s'.history.trace|
    && forall i | |s.history.trace| <= i < |s'.history.trace| :: !s'.history.trace[i].StopIssued?
  }

  /** However a task goes on, it issues no start while power is not confirmed or an administrator
      intends the server to be down; and no stop but from the end of the warnings, where that is checked
      too, or from the console flush, where it is not. */
  lemma CommandsAreGated(s: State, r: Reply)
    ensures var s' := TaskStep(s, r);
            && (!Allowed(s) ==> NoStart(s, s'))
            && (!Allowed(s) ==> (NoStop(s, s') <==> !(s.task.AwaitFlush? && r == Accepted)))
            && (!(s.task.AwaitWarnings? && Allowed(s)) && !s.task.AwaitFlush? ==> NoStop(s, s'))
  {
    if !Noting(s.task) {
      QuietTask(s, r);
    } else if Checks(s.task) {
      CheckIssuesNothing(s, r);
    } else if s.task.AwaitFlush? && r == Accepted {
      assert StopNow(s).history.trace[|s.history.trace|] == StopIssued;
    }
  }

  /** Maintenance that begins while a restart waits for the console flush takes a server down: once it is
      flushed the restart still stops it, sees it offline, and is then refused the start. Nothing is
      pending any more, and the pause keeps the automation from starting it. */
  lemma MaintenanceStopsServer(s: State, c: Config) returns (states: seq<State>, events: seq<Event>)
    requires s.task == AwaitFlush && s.rt.pending.Some?
    ensures Run(states, c, events) && states[0] == s && events != [] && events[0] == Maintenance
    ensures forall i | 1 <= i < |events| :: !AdminOperation(events[i]) && events[i].TaskReply?
    ensures var last := states[|states| - 1];
            && last.history.trace == s.history.trace + [StopIssued, StopSucceeded, SawOffline]
            && last.task == Idle && last.rt.pending.None? && Paused(last)
  {
    events := [Maintenance, TaskReply(Accepted), TaskReply(Accepted), TaskReply(JobSucceeded), TaskReply(Saw(Offline))];
    var s1 := Next(s, c, events[0]);
    var s2 := Next(s1, c, events[1]);
    var s3 := Next(s2, c, events[2]);
    var s4 := Next(s3, c, events[3]);
    var s5 := Next(s4, c, events[4]);
    states := [s, s1, s2, s3, s4, s5];
    assert s5.history.trace == s.history.trace + [StopIssued] + [StopSucceeded] + [SawOffline];
  }

  /** After a power stop, a server that a check sees online once is recorded as restarted, if it is to be
      recovered and the power may be used again. */
  predicate ReturnsFromPower(s: State, c: Settings) {
    s.rt.powerPending && c.recoverAfterPower && !Blocked(s)
  }

  /** A check records a success exactly then, the same as a restart's, though it saw the server once and
      asked no player list. */
  lemma PowerReturn(s: State, c: Settings, status: Option<Status>)
    ensures var s' := PollReturns(s, c, status);
            && (|s'.history.trace| > |s.history.trace| && LastIs(s'.history.trace, Returned) <==>
                  s.checking && s.task == Idle && status == Some(Online) && ReturnsFromPower(s, c))
            && (s.checking && s.task == Idle && status == Some(Online) && ReturnsFromPower(s, c) ==>
                  s'.rt == FinishedRecord(s'.rt) && !s'.rt.intentional && s'.rt.desired == Some(true))
            && NoStart(s, s') && NoStop(s, s')
  {
  }

  /** A restart that has not reached its stop goes no further once it is not allowed: it ends, with
      nothing pending, or still waits for the same answer. */
  lemma RestartIsGated(s: State, r: Reply)
    requires (s.task.Created? || s.task.AwaitStatus? || s.task.AwaitWarnings?) && !Allowed(s)
    ensures var s' := TaskStep(s, r);
            s'.history == s.history && (s' == s || (s'.task == Idle && s'.rt.pending.None?))
  {
  }

  /** A readiness check records success exactly when it is the second in a row to succeed, and one that
      fails starts the count again. */
  lemma CheckOutcome(s: State, r: Reply)
    requires Checks(s.task)
    ensures var s' := TaskStep(s, r);
            && (s'.task == AwaitNotification <==> r == Ready && Confirmations(s.task) >= 1)
            && (s'.task == AwaitNotification ==> LastIs(s'.history.trace, Succeeded) && s'.rt == FinishedRecord(s.rt))
            && (Checks(s'.task) && r == Ready ==> Confirmations(s'.task) == Confirmations(s.task) + 1)
            && (r == NotReady ==> Confirmations(s'.task) == 0)
  {
  }

  lemma CheckIssuesNothing(s: State, r: Reply)
    requires Checks(s.task)
    ensures NoStart(s, TaskStep(s, r)) && NoStop(s, TaskStep(s, r))
  {
  }

  /** Resuming issues no command of its own and never stops the server: a countdown is dropped, an
      offline server is restarted as a recovery, and one seen online is waited for only if its start had
      begun. */
  lemma ResumeOutcome(s: State, r: Reply)
    requires s.task.ResumeCreated? || s.task.ResumeAwaitPower? || s.task.ResumeAwaitJob? || s.task.ResumeAwaitStatus?
    ensures var s' := TaskStep(s, r);
            && s'.history == s.history
            && (s.task.ResumeCreated? && s.task.pending.stage == Warning ==> s'.task == Idle && s'.rt.pending.None?)
            && (s'.task.AwaitStatus? ==> r == Saw(Offline) && Allowed(s) && s'.task.recovery)
            && (s'.task.ResumeAwaitOnline? ==>
                  r == Saw(Online) && s.task.ResumeAwaitStatus? && s.task.pending.stage == Starting)
            && (Blocked(s) && s.task.ResumeAwaitPower? ==> s' == s)
  {
  }

  /** The recent attempts are exactly those of the last hour, as often as they occur. */
  lemma {:induction false} RecentCounts(times: seq<real>, now: real, a: real)
    ensures multiset(Recent(times, now))[a] == if now - a < 3600.0 then multiset(times)[a] else 0
  {
    if times != [] {
      RecentCounts(times[..|times| - 1], now, a);
      assert times == times[..|times| - 1] + [times[|times| - 1]];
    }
  }

  /** A reading unblocks the automation only when it ends a minute of line power. */
  lemma ReadingEndsMinute(s: State, ups: bool, line: bool, critical: bool)
    ensures var s' := PowerRead(s, line, critical);
            PowerInv(s, ups) && Blocked(s) && !Blocked(s') ==> SteadyLine(s'.history.readings)
  {
    if PowerInv(s, ups) { LineStartNext(s.history.readings, Reading(s.now, line)); }
  }

  lemma SpacingKept(s: State, c: Settings)
    requires s.task == Idle && ValidSettings(c) && RateInv(s, c)
    ensures Spaced(SeenOffline(s, c).history.recoveries, c)
  {
    OfflineWrites(s, c);
    if Recovers(s, c) { NewAttempt(s.history.recoveries, s.rt.attempts, s.now, c); }
  }
}
