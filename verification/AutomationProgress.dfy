/** What the automation does, not only what it must not do: where every await goes on for every answer,
    when a check recovers a server, when the power is trusted again, and that an ordinary restart comes to
    its end. Conditions are written out, with their numbers. */
module AutomationProgress {
  import opened Optional
  import opened AutomationModel
  import opened AutomationTheorems

  // ---------------------------------------------------------------- line power for a minute

  /** The readings end in a run of line power that began with reading j. */
  predicate LineSince(readings: seq<Reading>, j: int) {
    && 0 <= j < |readings| && (j > 0 ==> !readings[j - 1].line)
    && forall k | j <= k < |readings| :: readings[k].line
  }

  /** That run has lasted 60 seconds. */
  ghost predicate MinuteOfLine(readings: seq<Reading>) {
    exists j :: LineSince(readings, j) && readings[|readings| - 1].time - readings[j].time >= 60.0
  }

  lemma OneStart(readings: seq<Reading>, i: int, j: int)
    requires LineSince(readings, i) && LineSince(readings, j)
    ensures i == j
  {
  }

  lemma SteadyIsMinute(readings: seq<Reading>)
    ensures SteadyLine(readings) <==> MinuteOfLine(readings)
  {
    if LineStart(readings).Some? {
      var i := LineStartMeans(readings);
      assert LineSince(readings, i);
      forall j | LineSince(readings, j) ensures i == j { OneStart(readings, i, j); }
    }
  }

  /** What a reading does: no line power blocks at once, and only a critical reading flags an outage; a
      minute of line power, and nothing less, clears both. */
  ghost predicate PowerNoted(s: State, line: bool, critical: bool, s': State) {
    var readings := s.history.readings + [Reading(s.now, line)];
    && s'.history == s.history.(readings := readings)
    && s'.powerConfirmed == (line && (s.powerConfirmed || MinuteOfLine(readings)))
    && s'.outage == if line then s.outage && !MinuteOfLine(readings) else s.outage || critical
  }

  lemma ReadingIsNoted(s: State, ups: bool, line: bool, critical: bool)
    requires PowerInv(s, ups)
    ensures PowerNoted(s, line, critical, PowerRead(s, line, critical))
  {
    var readings := s.history.readings + [Reading(s.now, line)];
    LineStartNext(s.history.readings, Reading(s.now, line));
    SteadyIsMinute(readings);
  }

  // ---------------------------------------------------------------- every await, for every answer

  /** Line power is confirmed, no outage is flagged, and no administrator intends the server to be down. */
  predicate Open(s: State) {
    s.powerConfirmed && !s.outage && !s.rt.intentional
  }

  ghost predicate Goes(s: State, s': State, task: Task, marks: seq<Mark>) {
    s'.task == task && s'.history.trace == s.history.trace + marks
  }

  /** The task ends, and nothing is pending any more. */
  ghost predicate GivesUp(s: State, s': State, marks: seq<Mark>) {
    Goes(s, s', Idle, marks) && s'.rt == s.rt.(pending := None)
  }

  ghost predicate Waits(s: State, s': State) {
    s' == s
  }

  ghost predicate Starts(s: State, s': State, recovery: bool) {
    var steady := MinuteOfLine(s.history.readings) && !s.outage;
    && Goes(s, s', AwaitStart(recovery), [SawOffline, StartIssued(recovery, steady)])
    && s'.rt == s.rt.(desired := s'.rt.desired, pending := Some(Pending(recovery, Starting, false)))
    && s'.rt.desired == if recovery then Some(true) else s.rt.desired
  }

  /** What a recorded success says. */
  ghost predicate Recorded(rt: Runtime, rt': Runtime) {
    && rt'.desired == Some(true) && !rt'.intentional && rt'.reason == NoReason && !rt'.powerPending
    && rt'.pending.None? && rt'.offlineChecks == 0 && rt'.lastSeen == Some(Online)
    && rt'.maintenanceUntil == 0.0 && rt'.attempts == rt.attempts
  }

  ghost predicate Readied(s: State, r: Reply, s': State, n: nat, again: Task, first: Task) {
    match r
    case Ready =>
      if n >= 1 then Goes(s, s', AwaitNotification, [ReadyCheck, Succeeded]) && Recorded(s.rt, s'.rt)
      else Goes(s, s', again, [ReadyCheck]) && s'.rt == s.rt
    case NotReady => Goes(s, s', first, [UnreadyCheck]) && s'.rt == s.rt
    case Failure => GivesUp(s, s', [])
    case TimedOut => GivesUp(s, s', [])
    case _ => Waits(s, s')
  }

  /** A job request's answer is recorded, unless its pending entry has gone. */
  ghost predicate JobNoted(s: State, r: Reply, s': State, next: Task) {
    if r == Accepted && s.rt.pending.Some? then
      && Goes(s, s', next, [])
      && s'.rt == s.rt.(pending := Some(Pending(s.rt.pending.value.recovery, s.rt.pending.value.stage, true)))
    else if r in {Accepted, Failure} then GivesUp(s, s', [])
    else Waits(s, s')
  }

  ghost predicate JobDone(s: State, r: Reply, s': State, next: Task, marks: seq<Mark>) {
    if r == JobSucceeded then Goes(s, s', next, marks) && s'.rt == s.rt
    else if r in {JobFailed, TimedOut, Failure} then GivesUp(s, s', [])
    else Waits(s, s')
  }

  ghost predicate RestartAnswered(s: State, r: Reply, s': State)
    requires s.task.Created? || s.task.AwaitStatus? || s.task.AwaitWarnings? || s.task.AwaitFlush?
  {
    match s.task
    case Created(recovery) =>
      if Open(s) then Goes(s, s', AwaitStatus(recovery), []) && s'.rt == s.rt else GivesUp(s, s', [])
    case AwaitStatus(recovery) =>
      if recovery && r == Saw(Offline) && Open(s) then Starts(s, s', true)
      else if !recovery && r == Saw(Online) && Open(s) then
        && Goes(s, s', AwaitWarnings, [])
        && s'.rt == s.rt.(desired := Some(true), pending := Some(Pending(false, Warning, false)))
      else if r.Saw? || r == Failure then GivesUp(s, s', [])
      else Waits(s, s')
    case AwaitWarnings =>
      if r.WarningsDone? && Open(s) then
        && (if r.console then Goes(s, s', AwaitFlush, []) else Goes(s, s', AwaitStop, [StopIssued]))
        && s'.rt == s.rt.(pending := Some(Pending(false, Stopping, false)))
      else if r.WarningsDone? || r == Failure then GivesUp(s, s', [])
      else Waits(s, s')
    case AwaitFlush =>
      if r == Accepted then Goes(s, s', AwaitStop, [StopIssued]) && s'.rt == s.rt
      else if r == Failure then GivesUp(s, s', [])
      else Waits(s, s')
  }

  ghost predicate JobsAnswered(s: State, r: Reply, s': State)
    requires s.task.AwaitStop? || s.task.AwaitStopJob? || s.task.AwaitOffline? || s.task.AwaitStart?
             || s.task.AwaitStartJob?
  {
    match s.task
    case AwaitStop => JobNoted(s, r, s', AwaitStopJob)
    case AwaitStopJob => JobDone(s, r, s', AwaitOffline, [StopSucceeded])
    case AwaitOffline =>
      if r == Saw(Offline) then (if Open(s) then Starts(s, s', false) else GivesUp(s, s', [SawOffline]))
      else if r in {TimedOut, Failure} then GivesUp(s, s', [])
      else Waits(s, s')
    case AwaitStart(recovery) => JobNoted(s, r, s', AwaitStartJob(recovery))
    case AwaitStartJob(recovery) => JobDone(s, r, s', AwaitOnline(recovery, 0), [])
  }

  ghost predicate Acts(s: State, s': State, p: Pending) {
    if s.rt.intentional then GivesUp(s, s', [])
    else Goes(s, s', if p.hasJob then ResumeAwaitJob(p) else ResumeAwaitStatus(p), []) && s'.rt == s.rt
  }

  ghost predicate ResumeAnswered(s: State, r: Reply, s': State)
    requires s.task.ResumeCreated? || s.task.ResumeAwaitPower? || s.task.ResumeAwaitJob? || s.task.ResumeAwaitStatus?
  {
    match s.task
    case ResumeCreated(p) =>
      if p.stage == Warning then GivesUp(s, s', [])
      else if !s.powerConfirmed || s.outage then Goes(s, s', ResumeAwaitPower(p), []) && s'.rt == s.rt
      else Acts(s, s', p)
    case ResumeAwaitPower(p) => if !s.powerConfirmed || s.outage then Waits(s, s') else Acts(s, s', p)
    case ResumeAwaitJob(p) =>
      if r == JobRunning then Waits(s, s') else Goes(s, s', ResumeAwaitStatus(p), []) && s'.rt == s.rt
    case ResumeAwaitStatus(p) =>
      if r == Saw(Offline) && Open(s) then Goes(s, s', AwaitStatus(true), []) && s'.rt == s.rt
      else if r == Saw(Online) && p.stage == Starting then Goes(s, s', ResumeAwaitOnline(0), []) && s'.rt == s.rt
      else if r.Saw? || r == Failure then GivesUp(s, s', [])
      else Waits(s, s')
  }

  /** Where a task goes on for every answer, and nowhere else; the conditions exclude each other. */
  ghost predicate Answered(s: State, r: Reply, s': State) {
    match s.task
    case Idle => Waits(s, s')
    case AwaitOnline(recovery, n) => Readied(s, r, s', n, AwaitOnline(recovery, n + 1), AwaitOnline(recovery, 0))
    case ResumeAwaitOnline(n) => Readied(s, r, s', n, ResumeAwaitOnline(n + 1), ResumeAwaitOnline(0))
    case AwaitNotification => Goes(s, s', Idle, []) && s'.rt == s.rt
    case Created(_) => RestartAnswered(s, r, s')
    case AwaitStatus(_) => RestartAnswered(s, r, s')
    case AwaitWarnings => RestartAnswered(s, r, s')
    case AwaitFlush => RestartAnswered(s, r, s')
    case ResumeCreated(_) => ResumeAnswered(s, r, s')
    case ResumeAwaitPower(_) => ResumeAnswered(s, r, s')
    case ResumeAwaitJob(_) => ResumeAnswered(s, r, s')
    case ResumeAwaitStatus(_) => ResumeAnswered(s, r, s')
    case _ => JobsAnswered(s, r, s')
  }

  lemma RestartAnswers(s: State, r: Reply)
    requires s.task.Created? || s.task.AwaitStatus? || s.task.AwaitWarnings? || s.task.AwaitFlush?
    ensures RestartAnswered(s, r, TaskStep(s, r))
  {
    SteadyIsMinute(s.history.readings);
  }

  lemma JobsAnswer(s: State, r: Reply)
    requires s.task.AwaitStop? || s.task.AwaitStopJob? || s.task.AwaitOffline? || s.task.AwaitStart?
             || s.task.AwaitStartJob?
    ensures JobsAnswered(s, r, TaskStep(s, r))
  {
    SteadyIsMinute(s.history.readings);
  }

  lemma ResumeAnswers(s: State, r: Reply)
    requires s.task.ResumeCreated? || s.task.ResumeAwaitPower? || s.task.ResumeAwaitJob? || s.task.ResumeAwaitStatus?
    ensures ResumeAnswered(s, r, TaskStep(s, r))
  {
  }

  lemma ChecksAnswer(s: State, r: Reply)
    requires Checks(s.task)
    ensures Answered(s, r, TaskStep(s, r))
  {
  }

  /** Power, clock, monitor and recovery limits are not a task's business. */
  ghost predicate SameAround(s: State, s': State) {
    && s'.outage == s.outage && s'.lineSince == s.lineSince && s'.powerConfirmed == s.powerConfirmed
    && s'.checking == s.checking && s'.now == s.now && s'.rt.attempts == s.rt.attempts
    && s'.history.readings == s.history.readings && s'.history.recoveries == s.history.recoveries
  }

  lemma CheckKeepsAround(s: State, r: Reply)
    requires Checks(s.task)
    ensures SameAround(s, TaskStep(s, r))
  {
  }

  lemma RestartKeepsAround(s: State, r: Reply)
    requires s.task.Created? || s.task.AwaitStatus? || s.task.AwaitWarnings? || s.task.AwaitFlush?
    ensures SameAround(s, TaskStep(s, r))
  {
  }

  lemma JobsKeepAround(s: State, r: Reply)
    requires s.task.AwaitStop? || s.task.AwaitStopJob? || s.task.AwaitOffline? || s.task.AwaitStart?
             || s.task.AwaitStartJob?
    ensures SameAround(s, TaskStep(s, r))
  {
  }

  lemma TaskKeepsAround(s: State, r: Reply)
    ensures SameAround(s, TaskStep(s, r))
  {
    if Checks(s.task) {
      CheckKeepsAround(s, r);
    } else if s.task.Created? || s.task.AwaitStatus? || s.task.AwaitWarnings? || s.task.AwaitFlush? {
      RestartKeepsAround(s, r);
    } else if s.task.AwaitStop? || s.task.AwaitStopJob? || s.task.AwaitOffline? || s.task.AwaitStart?
              || s.task.AwaitStartJob? {
      JobsKeepAround(s, r);
    } else {
      TaskLeaves(s, r);
      QuietTask(s, r);
    }
  }

  /** Every await goes on as it should. */
  lemma TaskAnswers(s: State, r: Reply)
    ensures Answered(s, r, TaskStep(s, r))
  {
    match s.task
    case Idle =>
    case AwaitNotification =>
    case AwaitOnline(_, _) => ChecksAnswer(s, r);
    case ResumeAwaitOnline(_) => ChecksAnswer(s, r);
    case Created(_) => RestartAnswers(s, r);
    case AwaitStatus(_) => RestartAnswers(s, r);
    case AwaitWarnings => RestartAnswers(s, r);
    case AwaitFlush => RestartAnswers(s, r);
    case ResumeCreated(_) => ResumeAnswers(s, r);
    case ResumeAwaitPower(_) => ResumeAnswers(s, r);
    case ResumeAwaitJob(_) => ResumeAnswers(s, r);
    case ResumeAwaitStatus(_) => ResumeAnswers(s, r);
    case _ => JobsAnswer(s, r);
  }

  // ---------------------------------------------------------------- an ordinary restart

  /** A due schedule, and the answers an ordinary restart gets: its server is online and warned, its stop and
      start are accepted and succeed, and it is ready twice. */
  function OrdinaryEvents(console: bool): seq<Event> {
    [Due, TaskReply(Woken), TaskReply(Saw(Online)), TaskReply(WarningsDone(console))]
    + (if console then [TaskReply(Accepted)] else []) + FromStopEvents()
  }

  function FromStopEvents(): seq<Event> {
    [TaskReply(Accepted), TaskReply(JobSucceeded), TaskReply(Saw(Offline)), TaskReply(Accepted),
     TaskReply(JobSucceeded), TaskReply(Ready), TaskReply(Ready)]
  }

  lemma NextReply(states: seq<State>, c: Config, events: seq<Event>, i: nat)
    requires Run(states, c, events) && i < |events| && events[i].TaskReply?
    ensures Answered(states[i], events[i].reply, states[i + 1]) && SameAround(states[i], states[i + 1])
  {
    assert Step(states[i], c, events[i], states[i + 1]);
    TaskAnswers(states[i], events[i].reply);
    TaskKeepsAround(states[i], events[i].reply);
  }

  /** A due restart that is allowed and meets nothing unusual goes through: it issues exactly one stop and
      one start, in that order, each when it should, and records the success. */
  lemma OrdinaryRestart(states: seq<State>, c: Config, console: bool)
    requires Run(states, c, OrdinaryEvents(console)) && states[0].task == Idle && Open(states[0])
    ensures var s, last := states[0], states[|states| - 1];
            && last.history.trace ==
               s.history.trace
               + [Launched(false), StopIssued, StopSucceeded, SawOffline,
                  StartIssued(false, MinuteOfLine(s.history.readings) && !s.outage), ReadyCheck, ReadyCheck, Succeeded]
            && last.task == AwaitNotification && Recorded(s.rt, last.rt)
  {
    var events := OrdinaryEvents(console);
    var k := if console then 5 else 4;
    UpToStop(states, c, console);
    assert events[k..] == FromStopEvents();
    FromStop(states, c, events, k);
    assert Recorded(states[k].rt, states[k + 7].rt);
  }

  lemma UpToStop(states: seq<State>, c: Config, console: bool)
    requires Run(states, c, OrdinaryEvents(console)) && states[0].task == Idle && Open(states[0])
    ensures var s, last := states[0], states[if console then 5 else 4];
            && last.task == AwaitStop && Open(last) && last.rt.pending == Some(Pending(false, Stopping, false))
            && last.history.trace == s.history.trace + [Launched(false), StopIssued]
            && last.history.readings == s.history.readings && last.outage == s.outage
            && last.rt.attempts == s.rt.attempts
  {
    var events := OrdinaryEvents(console);
    UpToWarnings(states, c, events);
    NextReply(states, c, events, 3);
    if console { NextReply(states, c, events, 4); }
  }

  lemma UpToWarnings(states: seq<State>, c: Config, events: seq<Event>)
    requires Run(states, c, events) && states[0].task == Idle && Open(states[0])
    requires |events| > 3 && events[..3] == [Due, TaskReply(Woken), TaskReply(Saw(Online))]
    ensures var s, last := states[0], states[3];
            && last.task == AwaitWarnings && Open(last)
            && last.history.trace == s.history.trace + [Launched(false)]
            && last.history.readings == s.history.readings && last.outage == s.outage
            && last.rt.attempts == s.rt.attempts
  {
    assert events[0] == events[..3][0] && events[1] == events[..3][1] && events[2] == events[..3][2];
    assert Step(states[0], c, events[0], states[1]);
    assert states[1].history.trace == states[0].history.trace + [Launched(false)] && states[1].task == Created(false);
    NextReply(states, c, events, 1);
    NextReply(states, c, events, 2);
  }

  lemma FromStop(states: seq<State>, c: Config, events: seq<Event>, i: nat)
    requires Run(states, c, events) && i <= |events| && events[i..] == FromStopEvents()
    requires states[i].task == AwaitStop && states[i].rt.pending.Some? && Open(states[i])
    ensures var s, last := states[i], states[i + 7];
            var steady := MinuteOfLine(s.history.readings) && !s.outage;
            && last.history.trace ==
               s.history.trace
               + [StopSucceeded, SawOffline, StartIssued(false, steady), ReadyCheck, ReadyCheck, Succeeded]
            && last.task == AwaitNotification && Recorded(s.rt, last.rt)
  {
    StopToStart(states, c, events, i);
    assert events[i + 3..] == events[i..][3..];
    StartToEnd(states, c, events, i + 3);
  }

  lemma StopToStart(states: seq<State>, c: Config, events: seq<Event>, i: nat)
    requires Run(states, c, events) && i <= |events| && events[i..] == FromStopEvents()
    requires states[i].task == AwaitStop && states[i].rt.pending.Some? && Open(states[i])
    ensures var s, last := states[i], states[i + 3];
            var steady := MinuteOfLine(s.history.readings) && !s.outage;
            && last.history.trace == s.history.trace + [StopSucceeded, SawOffline, StartIssued(false, steady)]
            && last.task == AwaitStart(false) && last.rt.pending.Some? && last.rt.attempts == s.rt.attempts
  {
    assert events[i] == events[i..][0] && events[i + 1] == events[i..][1] && events[i + 2] == events[i..][2];
    NextReply(states, c, events, i);
    NextReply(states, c, events, i + 1);
    NextReply(states, c, events, i + 2);
  }

  lemma StartToEnd(states: seq<State>, c: Config, events: seq<Event>, i: nat)
    requires Run(states, c, events) && i <= |events| && events[i..] == FromStopEvents()[3..]
    requires states[i].task == AwaitStart(false) && states[i].rt.pending.Some?
    ensures var last := states[i + 4];
            && last.history.trace == states[i].history.trace + [ReadyCheck, ReadyCheck, Succeeded]
            && last.task == AwaitNotification && Recorded(states[i].rt, last.rt)
  {
    assert events[i] == events[i..][0] && events[i + 1] == events[i..][1];
    assert events[i + 2] == events[i..][2] && events[i + 3] == events[i..][3];
    NextReply(states, c, events, i);
    NextReply(states, c, events, i + 1);
    ReadyTwice(states, c, events, i + 2);
  }

  lemma ReadyTwice(states: seq<State>, c: Config, events: seq<Event>, i: nat)
    requires Run(states, c, events) && i + 2 == |events|
    requires events[i] == TaskReply(Ready) && events[i + 1] == TaskReply(Ready)
    requires states[i].task == AwaitOnline(false, 0)
    ensures var last := states[i + 2];
            && last.history.trace == states[i].history.trace + [ReadyCheck, ReadyCheck, Succeeded]
            && last.task == AwaitNotification && Recorded(states[i].rt, last.rt)
  {
    NextReply(states, c, events, i);
    NextReply(states, c, events, i + 1);
  }

  // ---------------------------------------------------------------- when a check recovers a server

  /** How many recovery attempts are less than an hour old. */
  function YoungAttempts(attempts: seq<real>, now: real): nat {
    if attempts == [] then 0
    else (if now - attempts[0] < 3600.0 then 1 else 0) + YoungAttempts(attempts[1..], now)
  }

  /** Attempt i is the latest that is less than an hour old. */
  predicate LatestYoung(attempts: seq<real>, now: real, i: int) {
    && 0 <= i < |attempts| && now - attempts[i] < 3600.0
    && forall j | i < j < |attempts| :: now - attempts[j] >= 3600.0
  }

  /** The server is to run, has been seen offline often enough in a row, and a recovery is within the limits. */
  ghost predicate RecoveryWanted(s: State, c: Settings) {
    && s.rt.desired == Some(true) && !s.rt.intentional && s.powerConfirmed && !s.outage
    && (s.rt.powerPending ==> c.recoverAfterPower)
    && s.rt.offlineChecks + 1 >= c.threshold && s.now >= s.rt.maintenanceUntil
    && YoungAttempts(s.rt.attempts, s.now) < c.maxPerHour
    && forall i | LatestYoung(s.rt.attempts, s.now, i) :: s.now - s.rt.attempts[i] >= c.cooldown
  }

  /** One check of a server: a recovery is launched and noted exactly when it is wanted. */
  ghost predicate CheckedOut(s: State, c: Settings, status: Option<Status>, s': State) {
    var wanted := s.checking && s.task == Idle && status == Some(Offline) && RecoveryWanted(s, c);
    && s'.history.recoveries == s.history.recoveries + (if wanted then [s.now] else [])
    && s'.task == (if wanted then Created(true) else s.task)
    && (wanted ==> s'.history.trace == s.history.trace + [Launched(true)])
    && (wanted ==> s'.rt.attempts != [] && s'.rt.attempts[|s'.rt.attempts| - 1] == s.now)
    && (!wanted ==> s'.rt.attempts == s.rt.attempts)
  }

  lemma YoungSnoc(attempts: seq<real>, x: real, now: real)
    ensures YoungAttempts(attempts + [x], now) == YoungAttempts(attempts, now) + if now - x < 3600.0 then 1 else 0
  {
    if attempts == [] {
      assert [x][1..] == [];
    } else {
      assert (attempts + [x])[1..] == attempts[1..] + [x];
      YoungSnoc(attempts[1..], x, now);
    }
  }

  lemma {:induction false} RecentIsYoung(attempts: seq<real>, now: real)
    ensures |Recent(attempts, now)| == YoungAttempts(attempts, now)
  {
    if attempts != [] {
      var n := |attempts| - 1;
      assert attempts == attempts[..n] + [attempts[n]];
      YoungSnoc(attempts[..n], attempts[n], now);
      RecentIsYoung(attempts[..n], now);
    }
  }

  /** The last of the recent attempts is the latest young one. */
  lemma {:induction false} LatestIsLast(attempts: seq<real>, now: real, i: int)
    requires LatestYoung(attempts, now, i)
    ensures var recent := Recent(attempts, now); recent != [] && recent[|recent| - 1] == attempts[i]
  {
    var n := |attempts| - 1;
    if i < n {
      assert now - attempts[n] >= 3600.0;
      LatestIsLast(attempts[..n], now, i);
    }
  }

  lemma {:induction false} SomeLatest(attempts: seq<real>, now: real) returns (i: int)
    requires Recent(attempts, now) != []
    ensures LatestYoung(attempts, now, i)
  {
    i := |attempts| - 1;
    if now - attempts[i] >= 3600.0 { i := SomeLatest(attempts[..i], now); }
  }

  lemma WantedIsRecovers(s: State, c: Settings)
    requires 1 <= c.threshold
    ensures Recovers(s, c) <==> RecoveryWanted(s, c)
  {
    RecentIsYoung(s.rt.attempts, s.now);
    forall i | LatestYoung(s.rt.attempts, s.now, i)
      ensures var recent := Recent(s.rt.attempts, s.now);
              recent != [] && recent[|recent| - 1] == s.rt.attempts[i]
    {
      LatestIsLast(s.rt.attempts, s.now, i);
    }
    if Recent(s.rt.attempts, s.now) != [] { var i := SomeLatest(s.rt.attempts, s.now); }
  }

  lemma OfflineChecksOut(s: State, c: Settings)
    requires 1 <= c.threshold && s.task == Idle && s.checking
    ensures CheckedOut(s, c, Some(Offline), PollReturns(s, c, Some(Offline)))
  {
    WantedIsRecovers(s.(checking := false), c);
    assert RecoveryWanted(s.(checking := false), c) <==> RecoveryWanted(s, c);
  }

  /** A check launches a recovery if and only if one is wanted, whatever it saw. */
  lemma ChecksOut(s: State, c: Settings, status: Option<Status>)
    requires 1 <= c.threshold
    ensures CheckedOut(s, c, status, PollReturns(s, c, status))
  {
    if s.checking && s.task == Idle && status == Some(Offline) { OfflineChecksOut(s, c); }
  }

  /** A server back from maintenance: seen otherwise meanwhile, or the hour is over. */
  predicate BackFromMaintenance(s: State) {
    && s.rt.reason == UnderMaintenance
    && (s.rt.lastSeen == Some(Offline) || s.rt.lastSeen == Some(Busy) || s.now >= s.rt.maintenanceUntil)
  }

  /** What a check writes about an online server. */
  ghost predicate OnlineNoted(s: State, c: Settings, s': State) {
    if s.rt.powerPending && c.recoverAfterPower && s.powerConfirmed && !s.outage then
      Recorded(s.rt, s'.rt) && s'.history.trace == s.history.trace + [Returned]
    else
      && s'.history == s.history && s'.rt.lastSeen == Some(Online) && s'.rt.offlineChecks == 0
      && s'.rt.desired == (if s.rt.desired.None? || BackFromMaintenance(s) then Some(true) else s.rt.desired)
      && (s'.rt.intentional <==> s.rt.intentional && !BackFromMaintenance(s))
      && s'.rt == s.rt.(lastSeen := s'.rt.lastSeen, offlineChecks := 0, desired := s'.rt.desired,
                        intentional := s'.rt.intentional)
  }

  /** What a check leaves on the record: an unreachable agent is no evidence, an answer that comes beside a
      task is dropped, and only an offline server is counted. */
  ghost predicate StatusNoted(s: State, c: Settings, status: Option<Status>, s': State) {
    if !s.checking then s' == s
    else
      && !s'.checking
      && (status.None? ==> s'.rt == s.rt.(offlineChecks := 0))
      && (status.Some? && s.task != Idle ==> s' == s.(checking := false))
      && (status.Some? && s.task == Idle ==>
            match status.value
            case Online => OnlineNoted(s, c, s')
            case Busy => s'.rt == s.rt.(lastSeen := Some(Busy), offlineChecks := 0)
            case Offline =>
              && s'.rt == s.rt.(lastSeen := Some(Offline), offlineChecks := s'.rt.offlineChecks,
                                attempts := s'.rt.attempts)
              && s'.rt.offlineChecks <= c.threshold && s'.rt.offlineChecks <= s.rt.offlineChecks + 1
              && (s'.rt.offlineChecks == c.threshold || s'.rt.offlineChecks == s.rt.offlineChecks + 1))
  }

  lemma StatusIsNoted(s: State, c: Settings, status: Option<Status>)
    ensures StatusNoted(s, c, status, PollReturns(s, c, status))
  {
  }

  // ---------------------------------------------------------------- offline checks in a row

  /** A check that counts: it finds the server offline, with nothing under way. */
  predicate FindsOffline(s: State, e: Event) {
    e == PollReply(Some(Offline)) && s.checking && s.task == Idle
  }

  /** What ends a row of offline checks: a check that finds the server otherwise, or no agent; an
      administrator's start; and a recorded success. */
  predicate EndsRow(s: State, e: Event) {
    || e == AdminStart
    || (e == PollReply(None) && s.checking)
    || (e.PollReply? && s.checking && s.task == Idle && e.status != Some(Offline))
    || (e == TaskReply(Ready) && Checks(s.task) && Confirmations(s.task) >= 1)
  }

  /** Offline checks in a row, counted on from what the record said first. */
  ghost function OfflineRow(states: seq<State>, events: seq<Event>): nat
    requires |states| == |events| + 1
    decreases |events|
  {
    if events == [] then states[0].rt.offlineChecks
    else
      var n := |events| - 1;
      var before := OfflineRow(states[..n + 1], events[..n]);
      if EndsRow(states[n], events[n]) then 0
      else if FindsOffline(states[n], events[n]) then before + 1
      else before
  }

  /** How one event changes the count. */
  ghost predicate Counts(s: State, c: Settings, e: Event, s': State) {
    s'.rt.offlineChecks ==
    if EndsRow(s, e) then 0
    else if !FindsOffline(s, e) then s.rt.offlineChecks
    else if s.rt.offlineChecks + 1 <= c.threshold then s.rt.offlineChecks + 1
    else c.threshold
  }

  lemma CheckCounts(s: State, c: Config, r: Reply)
    requires Checks(s.task)
    ensures Counts(s, c.settings, TaskReply(r), TaskStep(s, r))
  {
  }

  lemma TaskCounts(s: State, c: Config, r: Reply)
    ensures Counts(s, c.settings, TaskReply(r), TaskStep(s, r))
  {
    if Checks(s.task) {
      CheckCounts(s, c, r);
    } else if Noting(s.task) {
      NotingTaskCounts(s, c, r);
    }
  }

  lemma NotingTaskCounts(s: State, c: Config, r: Reply)
    requires Noting(s.task) && !Checks(s.task)
    ensures Counts(s, c.settings, TaskReply(r), TaskStep(s, r))
  {
  }

  lemma EventCounts(s: State, c: Config, e: Event, s': State)
    requires Step(s, c, e, s')
    ensures Counts(s, c.settings, e, s')
  {
    match e
    case TaskReply(r) => TaskCounts(s, c, r);
    case PollReply(status) => StatusIsNoted(s, c.settings, status);
    case _ =>
  }

  /** Over a whole run, controller restarts included, the count on the record is the number of offline
      checks in a row, up to the threshold. */
  lemma {:induction false} CountIsRow(states: seq<State>, c: Config, events: seq<Event>)
    requires Run(states, c, events) && states[0].rt.offlineChecks <= c.settings.threshold
    ensures var row := OfflineRow(states, events);
            states[|events|].rt.offlineChecks == if row <= c.settings.threshold then row else c.settings.threshold
    decreases |events|
  {
    if events != [] {
      var n := |events| - 1;
      CountIsRow(states[..n + 1], c, events[..n]);
      assert Step(states[n], c, events[n], states[n + 1]);
      EventCounts(states[n], c, events[n], states[n + 1]);
    }
  }

  lemma RecoveryAtCheck(s: State, c: Config, e: Event, s': State)
    requires Step(s, c, e, s') && 1 <= c.settings.threshold && s'.history.recoveries != s.history.recoveries
    ensures FindsOffline(s, e) && RecoveryWanted(s, c.settings)
  {
    match e
    case PollReply(status) => ChecksOut(s, c.settings, status);
    case TaskReply(r) => TaskLeaves(s, r);
    case _ => OthersLeave(s, c, e, s');
  }

  lemma RowAfterFind(states: seq<State>, events: seq<Event>)
    requires |states| == |events| + 1 && events != []
    requires FindsOffline(states[|events| - 1], events[|events| - 1])
    ensures OfflineRow(states, events) == OfflineRow(states[..|events|], events[..|events| - 1]) + 1
  {
  }

  /** Whatever else the checks saw, a recovery is recorded only at an offline check that makes at least
      `failure_threshold` of them in a row. */
  lemma RecoveryNeedsRow(states: seq<State>, c: Config, events: seq<Event>, j: nat)
    requires Run(states, c, events) && 1 <= c.settings.threshold && j < |events|
    requires states[0].rt.offlineChecks <= c.settings.threshold
    requires states[j + 1].history.recoveries != states[j].history.recoveries
    ensures FindsOffline(states[j], events[j])
    ensures OfflineRow(states[..j + 2], events[..j + 1]) >= c.settings.threshold
  {
    assert Step(states[j], c, events[j], states[j + 1]);
    RecoveryAtCheck(states[j], c, events[j], states[j + 1]);
    CountIsRow(states[..j + 1], c, events[..j]);
    RowAfterFind(states[..j + 2], events[..j + 1]);
    assert states[..j + 2][..j + 1] == states[..j + 1] && events[..j + 1][..j] == events[..j];
  }
}
