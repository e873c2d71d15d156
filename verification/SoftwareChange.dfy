/** Changing the software of a managed server (`change_server_software` in server_installer.py):
    steps that change the host one after another, and what undoes them when one fails. */
module SoftwareChange {
  import opened Optional

  type Path = string
  type Files = map<Path, string>

  datatype Kind = Vanilla | Paper | Forge | NeoForge | Velocity
  datatype Software = Software(kind: Kind, version: string, java: string, minimumMemory: string, maximumMemory: string)
  datatype Record = Record(software: Option<Software>, actions: map<string, seq<seq<string>>>)
  type Registry = map<string, Record>

  const UPDATE_FILE := ".manager-update.env"

  /** A request, with the files its staging directory holds when staging succeeds. */
  datatype Change = Change(server: string, software: Software, staged: Files)

  function UpdateSettings(c: Change): string {
    "UPDATE_PROVIDER=paper\nPAPER_VERSION=" + c.software.version + "\nSERVER_DIR=/srv/minecraft/" + c.server
    + "\nJAR_NAME=server.jar\nSERVICE_NAME=minecraft@" + c.server + ".service\n"
  }

  function Installed(files: Files, c: Change): Files {
    if c.software.kind.Paper? then (files + c.staged)[UPDATE_FILE := UpdateSettings(c)]
    else (files + c.staged) - {UPDATE_FILE}
  }

  function Updated(r: Record, c: Change): Record {
    Record(Some(c.software),
           if c.software.kind.Paper?
           then r.actions["update" := [["sudo", "-n", "/opt/minecraft-manager/venv/bin/mc-manager-managed-action",
                                        "update", c.server]]]
           else r.actions - {"update"})
  }

  /** Only a server the dashboard provisioned can change, and a proxy only to another proxy. */
  predicate Allowed(registry: Registry, c: Change) {
    c.server in registry
    && (registry[c.server].software.Some? && registry[c.server].software.value.kind.Velocity?)
       == c.software.kind.Velocity?
  }

  /** Whether a server that the change stopped was started again. */
  datatype Comeback = NotNeeded | CameBack | StayedDown

  datatype Outcome = Changed(restarted: bool) | Refused | Failed(comeback: Comeback) | RollbackFailed

  /** The registry, the server's own directory, whether its service runs, and its backups. */
  datatype HostState = HostState(registry: Registry, files: Files, running: bool, archives: seq<Files>)

  /** A server writes its own files while it runs, but not the update file, which belongs to root. */
  predicate SameUpdateFile(a: Files, b: Files) {
    (UPDATE_FILE in a <==> UPDATE_FILE in b) && (UPDATE_FILE in a ==> a[UPDATE_FILE] == b[UPDATE_FILE])
  }

  /** b is a, but for what a server that is up writes. */
  predicate Near(up: bool, a: Files, b: Files) {
    if up then SameUpdateFile(a, b) else a == b
  }

  /** What one call does. `left` is what the server's files were once it was stopped. A server that
      is restarted starts from exactly the new files. A failure leaves the server running or not as
      before, if and only if no restart was needed or it came back; and its files as they were left,
      unless it never went down. */
  ghost predicate ChangeRel(s: HostState, c: Change, o: Outcome, left: Files, started: Files, s': HostState) {
    && Near(s.running, s.files, left)
    && (s'.archives == s.archives || s'.archives == s.archives + [left])
    && match o
       case Refused => s' == s.(files := s'.files) && Near(s.running, s.files, s'.files)
       case Changed(restarted) =>
         && Allowed(s.registry, c)
         && s'.registry == s.registry[c.server := Updated(s.registry[c.server], c)]
         && restarted == s'.running == s.running
         && s'.archives == s.archives + [left]
         && (if restarted then started else s'.files) == Installed(left, c)
         && (restarted ==> SameUpdateFile(started, s'.files))
       case Failed(comeback) =>
         && s'.registry == s.registry
         && (s'.running == s.running <==> comeback != StayedDown)
         && (comeback != NotNeeded ==> s.running)
         && (comeback == StayedDown ==> s'.archives == s.archives)
         && Near(s.running && comeback == NotNeeded, left, s'.files)
       case RollbackFailed =>
         && Allowed(s.registry, c)
         && s'.archives == s.archives + [left]
         && (s'.registry == s.registry || s'.registry == s.registry[c.server := Updated(s.registry[c.server], c)])
  }

  // ---------------------------------------------------------------- what a change that went through means

  /** The new software is in place: every staged file as it was staged, and every other file as the server
      left it; and there is an update file exactly for Paper, naming this version and this server. */
  ghost predicate InPlace(now: Files, left: Files, c: Change) {
    && (forall p | p in c.staged && p != ".manager-update.env" :: p in now && now[p] == c.staged[p])
    && (forall p | p !in c.staged && p != ".manager-update.env" ::
          (p in now <==> p in left) && (p in now ==> now[p] == left[p]))
    && (".manager-update.env" in now <==> c.software.kind == Paper)
    && (c.software.kind == Paper ==>
          now[".manager-update.env"] ==
          "UPDATE_PROVIDER=paper\nPAPER_VERSION=" + c.software.version + "\nSERVER_DIR=/srv/minecraft/" + c.server
          + "\nJAR_NAME=server.jar\nSERVICE_NAME=minecraft@" + c.server + ".service\n")
  }

  /** The registry differs in the server's record alone: its software is the one asked for, and it has an
      update action exactly for Paper, which updates this server. */
  ghost predicate OnRecord(before: Registry, now: Registry, c: Change) {
    && c.server in before && now.Keys == before.Keys
    && (forall other | other in before && other != c.server :: now[other] == before[other])
    && now[c.server].software == Some(c.software)
    && (forall a | a != "update" ::
          && (a in now[c.server].actions <==> a in before[c.server].actions)
          && (a in now[c.server].actions ==> now[c.server].actions[a] == before[c.server].actions[a]))
    && ("update" in now[c.server].actions <==> c.software.kind == Paper)
    && (c.software.kind == Paper ==>
          now[c.server].actions["update"] ==
          [["sudo", "-n", "/opt/minecraft-manager/venv/bin/mc-manager-managed-action", "update", c.server]])
  }

  lemma InstalledIsInPlace(left: Files, c: Change)
    ensures InPlace(Installed(left, c), left, c)
  {
  }

  lemma UpdatedIsOnRecord(before: Registry, c: Change)
    requires c.server in before
    ensures OnRecord(before, before[c.server := Updated(before[c.server], c)], c)
  {
  }

  /** A server that is not provisioned cannot change, nor a proxy to anything else, nor the reverse. */
  ghost predicate Changeable(registry: Registry, c: Change) {
    c.server in registry
    && ((exists proxy :: registry[c.server].software == Some(proxy) && proxy.kind == Velocity)
        <==> c.software.kind == Velocity)
  }

  lemma AllowedIsChangeable(registry: Registry, c: Change)
    ensures Allowed(registry, c) <==> Changeable(registry, c)
  {
    if c.server in registry && registry[c.server].software.Some? {
      assert registry[c.server].software == Some(registry[c.server].software.value);
    }
  }

  /** What went through and what did not, in every outcome. */
  ghost predicate Told(s: HostState, c: Change, o: Outcome, left: Files, started: Files, s': HostState) {
    && (!s.running ==> left == s.files)
    && (o.Changed? ==>
          && Changeable(s.registry, c)
          && InPlace(if o.restarted then started else s'.files, left, c) && OnRecord(s.registry, s'.registry, c)
          && (".manager-update.env" in s'.files <==> c.software.kind == Paper)
          && o.restarted == s.running == s'.running && s'.archives == s.archives + [left])
    && ((o.Failed? || o == Refused) && !s.running ==> s'.files == s.files)
    && (o.Failed? && o.comeback != NotNeeded ==> s'.files == left)
    && (o.Failed? ==> (s'.running == s.running <==> o.comeback != StayedDown))
    && (o == RollbackFailed ==> s'.archives == s.archives + [left])
    && (o.Failed? || o == Refused ==> s'.registry == s.registry)
  }

  lemma ChangeTells(s: HostState, c: Change, o: Outcome, left: Files, started: Files, s': HostState)
    requires ChangeRel(s, c, o, left, started, s')
    ensures Told(s, c, o, left, started, s')
  {
    if o.Changed? {
      AllowedIsChangeable(s.registry, c);
      InstalledIsInPlace(left, c);
      UpdatedIsOnRecord(s.registry, c);
    }
  }

  // ---------------------------------------------------------------- the saga

  class Host {
    var registry: Registry
    var files: Files
    var running: bool
    var archives: seq<Files>
    ghost var left: Files
    ghost var started: Files

    /** Which of the calls to the system fail, by number. */
    const fails: nat -> bool
    var calls: nat

    ghost function Now(): HostState
      reads this
    {
      HostState(registry, files, running, archives)
    }

    ghost predicate FaultSince(n: nat)
      reads this`calls
    {
      exists i | n <= i < calls :: fails(i)
    }

    ghost predicate SmoothFrom(n: nat) {
      forall i | i >= n :: !fails(i)
    }

    ghost predicate OneFaultAtMost() {
      forall i, j :: fails(i) && fails(j) ==> i == j
    }

    method Succeeds() returns (ok: bool)
      modifies `calls
      ensures calls == old(calls) + 1 && ok == !fails(old(calls))
    {
      ok := !fails(calls);
      calls := calls + 1;
    }

    /** A server that is up writes its files at any time. */
    method Meanwhile()
      modifies `files
      ensures Near(running, old(files), files)
    {
      if running {
        var written: Files := *;
        if SameUpdateFile(files, written) { files := written; }
      }
    }

    method IsActive() returns (active: Option<bool>)
      modifies `calls
      ensures calls == old(calls) + 1 && active == if fails(old(calls)) then None else Some(running)
    {
      var ok := Succeeds();
      active := if ok then Some(running) else None;
    }

    /** A stop that fails may have stopped the server all the same. */
    method Stop() returns (ok: bool)
      modifies `files, `running, `calls
      ensures calls == old(calls) + 1 && ok == !fails(old(calls))
      ensures Near(old(running), old(files), files)
      ensures if ok then !running else running ==> old(running)
    {
      Meanwhile();
      ok := Succeeds();
      var stopped: bool := *;
      if ok || stopped { running := false; }
    }

    method Start() returns (ok: bool)
      modifies `running, `started, `calls
      ensures calls == old(calls) + 1 && ok == !fails(old(calls))
      ensures if ok then running && started == files else running == old(running) && started == old(started)
    {
      ok := Succeeds();
      if ok { running, started := true, files; }
    }

    /** The eight seconds after a start, in which the server may die. */
    method Settle()
      modifies `running, `files, `calls
      ensures SameUpdateFile(old(files), files)
      ensures calls == old(calls) + 1 && running == (old(running) && !fails(old(calls)))
    {
      Meanwhile();
      var ok := Succeeds();
      if !ok { running := false; }
    }

    /** Archives the files; those of a server that is up may be torn. */
    method TakeBackup() returns (ok: bool)
      modifies `archives, `files, `calls
      ensures calls == old(calls) + 1 && ok == !fails(old(calls)) && Near(running, old(files), files)
      ensures if ok then |archives| == |old(archives)| + 1 && old(archives) <= archives else archives == old(archives)
      ensures ok && !running ==> archives == old(archives) + [files]
    {
      var read := files;
      Meanwhile();
      if running { read := *; }
      ok := Succeeds();
      if ok { archives := archives + [read]; }
    }

    /** Writes files one at a time over the server's directory; a failure leaves some of them, and
        perhaps one torn. */
    method CopyTree(source: Files) returns (ok: bool)
      modifies `files, `calls
      ensures calls >= old(calls) && (!ok ==> FaultSince(old(calls)))
      ensures ok ==> Near(running, old(files) + source, files)
    {
      var pending := source.Keys;
      while pending != {}
        invariant pending <= source.Keys && calls >= old(calls)
        invariant Near(running, old(files) + (map p | p in source && p !in pending :: source[p]), files)
      {
        var p :| p in pending;
        Meanwhile();
        ghost var call := calls;
        ok := Succeeds();
        if !ok {
          assert fails(call);
          var torn: string := *;
          files := files[p := torn];
          return;
        }
        OneMoreCopied(running, old(files), source, pending, p, files);
        files := files[p := source[p]];
        pending := pending - {p};
      }
      assert (map p | p in source && p !in pending :: source[p]) == source;
      ok := true;
    }

    method WriteUpdateFile(c: Change) returns (ok: bool)
      modifies `files, `calls
      ensures calls == old(calls) + 1 && ok == !fails(old(calls))
      ensures ok ==> Near(running, if c.software.kind.Paper? then old(files)[UPDATE_FILE := UpdateSettings(c)]
                                   else old(files) - {UPDATE_FILE}, files)
    {
      Meanwhile();
      ok := Succeeds();
      if !ok { return; }
      if c.software.kind.Paper? {
        files := files[UPDATE_FILE := UpdateSettings(c)];
      } else {
        files := files - {UPDATE_FILE};
      }
    }

    /** Replacing the file is one step; what follows it can still fail. */
    method WriteRegistry(r: Registry) returns (ok: bool)
      modifies `registry, `calls
      ensures calls == old(calls) + 1 && ok == !fails(old(calls))
      ensures registry == r || (!ok && registry == old(registry))
    {
      ok := Succeeds();
      var replaced: bool := *;
      if ok || replaced { registry := r; }
    }

    /** `_restore_software_backup`. Whatever fails, the directory it replaces is lost only when the
        archive is in its place. */
    method Restore(archive: Files) returns (ok: bool, ghost aside: Option<Files>)
      modifies `files, `calls
      ensures calls >= old(calls) && (!ok ==> FaultSince(old(calls)))
      ensures ok ==> Near(running, archive, files)
      ensures !ok ==> Near(running, archive, files) || Near(running, old(files), files)
                      || (aside.Some? && Near(running, old(files), aside.value))
    {
      aside := None;
      Meanwhile();
      ghost var call := calls;
      ok := Succeeds();
      if !ok { assert fails(call); return; }
      var failedDirectory := files;
      aside, files := Some(files), map[];
      ok := CopyTree(archive);
      if !ok {
        var cleared := Succeeds();
        var back := Succeeds();
        if cleared && back { files := failedDirectory; }
        return;
      }
      assert map[] + archive == archive;
      call := calls;
      ok := Succeeds();
      if !ok { assert fails(call); return; }
      aside := None;
      call := calls;
      ok := Succeeds();
      if !ok { assert fails(call); }
    }

    /** The new software over the old, the update file, and the registry, while the server is down. */
    method Replace(c: Change) returns (ok: bool)
      requires Allowed(registry, c) && !running
      modifies `files, `registry, `calls
      ensures calls >= old(calls) && (!ok ==> FaultSince(old(calls)))
      ensures ok ==> files == Installed(old(files), c) && InPlace(files, old(files), c)
      ensures registry == old(registry)[c.server := Updated(old(registry)[c.server], c)]
              || (!ok && registry == old(registry))
    {
      InstalledIsInPlace(files, c);
      ok := CopyTree(c.staged);
      if !ok { return; }
      ghost var call := calls;
      ok := WriteUpdateFile(c);
      if !ok { assert fails(call); return; }
      call := calls;
      ok := WriteRegistry(registry[c.server := Updated(registry[c.server], c)]);
      if !ok { assert fails(call); }
    }

    /** Starts the new software, and waits whether it stays up. */
    method Launch() returns (ok: bool)
      modifies `files, `running, `started, `calls
      ensures calls >= old(calls) && (!ok ==> FaultSince(old(calls)))
      ensures ok ==> running && started == old(files) && SameUpdateFile(started, files)
    {
      ghost var call := calls;
      ok := Start();
      if !ok { assert fails(call); return; }
      Settle();
      var active := IsActive();
      ok := active == Some(true);
      if !ok { assert fails(call + 1) || fails(call + 2); }
    }

    /** Staging, then the server down, then the backup, up to the first that fails. */
    method Prepare() returns (ok: bool, wasActive: bool, backup: Option<Files>)
      modifies this
      ensures calls >= old(calls) && (!ok ==> FaultSince(old(calls))) && (ok <==> backup.Some?)
      ensures registry == old(registry) && started == old(started) && Near(old(running), old(files), left)
      ensures (wasActive ==> old(running)) && (running ==> old(running)) && (!wasActive ==> running == old(running))
      ensures Near(running, left, files)
      ensures archives == if ok then old(archives) + [left] else old(archives)
      ensures ok ==> backup == Some(left) && wasActive == old(running) && !running
    {
      wasActive, backup := false, None;
      Meanwhile();
      left := files;
      ghost var call := calls;
      ok := Succeeds();
      if !ok { assert fails(call); return; }
      ok, wasActive := TakeDown();
      left := files;
      if !ok { return; }
      call := calls;
      ok := TakeBackup();
      if !ok { assert fails(call); return; }
      backup := Some(archives[|archives| - 1]);
    }

    /** Notes whether the server is active, and stops it. */
    method TakeDown() returns (ok: bool, wasActive: bool)
      modifies `files, `running, `calls
      ensures calls >= old(calls) && (!ok ==> FaultSince(old(calls))) && Near(old(running), old(files), files)
      ensures (wasActive ==> old(running)) && (running ==> old(running)) && (!wasActive ==> running == old(running))
      ensures ok ==> wasActive == old(running) && !running
    {
      ghost var call := calls;
      var active := IsActive();
      if active.None? { assert fails(call); return false, false; }
      wasActive := active.value;
      ok := Stop();
      if !ok { assert fails(call + 1); }
    }

    /** The forward steps, up to the first that fails. */
    method Forward(c: Change) returns (ok: bool, wasActive: bool, backup: Option<Files>)
      requires Allowed(registry, c)
      modifies this
      ensures calls >= old(calls) && (!ok ==> FaultSince(old(calls)))
      ensures ok ==> wasActive == old(running) && backup.Some? &&
                     ChangeRel(old(Now()), c, Changed(wasActive), left, started, Now())
      ensures Near(old(running), old(files), left) && (wasActive ==> old(running))
      ensures backup.None? ==>
                && registry == old(registry) && Near(running, left, files) && archives == old(archives)
                && (running ==> old(running)) && (!wasActive ==> running == old(running))
      ensures backup.Some? ==> backup == Some(left) && archives == old(archives) + [left] && wasActive == old(running)
                               && (!wasActive ==> !running)
      ensures registry == old(registry) || registry == old(registry)[c.server := Updated(old(registry)[c.server], c)]
    {
      ok, wasActive, backup := Prepare();
      if !ok { return; }
      ok := Replace(c);
      if !ok { return; }
      if wasActive { ok := Launch(); }
    }

    /** Starts a server again that was active before, and says whether that was needed and worked. */
    method StartAgain() returns (ok: bool, comeback: Comeback)
      modifies `running, `started, `calls
      ensures calls == old(calls) + 1 && ok == !fails(old(calls))
      ensures comeback == if old(running) then NotNeeded else if ok then CameBack else StayedDown
      ensures running == (comeback != StayedDown)
    {
      comeback := if running then NotNeeded else StayedDown;
      ok := Start();
      if ok && comeback == StayedDown { comeback := CameBack; }
    }

    /** The handler around the forward steps. With a backup it restores everything; without one there
        is only the server to start again. */
    method Undo(wasActive: bool, backup: Option<Files>, original: Registry) returns (o: Outcome)
      modifies this
      ensures left == old(left) && archives == old(archives)
      ensures o.Failed? || (o == RollbackFailed && backup.Some?)
      ensures registry == original || registry == old(registry)
      ensures o.Failed? && o.comeback != NotNeeded ==> wasActive
      ensures o.Failed? && backup.Some? ==>
                && registry == original && o.comeback != StayedDown
                && (wasActive ==> running) && (!wasActive && !old(running) ==> !running)
                && Near((wasActive || old(running)) && o.comeback == NotNeeded, backup.value, files)
      ensures backup.None? ==>
                && files == old(files) && registry == old(registry)
                && running == (if wasActive then o.comeback != StayedDown else old(running))
                && (wasActive ==> (old(running) <==> o.comeback == NotNeeded))
      ensures SmoothFrom(old(calls)) ==>
                o.Failed? && o.comeback != StayedDown && (backup.Some? ==> files == backup.value)
    {
      var comeback := NotNeeded;
      if backup.Some? {
        var ok := Succeeds();
        if !ok { return RollbackFailed; }
        var stopped := Stop();
        ghost var aside;
        ghost var call := calls;
        ok, aside := Restore(backup.value);
        if !ok { return RollbackFailed; }
        ok := WriteRegistry(original);
        if !ok { return RollbackFailed; }
        if wasActive {
          ok, comeback := StartAgain();
          if !ok { return RollbackFailed; }
        }
      } else if wasActive {
        var ignored;
        ignored, comeback := StartAgain();
      }
      o := Failed(comeback);
    }

    /** `change_server_software`. A change that goes through puts the staged software in place and on record;
        one that does not leaves both alone. Without any fault an allowed change goes through. Otherwise something
        failed before call h, where the handler starts; and if nothing fails from there on, the files, the
        registry and the running state are as before. In particular they are if only one call fails. */
    method ChangeSoftware(c: Change) returns (o: Outcome, ghost h: nat)
      modifies this
      ensures ChangeRel(old(Now()), c, o, left, started, Now()) && Told(old(Now()), c, o, left, started, Now())
      ensures !Changeable(old(registry), c) ==> o == Refused
      ensures Changeable(old(registry), c) && SmoothFrom(old(calls)) ==> o.Changed?
      ensures o.Failed? || o == RollbackFailed ==> exists i | old(calls) <= i < h :: fails(i)
      ensures (o.Failed? || o == RollbackFailed) && SmoothFrom(h) ==>
                && o.Failed? && running == old(running) && registry == old(registry)
                && (archives != old(archives) ==> files == left)
      ensures OneFaultAtMost() ==>
                && o != RollbackFailed
                && (o.Failed? ==> running == old(running) && registry == old(registry))
                && (o.Failed? && archives != old(archives) ==> files == left)
    {
      AllowedIsChangeable(registry, c);
      o, h := TryChange(c);
      ChangeTells(old(Now()), c, o, left, started, Now());
    }

    method TryChange(c: Change) returns (o: Outcome, ghost h: nat)
      modifies this
      ensures ChangeRel(old(Now()), c, o, left, started, Now())
      ensures !Allowed(old(registry), c) ==> o == Refused
      ensures Allowed(old(registry), c) && SmoothFrom(old(calls)) ==> o.Changed?
      ensures o.Failed? || o == RollbackFailed ==> exists i | old(calls) <= i < h :: fails(i)
      ensures (o.Failed? || o == RollbackFailed) && SmoothFrom(h) ==>
                && o.Failed? && running == old(running) && registry == old(registry)
                && (archives != old(archives) ==> files == left)
      ensures OneFaultAtMost() ==>
                && o != RollbackFailed
                && (o.Failed? ==> running == old(running) && registry == old(registry))
                && (o.Failed? && archives != old(archives) ==> files == left)
    {
      Meanwhile();
      left := files;
      h := calls;
      if !Allowed(registry, c) { return Refused, h; }
      var resolved := Succeeds();
      if !resolved { return Refused, h; }
      var original := registry;
      var ok, wasActive, backup := Forward(c);
      h := calls;
      if ok { return Changed(wasActive), h; }
      o := Undo(wasActive, backup, original);
    }
  }

  lemma OneMoreCopied(up: bool, before: Files, source: Files, pending: set<Path>, p: Path, files: Files)
    requires p in pending && pending <= source.Keys
    requires Near(up, before + (map q | q in source && q !in pending :: source[q]), files)
    ensures Near(up, before + (map q | q in source && q !in pending - {p} :: source[q]), files[p := source[p]])
  {
    assert before + (map q | q in source && q !in pending - {p} :: source[q])
        == (before + (map q | q in source && q !in pending :: source[q]))[p := source[p]];
  }

  // ---------------------------------------------------------------- over whole runs

  /** The software on record, the update action and the update file agree. */
  predicate Consistent(s: HostState, server: string) {
    server in s.registry && s.registry[server].software.Some? &&
    var paper := s.registry[server].software.value.kind.Paper?;
    paper == (UPDATE_FILE in s.files) && paper == ("update" in s.registry[server].actions)
  }

  /** One event on one server: a call that ended in any way but a failed rollback, or the server
      writing its files while it runs. */
  ghost predicate Step(s: HostState, server: string, c: Option<Change>, s': HostState) {
    match c
    case None => s' == s.(files := s'.files) && s.running && SameUpdateFile(s.files, s'.files)
    case Some(change) =>
      change.server == server
      && exists o, left, started :: o != RollbackFailed && ChangeRel(s, change, o, left, started, s')
  }

  ghost predicate Run(states: seq<HostState>, server: string, changes: seq<Option<Change>>) {
    |states| == |changes| + 1 && forall i | 0 <= i < |changes| :: Step(states[i], server, changes[i], states[i + 1])
  }

  lemma StepKeepsConsistent(s: HostState, server: string, c: Option<Change>, s': HostState)
    requires Consistent(s, server) && Step(s, server, c, s')
    ensures Consistent(s', server)
  {
    if c.Some? {
      var o, left, started :| o != RollbackFailed && ChangeRel(s, c.value, o, left, started, s');
      if o.Changed? { assert SameUpdateFile(Installed(left, c.value), s'.files); }
    }
  }

  /** Through any changes of software, successful or undone, the registry and the disk go on
      agreeing about whether the server updates itself. */
  lemma {:induction false} AlwaysConsistent(states: seq<HostState>, server: string,
                                          changes: seq<Option<Change>>, j: nat)
    requires Run(states, server, changes) && j < |states| && Consistent(states[0], server)
    ensures Consistent(states[j], server)
  {
    if j > 0 {
      AlwaysConsistent(states, server, changes, j - 1);
      StepKeepsConsistent(states[j - 1], server, changes[j - 1], states[j]);
    }
  }

  predicate SameAt(p: Path, a: Files, b: Files) {
    (p in a <==> p in b) && (p in a ==> a[p] == b[p])
  }

  lemma StepKeepsWorld(s: HostState, server: string, c: Option<Change>, s': HostState, p: Path)
    requires Step(s, server, c, s') && !s.running && p != UPDATE_FILE && (c.Some? ==> p !in c.value.staged)
    ensures !s'.running && SameAt(p, s.files, s'.files)
    ensures s'.archives == s.archives || s'.archives == s.archives + [s.files]
  {
    var o, left, started :| o != RollbackFailed && ChangeRel(s, c.value, o, left, started, s');
    ChangeKeepsWorld(s, c.value, o, left, started, s', p);
  }

  lemma InstalledKeeps(files: Files, c: Change, p: Path)
    requires p != UPDATE_FILE && p !in c.staged
    ensures SameAt(p, files, Installed(files, c))
  {
  }

  lemma ChangeKeepsWorld(s: HostState, c: Change, o: Outcome, left: Files, started: Files, s': HostState, p: Path)
    requires ChangeRel(s, c, o, left, started, s') && o != RollbackFailed
    requires !s.running && p != UPDATE_FILE && p !in c.staged
    ensures !s'.running && SameAt(p, s.files, s'.files)
    ensures s'.archives == s.archives || s'.archives == s.archives + [s.files]
  {
    InstalledKeeps(left, c, p);
  }

  /** While the server is stopped, a file that no staged software names comes through any changes,
      successful or undone, and every backup taken holds it. */
  lemma {:induction false} WorldSurvives(states: seq<HostState>, server: string,
                                       changes: seq<Option<Change>>, p: Path, j: nat)
    requires Run(states, server, changes) && j < |states| && !states[0].running && p != UPDATE_FILE
    requires forall i | 0 <= i < |changes| && changes[i].Some? :: p !in changes[i].value.staged
    ensures !states[j].running && SameAt(p, states[0].files, states[j].files)
    ensures states[0].archives <= states[j].archives
    ensures forall a | |states[0].archives| <= a < |states[j].archives| ::
              SameAt(p, states[0].files, states[j].archives[a])
  {
    if j > 0 {
      WorldSurvives(states, server, changes, p, j - 1);
      StepKeepsWorld(states[j - 1], server, changes[j - 1], states[j], p);
    }
  }
}
