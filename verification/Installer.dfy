/** Serialized installation and crash recovery (mc_manager/launcher/installer.py). Every replace,
    unlink and metadata write is one atomic step. A stream of faults says of each call whether it goes
    through, raises, or kills the process; a stream of edits says what the user does to the managed
    files before each step. */
module Installer {
  import opened Optional
  import opened PackModels
  import opened Planner
  import opened Journal
  import opened Attempts
  import opened OnlyManaged

  // ---------------------------------------------------------------- pending operations

  /** The first t entries of `pending` are, in order, the operations below j that need undoing. */
  ghost predicate IsPending(d: Disk, pending: seq<nat>, j: nat, t: nat)
    requires d.journal.Some? && j <= |d.journal.value.ops| && t <= |pending|
  {
    && (forall s | 0 <= s < t :: pending[s] < j && NeedsUndo(d, pending[s]))
    && (forall s, u | 0 <= s < u < t :: pending[s] < pending[u])
    && (forall k | 0 <= k < j && NeedsUndo(d, k) :: exists s :: 0 <= s < t && pending[s] == k)
  }

  lemma OneMorePending(d: Disk, pending: seq<nat>, j: nat)
    requires d.journal.Some? && j < |d.journal.value.ops| && IsPending(d, pending, j, |pending|)
    ensures if NeedsUndo(d, j) then IsPending(d, pending + [j], j + 1, |pending| + 1)
            else IsPending(d, pending, j + 1, |pending|)
  {
    if NeedsUndo(d, j) {
      var more := pending + [j];
      forall k | 0 <= k < j + 1 && NeedsUndo(d, k) ensures exists s :: 0 <= s < |more| && more[s] == k {
        if k == j {
          assert more[|pending|] == k;
        } else {
          var s :| 0 <= s < |pending| && pending[s] == k;
          assert more[s] == k;
        }
      }
    }
  }

  lemma NonePendingBetween(d: Disk, pending: seq<nat>, j: nat, t: nat)
    requires d.journal.Some? && j <= |d.journal.value.ops| && 0 < t <= |pending|
    requires IsPending(d, pending, j, t)
    ensures pending[t - 1] < j && forall k | pending[t - 1] < k < j :: !NeedsUndo(d, k)
    ensures IsPending(d, pending, pending[t - 1], t - 1)
  {
  }

  /** The next operation to undo, from the last on: its backup is there, and undoing it restores all
      operations from it on. */
  lemma NextUndo(d: Disk, pending: seq<nat>, j: nat, t: nat)
    requires d.journal.Some? && Restorable(d) && Distinct(d.journal.value.ops)
    requires j <= |d.journal.value.ops| && 0 < t <= |pending| && IsPending(d, pending, j, t)
    ensures var index, ops := pending[t - 1], d.journal.value.ops;
            && index < j && IsPending(d, pending, index, t - 1)
            && Restored(d.files, ops, index) == Put(Restored(d.files, ops, j), ops[index].path, ops[index].before)
            && (ops[index].before.Some? ==> Stored(d.backups, (d.journal.value.id, index)) == ops[index].before)
  {
    NonePendingBetween(d, pending, j, t);
    RestoreSkips(d, pending[t - 1] + 1, j);
  }

  lemma PartlyRestored(d: Disk, why: Stop, j: nat)
    requires Readable(d) && !Committed(d) && Restorable(d) && j <= |d.journal.value.ops|
    requires why in {Crash, Raised(OSError)}
    ensures RecoverRel(d, Stopped(why), d.(files := Restored(d.files, d.journal.value.ops, j)))
  {
  }

  lemma NoneLeft(d: Disk, pending: seq<nat>, j: nat)
    requires d.journal.Some? && Distinct(d.journal.value.ops) && j <= |d.journal.value.ops|
             && IsPending(d, pending, j, 0)
    ensures Restored(d.files, d.journal.value.ops, j) == Restored(d.files, d.journal.value.ops, 0)
  {
    RestoreSkips(d, 0, j);
  }

  // ---------------------------------------------------------------- the installer

  /** What the environment does at one file-system or network call. */
  datatype Fault = NoFault | Dies | Fails | WrongBytes | LeavesFolders

  class Instance {
    var files: Files
    var journal: Option<Transaction>
    var receipt: Option<Receipt>
    var backups: map<(nat, nat), Stamp>
    var downloads: map<(nat, nat), Stamp>

    /** The environment: call n meets faults(n), and the user has cancelled from call cancelFrom on. */
    const faults: nat -> Fault
    const cancelFrom: Option<nat>
    var calls: nat

    /** The user: before step n the managed files are edited by edits(n). */
    const edits: nat -> Edits
    var steps: nat

    /** What has happened to the managed files in the current attempt. */
    ghost var log: seq<Deed>

    ghost function Now(): Disk
      reads this
    {
      Disk(files, journal, receipt, backups, downloads)
    }

    predicate CallFails(n: nat) {
      faults(n) in {Dies, Fails}
    }

    predicate CancelledBy(n: nat) {
      cancelFrom.Some? && cancelFrom.value <= n
    }

    /** Nothing outside ever goes wrong. */
    ghost predicate Calm() {
      cancelFrom.None? && forall n :: faults(n) == NoFault
    }

    method Fate() returns (stop: Option<Stop>)
      modifies this`calls
      ensures calls == old(calls) + 1 && (stop.Some? <==> CallFails(old(calls)))
      ensures stop in {None, Some(Crash), Some(Raised(OSError))} && (Calm() ==> stop.None?)
    {
      stop := match faults(calls) case Dies => Some(Crash) case Fails => Some(Raised(OSError)) case _ => None;
      calls := calls + 1;
    }

    /** `_cancelled`: once set, the cancel event stays set. */
    method CancelCheck() returns (stop: Option<Stop>)
      modifies this`calls
      ensures calls == old(calls) + 1
      ensures stop == if CancelledBy(old(calls)) then Some(Raised(Cancelled)) else None
    {
      stop := if CancelledBy(calls) then Some(Raised(Cancelled)) else None;
      calls := calls + 1;
    }

    /** The stamp of a response body, or of a copy of a file that is written to meanwhile. */
    method Arrive(expected: Stamp) returns (s: Stamp)
      modifies this`calls
      ensures calls == old(calls) + 1 && (Calm() ==> s == expected)
    {
      s := expected;
      if faults(calls) == WrongBytes {
        var size: nat, sha256: string := *, *;
        s := Stamp(size, sha256);
      }
      calls := calls + 1;
    }

    /** Folders without files below them, as earlier installations or the user leave them. */
    method StrayFolders() returns (folders: set<Path>)
      modifies this`calls
      ensures calls == old(calls) + 1 && (Calm() ==> folders == {})
    {
      folders := {};
      if faults(calls) == LeavesFolders { folders := *; }
      calls := calls + 1;
    }

    /** The user's turn. */
    method UserEdits(ghost base: Files, ghost ops: seq<Operation>)
      requires Accounts(base, log, ops, files)
      modifies this`files, this`log, this`steps
      ensures Accounts(base, log, ops, files) && Writes(log) == old(Writes(log))
      ensures Rechecked(base, log) == old(Rechecked(base, log))
      ensures log == old(log) + [UserDid(edits(old(steps)))] && steps == old(steps) + 1
      ensures old(Disturbed(base, log, ops)) ==> Disturbed(base, log, ops)
      ensures Peaceful() && NoEdits(old(log)) ==> NoEdits(log)
    {
      UserDeed(base, log, ops, files, edits(steps));
      if Disturbed(base, log, ops) { StaysDisturbed(base, log, ops, UserDid(edits(steps))); }
      files := Edited(files, edits(steps));
      log := log + [UserDid(edits(steps))];
      steps := steps + 1;
    }

    /** The user edits nothing. */
    ghost predicate Peaceful() {
      forall n :: edits(n) == map[]
    }

    /** Turns of the user, from step t on, and the first k operations between them. */
    ghost function Deeds(ops: seq<Operation>, t: nat, k: nat): seq<Deed>
      requires k <= |ops|
    {
      if k == 0 then []
      else
        Deeds(ops, t, k - 1) + TurnOf(ops[k - 1], t + k - 1, true)
    }

    /** A turn of the user at step n, and the operation after it if that comes about. */
    ghost function TurnOf(op: Operation, n: nat, done: bool): seq<Deed> {
      [UserDid(edits(n))] + if done then [Wrote(op.path, op.before, op.after)] else []
    }

    /** The log grew by the user's turns from step t on with the first k operations between them, and by
        one more turn if the next operation did not come about. */
    ghost predicate AppliedLog(before: seq<Deed>, log: seq<Deed>, ops: seq<Operation>, t: nat, k: nat, turn: bool)
      requires k <= |ops|
    {
      log == before + Deeds(ops, t, k) + if turn then [UserDid(edits(t + k))] else []
    }

    lemma OneMoreTurn(before: seq<Deed>, former: seq<Deed>, log: seq<Deed>, ops: seq<Operation>, t: nat, k: nat,
                      stopped: bool)
      requires k < |ops| && AppliedLog(before, former, ops, t, k, false)
      requires log == former + TurnOf(ops[k], t + k, !stopped)
      ensures if stopped then AppliedLog(before, log, ops, t, k, true)
              else AppliedLog(before, log, ops, t, k + 1, false)
    {
    }

    // -------------------------------------------------------------- recovery

    /** `_recover_locked`. */
    method Recover() returns (r: Recovery)
      modifies this`files, this`journal, this`calls
      ensures RecoverRel(old(Now()), r, Now()) && (Calm() && r.Stopped? ==> !External(r.why))
      ensures calls >= old(calls) && (r == KeptCommit ==> calls == old(calls) + 1 && !CallFails(old(calls)))
    {
      if journal.None? { return NotNeeded; }
      var tx := journal.value;
      if !ValidTransaction(tx) || !ValidReceipt(receipt) { return Stopped(Raised(BadMetadata)); }
      if receipt.Some? && receipt.value.transactionId == tx.id {
        var unlink := Fate();
        if unlink.Some? { return Stopped(unlink.value); }
        journal := None;
        return KeptCommit;
      }
      var stop, pending := CheckTargets(tx);
      if stop.Some? { return Stopped(stop.value); }
      r := UndoPending(tx, pending);
    }

    /** Checks every target and backup before anything is touched; returns what is to be undone. */
    method CheckTargets(tx: Transaction) returns (stop: Option<Stop>, pending: seq<nat>)
      requires journal == Some(tx)
      modifies this`calls
      ensures calls >= old(calls) && (Calm() && stop.Some? ==> !External(stop.value))
      ensures stop.None? ==> Restorable(Now()) && IsPending(Now(), pending, |tx.ops|, |pending|)
      ensures stop == Some(Raised(Refused)) ==> !Restorable(Now())
      ensures stop.Some? ==> stop.value in {Crash, Raised(OSError), Raised(Refused)}
    {
      pending := [];
      for i := 0 to |tx.ops|
        invariant IsPending(Now(), pending, i, |pending|) && calls >= old(calls)
        invariant forall k | 0 <= k < i :: RestorableAt(Now(), k)
      {
        var needed;
        stop, needed := CheckTarget(tx, i);
        if stop.Some? { return; }
        OneMorePending(Now(), pending, i);
        if needed { pending := pending + [i]; }
      }
      AllRestorable(Now());
      stop := None;
    }

    method CheckTarget(tx: Transaction, i: nat) returns (stop: Option<Stop>, needed: bool)
      requires journal == Some(tx) && i < |tx.ops|
      modifies this`calls
      ensures calls >= old(calls) && (Calm() && stop.Some? ==> !External(stop.value))
      ensures stop.None? ==> RestorableAt(Now(), i) && needed == NeedsUndo(Now(), i)
      ensures stop == Some(Raised(Refused)) ==> !RestorableAt(Now(), i)
      ensures stop.Some? ==> stop.value in {Crash, Raised(OSError), Raised(Refused)}
    {
      var op := tx.ops[i];
      needed := false;
      stop := Fate();
      if stop.Some? { return; }
      if !Usable(files, op.path) { return Some(Raised(Refused)), false; }
      var current := At(files, op.path);
      if current == op.before { return None, false; }
      if current != op.after || (op.before.Some? && Stored(backups, (tx.id, i)) != op.before) {
        return Some(Raised(Refused)), true;
      }
      needed := true;
    }

    /** Undoes the pending operations, last first, then removes the journal. */
    method UndoPending(tx: Transaction, pending: seq<nat>) returns (r: Recovery)
      requires journal == Some(tx) && ValidTransaction(tx) && ValidReceipt(receipt) && !Committed(Now())
      requires Restorable(Now()) && IsPending(Now(), pending, |tx.ops|, |pending|)
      modifies this`files, this`journal, this`calls
      ensures RecoverRel(old(Now()), r, Now()) && (Calm() && r.Stopped? ==> !External(r.why))
      ensures calls >= old(calls) && r != KeptCommit
    {
      ghost var d := Now();
      ValidIsDistinct(tx);
      var t := |pending|;
      ghost var j: nat := |tx.ops|;
      while t > 0
        invariant 0 <= t <= |pending| && j <= |tx.ops| && calls >= old(calls)
        invariant IsPending(d, pending, j, t)
        invariant Now() == d.(files := Restored(d.files, tx.ops, j))
      {
        NextUndo(d, pending, j, t);
        var stop := UndoOne(tx, pending[t - 1]);
        if stop.Some? {
          PartlyRestored(d, stop.value, j);
          return Stopped(stop.value);
        }
        t, j := t - 1, pending[t - 1];
      }
      NoneLeft(d, pending, j);
      var unlink := Fate();
      if unlink.Some? {
        PartlyRestored(d, unlink.value, j);
        return Stopped(unlink.value);
      }
      journal := None;
      r := RolledBack;
    }

    method UndoOne(tx: Transaction, index: nat) returns (stop: Option<Stop>)
      requires index < |tx.ops|
      requires tx.ops[index].before.Some? ==> Stored(backups, (tx.id, index)) == tx.ops[index].before
      modifies this`files, this`calls
      ensures calls == old(calls) + 1
      ensures files == if stop.Some? then old(files) else Put(old(files), tx.ops[index].path, tx.ops[index].before)
      ensures stop.Some? ==> stop.value in {Crash, Raised(OSError)} && !Calm()
    {
      var op := tx.ops[index];
      stop := Fate();
      if stop.Some? { return; }
      if op.before.None? {
        files := files - {op.path};
      } else {
        files := files[op.path := backups[(tx.id, index)]];
      }
    }

    // -------------------------------------------------------------- before the journal

    /** The download loop; a body that does not have the declared size and hash is refused. */
    method Download(tx: Transaction, changes: seq<FileItem>) returns (stop: Option<Stop>)
      requires |changes| <= |tx.ops|
      requires forall i | 0 <= i < |changes| :: tx.ops[i].after == Some(changes[i].entry.stamp)
      modifies this`downloads, this`calls
      ensures OthersKept(old(downloads), downloads, tx.id) && calls >= old(calls)
      ensures stop.None? ==> Fetched(tx, |changes|, downloads)
      ensures stop.Some? ==> External(stop.value) && !Calm()
    {
      for i := 0 to |changes|
        invariant OthersKept(old(downloads), downloads, tx.id) && calls >= old(calls)
        invariant Fetched(tx, i, downloads)
      {
        var cancel := CancelCheck();
        if cancel.Some? { return cancel; }
        var body := Arrive(changes[i].entry.stamp);
        downloads := downloads[(tx.id, i) := body];
        stop := Fate();
        if stop.Some? { return; }
        if body != changes[i].entry.stamp { return Some(Raised(Mismatch)); }
      }
      return None;
    }

    /** Kept files included, everything the plan looked at is as the plan saw it. An edit in the middle is
        as good as one before, of what is still to be looked at, or after. */
    method Recheck(plan: Plan) returns (stop: Option<Stop>)
      modifies this`calls
      ensures calls >= old(calls) && (stop.None? ==> StillPlanned(plan, files))
      ensures stop.Some? ==>
                (External(stop.value) && !Calm()) || (stop.value == Raised(Refused) && !StillPlanned(plan, files))
      ensures stop.None? ==> Unchanged(plan, files)
      ensures stop == Some(Raised(Refused)) ==> !Unchanged(plan, files)
    {
      PlannedIsUnchanged(plan, files);
      for i := 0 to |plan.files|
        invariant calls >= old(calls)
        invariant forall j | 0 <= j < i :: Finds(files, plan.files[j].entry.path, plan.files[j].before)
      {
        stop := Fate();
        if stop.Some? { return; }
        if !Finds(files, plan.files[i].entry.path, plan.files[i].before) { return Some(Raised(Refused)); }
      }
      for i := 0 to |plan.removals|
        invariant calls >= old(calls)
        invariant forall j | 0 <= j < i :: Finds(files, plan.removals[j].path, Some(plan.removals[j].before))
      {
        stop := Fate();
        if stop.Some? { return; }
        if !Finds(files, plan.removals[i].path, Some(plan.removals[i].before)) { return Some(Raised(Refused)); }
      }
      return None;
    }

    /** Copies what will be replaced. The user may go on editing: a copy that is not the planned stamp
        stops it, because the file changed or because the copy is bad. */
    method BackUp(ghost base: Files, tx: Transaction) returns (stop: Option<Stop>)
      requires Accounts(base, log, tx.ops, files) && Writes(log) == 0
      modifies this`backups, this`calls, this`files, this`log, this`steps
      ensures Accounts(base, log, tx.ops, files) && Writes(log) == 0
      ensures Rechecked(base, log) == old(Rechecked(base, log))
      ensures OthersKept(old(backups), backups, tx.id) && calls >= old(calls)
      ensures Peaceful() && NoEdits(old(log)) ==> NoEdits(log)
      ensures stop.None? ==> BackedUp(tx, backups)
      ensures stop.Some? ==> Stops(base, tx.ops, stop.value)
    {
      for i := 0 to |tx.ops|
        invariant Accounts(base, log, tx.ops, files) && Writes(log) == 0
        invariant Rechecked(base, log) == old(Rechecked(base, log))
        invariant calls >= old(calls) && (Peaceful() && NoEdits(old(log)) ==> NoEdits(log))
        invariant OthersKept(old(backups), backups, tx.id) && BackedUpTo(tx, backups, i)
      {
        UserEdits(base, tx.ops);
        var cancel := CancelCheck();
        if cancel.Some? { return cancel; }
        ghost var before := backups;
        if tx.ops[i].before.Some? {
          stop := BackUpOne(base, tx, i);
          if stop.Some? { return; }
        }
        OneMoreBackup(tx, before, backups, i);
      }
      return None;
    }

    method BackUpOne(ghost base: Files, tx: Transaction, i: nat) returns (stop: Option<Stop>)
      requires i < |tx.ops| && tx.ops[i].before.Some?
      requires Accounts(base, log, tx.ops, files) && Writes(log) == 0
      modifies this`backups, this`calls
      ensures calls >= old(calls) && OthersKept(old(backups), backups, tx.id)
              && SameBut(old(backups), backups, (tx.id, i))
      ensures stop.None? ==> Stored(backups, (tx.id, i)) == tx.ops[i].before
      ensures stop.Some? ==> Stops(base, tx.ops, stop.value)
    {
      var op := tx.ops[i];
      if !Usable(files, op.path) || op.path !in files {
        DisturbedNow(base, log, tx.ops, i);
        return Some(Raised(Refused));
      }
      var copy := Arrive(files[op.path]);
      backups := backups[(tx.id, i) := copy];
      stop := Fate();
      if stop.Some? { return; }
      if copy != op.before.value {
        if files[op.path] == op.before.value { return Some(Raised(Mismatch)); }
        DisturbedNow(base, log, tx.ops, i);
        return Some(Raised(Refused));
      }
    }

    // -------------------------------------------------------------- from the journal on

    /** The apply loop. The user may go on editing: it looks at every target just before touching it, and
        stops at the first that is not what the operation says it was before. */
    method Apply(ghost base: Files, tx: Transaction, changes: nat) returns (stop: Option<Stop>)
      requires changes <= |tx.ops| && Fetched(tx, changes, downloads)
      requires forall i | changes <= i < |tx.ops| :: tx.ops[i].after.None?
      requires Accounts(base, log, tx.ops, files) && Writes(log) == 0
      modifies this`files, this`calls, this`log, this`steps
      ensures Accounts(base, log, tx.ops, files) && Rechecked(base, log) == old(Rechecked(base, log))
      ensures calls >= old(calls) && (Peaceful() && NoEdits(old(log)) ==> NoEdits(log))
      ensures Writes(log) <= |tx.ops| && (stop.None? <==> Writes(log) == |tx.ops|)
      ensures AppliedLog(old(log), log, tx.ops, old(steps), Writes(log), stop.Some?)
      ensures stop.Some? ==> Stops(base, tx.ops, stop.value)
    {
      stop := ApplyLoop(base, tx, changes);
      SameStart(base, old(log), log);
    }

    method ApplyLoop(ghost base: Files, tx: Transaction, changes: nat) returns (stop: Option<Stop>)
      requires changes <= |tx.ops| && Fetched(tx, changes, downloads)
      requires forall i | changes <= i < |tx.ops| :: tx.ops[i].after.None?
      requires Accounts(base, log, tx.ops, files) && Writes(log) == 0
      modifies this`files, this`calls, this`log, this`steps
      ensures Accounts(base, log, tx.ops, files) && calls >= old(calls)
      ensures Peaceful() && NoEdits(old(log)) ==> NoEdits(log)
      ensures Writes(log) <= |tx.ops| && (stop.None? <==> Writes(log) == |tx.ops|)
      ensures AppliedLog(old(log), log, tx.ops, old(steps), Writes(log), stop.Some?)
      ensures stop.Some? ==> Stops(base, tx.ops, stop.value)
    {
      for i := 0 to |tx.ops|
        invariant Accounts(base, log, tx.ops, files)
        invariant Writes(log) == i && steps == old(steps) + i && calls >= old(calls)
        invariant AppliedLog(old(log), log, tx.ops, old(steps), i, false)
        invariant Peaceful() && NoEdits(old(log)) ==> NoEdits(log)
      {
        ghost var former := log;
        stop := ApplyTurn(base, tx, i, changes);
        OneMoreTurn(old(log), former, log, tx.ops, old(steps), i, stop.Some?);
        if stop.Some? { return; }
      }
      return None;
    }

    /** Why a step stops: something outside, or the user changed a target of a later operation. */
    ghost predicate Stops(base: Files, ops: seq<Operation>, why: Stop)
      reads this`log
    {
      (External(why) && !Calm()) || (why == Raised(Refused) && Disturbed(base, log, ops))
    }

    method ApplyTurn(ghost base: Files, tx: Transaction, i: nat, changes: nat) returns (stop: Option<Stop>)
      requires i < |tx.ops| && changes <= |tx.ops| && Fetched(tx, changes, downloads)
      requires i >= changes ==> tx.ops[i].after.None?
      requires Accounts(base, log, tx.ops, files) && Writes(log) == i
      modifies this`files, this`calls, this`log, this`steps
      ensures Accounts(base, log, tx.ops, files) && calls >= old(calls) && steps == old(steps) + 1
      ensures Writes(log) == i + (if stop.None? then 1 else 0)
      ensures log == old(log) + TurnOf(tx.ops[i], old(steps), stop.None?)
      ensures Peaceful() && NoEdits(old(log)) ==> NoEdits(log)
      ensures stop.Some? ==> Stops(base, tx.ops, stop.value)
    {
      UserEdits(base, tx.ops);
      stop := CancelCheck();
      if stop.Some? { return; }
      stop := ApplyOne(base, tx, i, changes);
    }

    method ApplyOne(ghost base: Files, tx: Transaction, i: nat, changes: nat) returns (stop: Option<Stop>)
      requires i < |tx.ops| && changes <= |tx.ops| && Fetched(tx, changes, downloads)
      requires i >= changes ==> tx.ops[i].after.None?
      requires Accounts(base, log, tx.ops, files) && Writes(log) == i
      modifies this`files, this`calls, this`log
      ensures Accounts(base, log, tx.ops, files)
      ensures calls >= old(calls) && Writes(log) == i + if stop.None? then 1 else 0
      ensures log == old(log) + if stop.None? then [Wrote(tx.ops[i].path, tx.ops[i].before, tx.ops[i].after)] else []
      ensures stop.Some? ==> Stops(base, tx.ops, stop.value)
    {
      stop := Fate();
      if stop.Some? { return; }
      var op := tx.ops[i];
      if !Finds(files, op.path, op.before) {
        DisturbedNow(base, log, tx.ops, i);
        return Some(Raised(Refused));
      }
      WriteDeed(base, log, tx.ops, files, i);
      if op.after.None? {
        files := files - {op.path};
      } else {
        files := files[op.path := downloads[(tx.id, i)]];
      }
      log := log + [Wrote(op.path, op.before, op.after)];
    }

    lemma {:induction false} DeedsAt(ops: seq<Operation>, t: nat, k: nat, j: nat)
      requires j < k <= |ops|
      ensures |Deeds(ops, t, k)| == 2 * k && Deeds(ops, t, k)[2 * j] == UserDid(edits(t + j))
      ensures Deeds(ops, t, k)[2 * j + 1] == Wrote(ops[j].path, ops[j].before, ops[j].after)
    {
      if k > 1 { DeedsAt(ops, t, k - 1, if j < k - 1 then j else 0); }
    }

    /** An edit of a target just before its operation stops the apply loop there, if nothing did before. */
    lemma EditStopsApply(base: Files, before: seq<Deed>, log: seq<Deed>, now: Files, ops: seq<Operation>, t: nat,
                         k: nat, turn: bool, j: nat)
      requires k <= |ops| && Accounts(base, log, ops, now) && AppliedLog(before, log, ops, t, k, turn)
      requires j < |ops| && ops[j].path in edits(t + j) && edits(t + j)[ops[j].path] != ops[j].before
      ensures k <= j
    {
      if j < k {
        DeedsAt(ops, t, k, j);
        var x := |before| + 2 * j;
        assert log[x] == UserDid(edits(t + j)) && log[x + 1] == Wrote(ops[j].path, ops[j].before, ops[j].after);
        LastTurnStands(base, log, ops, x);
      }
    }

    /** The commit point, and the end of the journal. It fails after the commit exactly when the receipt
        is written and the journal cannot be removed. */
    method WriteReceipt(q: Request, tx: Transaction) returns (stop: Option<Stop>)
      modifies this`receipt, this`journal, this`calls
      ensures receipt == if CallFails(old(calls)) then old(receipt) else Some(Receipt(tx.id, q.manifest))
      ensures stop.None? <==> !CallFails(old(calls)) && !CallFails(old(calls) + 1)
      ensures journal == if stop.None? then None else old(journal)
      ensures calls == old(calls) + if CallFails(old(calls)) then 1 else 2
      ensures stop.Some? ==> stop.value in {Crash, Raised(OSError)} && !Calm()
    {
      stop := Fate();
      if stop.Some? { return; }
      receipt := Some(Receipt(tx.id, q.manifest));
      stop := Fate();
      if stop.Some? { return; }
      journal := None;
    }

    /** `except BaseException`, with the journal written: the recovery runs, and its own exception is the
        one that leaves. */
    method Handle(ghost mid: Disk, why: Stop) returns (o: Outcome)
      requires mid == Now() && journal.Some?
      modifies this`files, this`journal, this`calls
      ensures Handled(mid, why, o, Now()) && o.Failed? && (!o.handlerFailed ==> journal.None?)
      ensures calls >= old(calls) && (Calm() && !External(why) ==> !External(o.why))
    {
      var undo := Recover();
      o := if undo.Stopped? then Failed(undo.why, true) else Failed(why, false);
    }

    /** Applies the operations, and looks for a cancel. */
    method ApplyAll(ghost base: Files, plan: Plan, tx: Transaction) returns (stop: Option<Stop>)
      requires Accounts(base, log, tx.ops, files) && Writes(log) == 0
      requires tx.ops == OpsOf(plan) && Fetched(tx, |ChangeOps(plan.files)|, downloads)
      modifies this`files, this`log, this`steps, this`calls
      ensures Accounts(base, log, tx.ops, files) && Rechecked(base, log) == old(Rechecked(base, log))
      ensures calls >= old(calls) && (Peaceful() && NoEdits(old(log)) ==> NoEdits(log))
      ensures stop.None? ==> Writes(log) == |tx.ops| && calls > 0 && !CancelledBy(calls - 1)
      ensures stop.Some? ==> Stops(base, tx.ops, stop.value)
    {
      ChangesComeFirst(plan);
      stop := Apply(base, tx, |ChangeOps(plan.files)|);
      if stop.None? { stop := CancelCheck(); }
    }

    /** And lets the user go on. */
    method ApplyPlan(ghost d: Disk, q: Request, plan: Plan, tx: Transaction) returns (stop: Option<Stop>)
      requires Reached(d, plan, tx, q.manifest, log, Applying, Now()) && Writes(log) == 0
      requires tx.ops == OpsOf(plan) && Fetched(tx, |ChangeOps(plan.files)|, downloads)
      modifies this`files, this`log, this`steps, this`calls
      ensures Reached(d, plan, tx, q.manifest, log, Applying, Now()) && calls >= old(calls)
      ensures Peaceful() && NoEdits(old(log)) ==> NoEdits(log)
      ensures stop.None? ==> Writes(log) == |tx.ops| && calls > 0 && !CancelledBy(calls - 1)
      ensures stop.Some? ==> Stops(d.files, tx.ops, stop.value)
    {
      ghost var before, former := Now(), log;
      stop := ApplyAll(d.files, plan, tx);
      UserEdits(d.files, tx.ops);
      StillApplying(d, plan, tx, q.manifest, former, before, log, Now());
    }

    /** Then it writes the receipt if nothing stopped it. */
    method Carry(ghost d: Disk, q: Request, plan: Plan, tx: Transaction)
      returns (stop: Option<Stop>, ghost stage: Stage)
      requires Reached(d, plan, tx, q.manifest, log, Applying, Now()) && Writes(log) == 0
      requires tx.ops == OpsOf(plan) && Fetched(tx, |ChangeOps(plan.files)|, downloads)
      modifies this`files, this`log, this`steps, this`receipt, this`journal, this`calls
      ensures Reached(d, plan, tx, q.manifest, log, stage, Now()) && stage != Preparing && calls >= old(calls)
      ensures Peaceful() && NoEdits(old(log)) ==> NoEdits(log)
      ensures stop.None? ==> stage == Received && journal.None? && Finished()
      ensures stop.Some? ==> journal == Some(tx) && Stops(d.files, tx.ops, stop.value)
      ensures stop.Some? && stage == Received ==>
                calls > old(calls) + 1 && !CallFails(calls - 2) && CallFails(calls - 1)
      ensures stage == Applying ==> receipt == old(receipt)
    {
      stage := Applying;
      stop := ApplyPlan(d, q, plan, tx);
      if stop.Some? { return; }
      stop, stage := Receive(d, q, plan, tx);
    }

    method Receive(ghost d: Disk, q: Request, plan: Plan, tx: Transaction)
      returns (stop: Option<Stop>, ghost stage: Stage)
      requires Reached(d, plan, tx, q.manifest, log, Applying, Now()) && Writes(log) == |tx.ops|
      modifies this`receipt, this`journal, this`calls
      ensures Reached(d, plan, tx, q.manifest, log, stage, Now()) && stage != Preparing
      ensures stage == if CallFails(old(calls)) then Applying else Received
      ensures stop.None? <==> !CallFails(old(calls)) && !CallFails(old(calls) + 1)
      ensures (stop.None? ==> journal.None?) && (stop.Some? ==> journal == Some(tx))
      ensures calls == old(calls) + (if CallFails(old(calls)) then 1 else 2)
      ensures stop.Some? ==> External(stop.value) && !Calm()
      ensures stage == Applying ==> receipt == old(receipt)
    {
      ghost var before := Now();
      stage := if CallFails(calls) then Applying else Received;
      stop := WriteReceipt(q, tx);
      if stage == Received { NowReceived(d, plan, tx, q.manifest, log, before, Now()); }
    }

    /** The way out after a failure: a crash gets past the handler. */
    method Leave(ghost mid: Disk, why: Stop) returns (o: Outcome)
      requires mid == Now() && journal.Some?
      modifies this`files, this`journal, this`calls
      ensures o.Failed? && calls >= old(calls) && (!Interrupted(o) ==> journal.None?)
      ensures if why == Crash then o == Failed(why, false) && Now() == mid else Handled(mid, why, o, Now())
      ensures Calm() && !External(why) ==> !External(o.why)
    {
      if why == Crash { return Failed(Crash, false); }
      o := Handle(mid, why);
    }

    /** The `try` block from the journal on, and its handler. A crash gets past both. */
    method Conclude(ghost d: Disk, q: Request, plan: Plan, tx: Transaction) returns (o: Outcome)
      requires Reached(d, plan, tx, q.manifest, log, Applying, Now()) && Writes(log) == 0
      requires tx.ops == OpsOf(plan) && Fetched(tx, |ChangeOps(plan.files)|, downloads)
      requires receipt.Some? ==> receipt.value.transactionId != tx.id
      modifies this`files, this`log, this`steps, this`receipt, this`journal, this`calls
      ensures Attempt(d, plan, tx, q.manifest, log, o, Now()) && calls >= old(calls)
      ensures Peaceful() && NoEdits(old(log)) ==> NoEdits(log)
      ensures o.Installed? ==> Finished()
      ensures o.Failed? && receipt != old(receipt) ==>
                exists n | old(calls) < n < calls :: !CallFails(n - 1) && CallFails(n)
      ensures (Calm() && o.Failed? ==> !External(o.why)) && (!Interrupted(o) ==> journal.None?)
    {
      var stop;
      ghost var stage;
      stop, stage := Carry(d, q, plan, tx);
      if stop.None? {
        o := Installed(|tx.ops|);
        AttemptEnds(d, plan, tx, q.manifest, log, stage, Now(), Crash, o, Now());
        return;
      }
      ghost var mid, n := Now(), calls - 1;
      o := Leave(mid, stop.value);
      AttemptEnds(d, plan, tx, q.manifest, log, stage, mid, stop.value, o, Now());
    }

    /** The last three calls were a cancel check, the receipt and the removal of the journal, and nothing
        came in their way. */
    predicate Finished()
      reads this`calls
    {
      calls >= 3 && !CancelledBy(calls - 3) && !CallFails(calls - 2) && !CallFails(calls - 1)
    }

    // -------------------------------------------------------------- the whole call

    /** The `try` block up to the journal. */
    method Prepare(ghost d: Disk, q: Request, plan: Plan, tx: Transaction) returns (stop: Option<Stop>)
      requires d == Now() && journal.None? && tx.ops == OpsOf(plan)
      modifies this
      ensures Reached(d, plan, tx, q.manifest, log, if stop.Some? then Preparing else Applying, Now())
      ensures Writes(log) == 0 && calls >= old(calls) && receipt == old(receipt) && (Peaceful() ==> NoEdits(log))
      ensures stop.None? ==> Fetched(tx, |ChangeOps(plan.files)|, downloads) && !CancelledBy(old(calls))
      ensures stop.Some? ==> Reasoned(d, plan, tx, log, stop.value) && (Calm() ==> !External(stop.value))
    {
      stop := Gather(plan, tx);
      if stop.Some? { return; }
      stop := Recheck(plan);
      if stop.Some? { return; }
      stop := BackUp(d.files, tx);
      if stop.Some? { return; }
      stop := Fate();
      if stop.Some? { return; }
      journal := Some(tx);
    }

    /** The downloads, and what the user does meanwhile. */
    method Gather(plan: Plan, tx: Transaction) returns (stop: Option<Stop>)
      requires tx.ops == OpsOf(plan)
      modifies this`files, this`log, this`steps, this`downloads, this`calls
      ensures Accounts(old(files), log, tx.ops, files) && Writes(log) == 0 && Rechecked(old(files), log) == files
      ensures OthersKept(old(downloads), downloads, tx.id) && calls >= old(calls) && (Peaceful() ==> NoEdits(log))
      ensures stop.None? ==> Fetched(tx, |ChangeOps(plan.files)|, downloads) && !CancelledBy(old(calls))
      ensures stop.Some? ==> External(stop.value) && !Calm()
    {
      StartLog(tx.ops);
      var changes := Changes(plan.files);
      ChangesMatchOps(plan.files);
      stop := Download(tx, changes);
      if stop.Some? { return; }
      stop := CancelCheck();
    }

    /** What the user does while the downloads run. */
    method StartLog(ghost ops: seq<Operation>)
      modifies this`files, this`log, this`steps
      ensures Accounts(old(files), log, ops, files) && Writes(log) == 0 && Rechecked(old(files), log) == files
      ensures Peaceful() ==> NoEdits(log)
    {
      log := [UserDid(edits(steps))];
      assert log[..0] == [] && log[..1] == log;
      files := Edited(files, edits(steps));
      steps := steps + 1;
    }

    /** `install_release`. The caller's transaction id is fresh. Nothing outside the managed folders is
        touched. */
    method InstallRelease(q: Request, id: nat) returns (o: Outcome)
      requires Unused(Now(), id)
      modifies this
      ensures InstallRel(old(Now()), q, id, log, o, Now()) && (Peaceful() ==> NoEdits(log))
      ensures OthersUntouched(old(files), log, files)
      ensures o.Installed? ==> o.changedFiles == Writes(log)
      ensures Calm() && o.Failed? ==> !External(o.why)
      ensures old(journal).None? && !Interrupted(o) ==> journal.None?
      ensures CancelledBy(old(calls)) && ValidManifest(q.manifest) ==>
                o == Failed(Raised(Cancelled), false) && Now() == old(Now())
      ensures o.Installed? ==> Finished()
      ensures o.Failed? && receipt != old(receipt) ==>
                exists n | old(calls) < n < calls :: !CallFails(n - 1) && CallFails(n)
    {
      o := CheckAndInstall(q, id);
      InstallManaged(old(Now()), q, id, log, o, Now());
      if o.Installed? { InstallCounts(old(Now()), q, id, log, o, Now()); }
    }

    method CheckAndInstall(q: Request, id: nat) returns (o: Outcome)
      requires Unused(Now(), id)
      modifies this
      ensures InstallRel(old(Now()), q, id, log, o, Now()) && (Peaceful() ==> NoEdits(log))
      ensures Calm() && o.Failed? ==> !External(o.why)
      ensures old(journal).None? && !Interrupted(o) ==> journal.None?
      ensures CancelledBy(old(calls)) && ValidManifest(q.manifest) ==>
                o == Failed(Raised(Cancelled), false) && Now() == old(Now())
      ensures o.Installed? ==> Finished()
      ensures o.Failed? && receipt != old(receipt) ==>
                exists n | old(calls) < n < calls :: !CallFails(n - 1) && CallFails(n)
    {
      ghost var d := Now();
      log := [];
      if !ValidManifest(q.manifest) { return Failed(Raised(BadInput), false); }
      var stop := CancelCheck();
      if stop.Some? { return Failed(stop.value, false); }
      var recovery := Recover();
      ghost var d1 := Now();
      if recovery.Stopped? {
        assert AfterRecovery(d1, recovery, q, id, log, Failed(recovery.why, false), d1);
        return Failed(recovery.why, false);
      }
      o := Install(q, id);
      assert AfterRecovery(d1, recovery, q, id, log, o, Now());
    }

    /** The rest of `install_release`, once the recovery has left no journal. */
    method Install(q: Request, id: nat) returns (o: Outcome)
      requires Unused(Now(), id) && journal.None? && ValidManifest(q.manifest) && log == []
      modifies this
      ensures || (&& log == [] && o.Failed? && !o.handlerFailed && Now() == old(Now())
                  && (External(o.why) || !Installable(old(Now()), q, id)))
              || (Accepted(old(Now()), q) && AttemptRel(old(Now()), q, id, log, o, Now()))
      ensures (Peaceful() ==> NoEdits(log)) && calls >= old(calls)
      ensures (Calm() && o.Failed? ==> !External(o.why)) && (!Interrupted(o) ==> journal.None?)
      ensures o.Installed? ==> Finished()
      ensures o.Failed? && receipt != old(receipt) ==>
                exists n | old(calls) < n < calls :: !CallFails(n - 1) && CallFails(n)
    {
      var stop, plan := MakePlan(q, id);
      if stop.Some? { return Failed(stop.value, false); }
      o := Commit(q, plan, Transaction(id, OpsOf(plan)));
    }

    /** Everything that can refuse the release before anything is downloaded. */
    method MakePlan(q: Request, id: nat) returns (stop: Option<Stop>, plan: Plan)
      requires journal.None?
      modifies this`calls
      ensures calls >= old(calls)
      ensures stop.None? ==> Installable(Now(), q, id) && plan == PlanOf(q.manifest, receipt, files)
      ensures stop.Some? ==> (External(stop.value) && !Calm()) || (!External(stop.value) && !Installable(Now(), q, id))
    {
      stop, plan := AskPlanner(q);
      if stop.None? { stop := Admit(q, plan, id); }
    }

    method AskPlanner(q: Request) returns (stop: Option<Stop>, plan: Plan)
      requires journal.None?
      modifies this`calls
      ensures calls >= old(calls)
      ensures stop.None? ==> Plannable(q.manifest, receipt, files) && ValidReceipt(receipt)
      ensures stop.None? ==> plan == PlanOf(q.manifest, receipt, files)
      ensures stop.Some? ==> (External(stop.value) && !Calm())
                             || (!External(stop.value)
                                 && !(Plannable(q.manifest, receipt, files) && ValidReceipt(receipt)))
    {
      plan := Plan("", "", q.manifest.runtime, 0, None, [], [], [], 0);
      if !ValidReceipt(receipt) { return Some(Raised(BadMetadata)), plan; }
      var folders := StrayFolders();
      var planned := PlanInstallation(q.manifest, journal.Some?, receipt, files, folders);
      if planned.Planned? { return None, planned.plan; }
      stop := Some(Raised(if planned.error == StrayFolder then OSError else BadInput));
    }

    /** The plan is the one that was previewed, its conflicts are approved, it is a transaction, and there is
        space. */
    method Admit(q: Request, plan: Plan, id: nat) returns (stop: Option<Stop>)
      requires journal.None? && Plannable(q.manifest, receipt, files) && ValidReceipt(receipt)
      requires plan == PlanOf(q.manifest, receipt, files)
      modifies this`calls
      ensures calls >= old(calls) && (stop.None? ==> Installable(Now(), q, id))
      ensures stop.Some? ==> (External(stop.value) && !Calm()) || (!External(stop.value) && !Installable(Now(), q, id))
    {
      InstallableIf(Now(), q, id, plan);
      if q.expected.Some? && plan != q.expected.value { return Some(Raised(Refused)); }
      if plan.conflicts != [] && !q.replaceModified { return Some(Raised(Refused)); }
      if !ValidTransaction(Transaction(id, OpsOf(plan))) { return Some(Raised(BadInput)); }
      stop := Fate();
    }

    /** Downloads to receipt, with the handler. */
    method Commit(q: Request, plan: Plan, tx: Transaction) returns (o: Outcome)
      requires journal.None? && tx.ops == OpsOf(plan)
      requires receipt.Some? ==> receipt.value.transactionId != tx.id
      modifies this
      ensures Attempt(old(Now()), plan, tx, q.manifest, log, o, Now())
      ensures (Peaceful() ==> NoEdits(log)) && calls >= old(calls)
      ensures (Calm() && o.Failed? ==> !External(o.why)) && (!Interrupted(o) ==> journal.None?)
      ensures o.Installed? ==> Finished()
      ensures o.Failed? && receipt != old(receipt) ==>
                exists n | old(calls) < n < calls :: !CallFails(n - 1) && CallFails(n)
    {
      ghost var d := Now();
      var stop := Prepare(d, q, plan, tx);
      if stop.Some? {
        assert Ends(tx, Preparing, Now(), stop.value, Failed(stop.value, false), Now());
        return Failed(stop.value, false);
      }
      o := Conclude(d, q, plan, tx);
    }
  }
}
