/** The durable state of one instance directory, and the arithmetic of applying and
    undoing a transaction on it (mc_manager/launcher/installer.py). */
module Journal {
  import opened Optional
  import opened PackModels
  import opened Planner

  datatype Operation = Operation(path: Path, before: Option<Stamp>, after: Option<Stamp>)

  datatype Transaction = Transaction(id: nat, ops: seq<Operation>)

  /** Everything that survives a crash. Backups and downloads live below
      `.launcher/history/<id>/` and are numbered by operation. */
  datatype Disk = Disk(
    files: Files,
    journal: Option<Transaction>,
    receipt: Option<Receipt>,
    backups: map<(nat, nat), Stamp>,
    downloads: map<(nat, nat), Stamp>)

  const MAX_OPERATIONS := 8192

  function OpPaths(ops: seq<Operation>): (paths: seq<Path>)
    ensures |paths| == |ops|
  {
    seq(|ops|, i requires 0 <= i < |ops| => ops[i].path)
  }

  predicate ValidTransaction(tx: Transaction) {
    |tx.ops| <= MAX_OPERATIONS && Compatible(OpPaths(tx.ops))
  }

  ghost predicate Distinct(ops: seq<Operation>) {
    forall i, j | 0 <= i < j < |ops| :: ops[i].path != ops[j].path
  }

  lemma ValidIsDistinct(tx: Transaction)
    requires ValidTransaction(tx)
    ensures Distinct(tx.ops)
  {
    var paths := OpPaths(tx.ops);
    forall i, j | 0 <= i < j < |tx.ops|
      ensures tx.ops[i].path != tx.ops[j].path
    {
      assert Fold(paths[i]) != Fold(paths[j]);
    }
  }

  // ---------------------------------------------------------------- applying and restoring

  /** The files once the first k operations have been carried out. */
  function Applied(files: Files, ops: seq<Operation>, k: nat): Files
    requires k <= |ops|
  {
    if k == 0 then files else Put(Applied(files, ops, k - 1), ops[k - 1].path, ops[k - 1].after)
  }

  /** The files once operations j.. have been put back to their before stamp. */
  function Restored(files: Files, ops: seq<Operation>, j: nat): Files
    requires j <= |ops|
    decreases |ops| - j
  {
    if j == |ops| then files else Put(Restored(files, ops, j + 1), ops[j].path, ops[j].before)
  }

  ghost predicate Matches(files: Files, ops: seq<Operation>) {
    forall i | 0 <= i < |ops| :: At(files, ops[i].path) == ops[i].before
  }

  predicate TargetsUsable(files: Files, ops: seq<Operation>) {
    forall i | 0 <= i < |ops| :: Usable(files, ops[i].path)
  }

  /** Files that differ only at targets have the same usable targets, since no target lies below another. */
  lemma UsableStays(files: Files, files': Files, ops: seq<Operation>)
    requires Compatible(OpPaths(ops)) && TargetsUsable(files, ops)
    requires forall q | q !in OpPaths(ops) :: At(files', q) == At(files, q)
    ensures TargetsUsable(files', ops)
  {
    var paths := OpPaths(ops);
    forall i, q | 0 <= i < |ops| && q in files' ensures !(q < ops[i].path) && !(ops[i].path < q) {
      assert paths[i] == ops[i].path;
      if q in paths {
        var j :| 0 <= j < |ops| && paths[j] == q;
        if q < paths[i] { FoldPrefix(q, paths[i]); }
        if paths[i] < q { FoldPrefix(paths[i], q); }
      } else {
        assert At(files', q) == At(files, q);
        assert Usable(files, ops[i].path);
      }
    }
  }

  lemma {:induction false} AppliedAt(files: Files, ops: seq<Operation>, k: nat)
    requires Distinct(ops) && k <= |ops|
    ensures forall i | 0 <= i < k :: At(Applied(files, ops, k), ops[i].path) == ops[i].after
    ensures forall i | k <= i < |ops| :: At(Applied(files, ops, k), ops[i].path) == At(files, ops[i].path)
    ensures forall q | q !in OpPaths(ops) :: At(Applied(files, ops, k), q) == At(files, q)
  {
    if k > 0 {
      AppliedAt(files, ops, k - 1);
      assert OpPaths(ops)[k - 1] == ops[k - 1].path;
    }
  }

  lemma {:induction false} RestoredAt(files: Files, ops: seq<Operation>, j: nat)
    requires Distinct(ops) && j <= |ops|
    ensures forall i | j <= i < |ops| :: At(Restored(files, ops, j), ops[i].path) == ops[i].before
    ensures forall i | 0 <= i < j :: At(Restored(files, ops, j), ops[i].path) == At(files, ops[i].path)
    ensures forall q | q !in OpPaths(ops) :: At(Restored(files, ops, j), q) == At(files, q)
    decreases |ops| - j
  {
    if j < |ops| {
      RestoredAt(files, ops, j + 1);
      assert OpPaths(ops)[j] == ops[j].path;
    }
  }

  /** Undoing the operations from j on, in a state where the first k were done, leaves the
      first min(j, k) done. */
  lemma {:induction false} UndoPrefix(base: Files, ops: seq<Operation>, k: nat, j: nat)
    requires Distinct(ops) && Matches(base, ops) && k <= |ops| && j <= |ops|
    ensures Restored(Applied(base, ops, k), ops, j) == Applied(base, ops, if j < k then j else k)
  {
    var m := if j < k then j else k;
    var undone, target := Restored(Applied(base, ops, k), ops, j), Applied(base, ops, m);
    AppliedAt(base, ops, k);
    AppliedAt(base, ops, m);
    RestoredAt(Applied(base, ops, k), ops, j);
    forall q
      ensures At(undone, q) == At(target, q)
    {
      if q in OpPaths(ops) {
        var i :| 0 <= i < |ops| && OpPaths(ops)[i] == q;
      }
    }
    SameEverywhere(undone, target);
  }

  /** Restoring once more, from anywhere, changes nothing that a first full pass did not settle. */
  lemma {:induction false} RestoreSettles(files: Files, ops: seq<Operation>, j: nat)
    requires Distinct(ops) && j <= |ops|
    ensures Restored(Restored(files, ops, j), ops, 0) == Restored(files, ops, 0)
  {
    var twice, once := Restored(Restored(files, ops, j), ops, 0), Restored(files, ops, 0);
    RestoredAt(files, ops, j);
    RestoredAt(files, ops, 0);
    RestoredAt(Restored(files, ops, j), ops, 0);
    forall q
      ensures At(twice, q) == At(once, q)
    {
      if q in OpPaths(ops) {
        var i :| 0 <= i < |ops| && OpPaths(ops)[i] == q;
      }
    }
    SameEverywhere(twice, once);
  }

  // ---------------------------------------------------------------- recovery

  predicate ValidReceipt(receipt: Option<Receipt>) {
    receipt.Some? ==> ValidManifest(receipt.value.manifest)
  }

  predicate Readable(d: Disk) {
    d.journal.Some? && ValidTransaction(d.journal.value) && ValidReceipt(d.receipt)
  }

  /** The receipt is the commit point: a journal whose transaction it names is done with. */
  predicate Committed(d: Disk) {
    d.journal.Some? && d.receipt.Some? && d.receipt.value.transactionId == d.journal.value.id
  }

  predicate NeedsUndo(d: Disk, i: nat)
    requires d.journal.Some? && i < |d.journal.value.ops|
  {
    At(d.files, d.journal.value.ops[i].path) != d.journal.value.ops[i].before
  }

  predicate CanUndo(d: Disk, i: nat)
    requires d.journal.Some? && i < |d.journal.value.ops|
  {
    var op := d.journal.value.ops[i];
    && At(d.files, op.path) == op.after
    && (op.before.Some? ==>
          (d.journal.value.id, i) in d.backups && d.backups[(d.journal.value.id, i)] == op.before.value)
  }

  /** Every target is a place for a file, and before or after, and every backup that is needed is intact. */
  predicate Restorable(d: Disk)
    requires d.journal.Some?
  {
    && TargetsUsable(d.files, d.journal.value.ops)
    && forall i | 0 <= i < |d.journal.value.ops| :: NeedsUndo(d, i) ==> CanUndo(d, i)
  }

  predicate RestorableAt(d: Disk, i: nat)
    requires d.journal.Some? && i < |d.journal.value.ops|
  {
    Usable(d.files, d.journal.value.ops[i].path) && (NeedsUndo(d, i) ==> CanUndo(d, i))
  }

  lemma AllRestorable(d: Disk)
    requires d.journal.Some? && forall i | 0 <= i < |d.journal.value.ops| :: RestorableAt(d, i)
    ensures Restorable(d)
  {
    forall i | 0 <= i < |d.journal.value.ops|
      ensures Usable(d.files, d.journal.value.ops[i].path) && (NeedsUndo(d, i) ==> CanUndo(d, i))
    {
      assert RestorableAt(d, i);
    }
  }

  /** Operations already at their before stamp need no restoring. */
  lemma {:induction false} RestoreSkips(d: Disk, j: nat, l: nat)
    requires d.journal.Some? && Distinct(d.journal.value.ops) && j <= l <= |d.journal.value.ops|
    requires forall i | j <= i < l :: !NeedsUndo(d, i)
    ensures Restored(d.files, d.journal.value.ops, j) == Restored(d.files, d.journal.value.ops, l)
  {
    var ops := d.journal.value.ops;
    var more, fewer := Restored(d.files, ops, j), Restored(d.files, ops, l);
    RestoredAt(d.files, ops, j);
    RestoredAt(d.files, ops, l);
    forall q
      ensures At(more, q) == At(fewer, q)
    {
      if q in OpPaths(ops) {
        var i :| 0 <= i < |ops| && OpPaths(ops)[i] == q;
        assert j <= i < l ==> !NeedsUndo(d, i);
      }
    }
    SameEverywhere(more, fewer);
  }

  datatype Error = BadInput | BadMetadata | Refused | Mismatch | Cancelled | OSError

  /** How an operation stops early: the process dies, or an exception leaves it. */
  datatype Stop = Crash | Raised(error: Error)

  /** A reason that lies outside: the process dies, a call fails, the user cancels, or bytes that
      were fetched or copied are not the ones that were promised. */
  predicate External(why: Stop) {
    why in {Crash, Raised(OSError), Raised(Cancelled), Raised(Mismatch)}
  }

  datatype Recovery = NotNeeded | KeptCommit | RolledBack | Stopped(why: Stop)

  /** What one run of the recovery routine may do to the disk. */
  ghost predicate RecoverRel(d: Disk, r: Recovery, d': Disk) {
    match r
    case NotNeeded => d.journal.None? && d' == d
    case KeptCommit => Readable(d) && Committed(d) && d' == d.(journal := None)
    case RolledBack =>
      && Readable(d) && !Committed(d) && Restorable(d)
      && d' == d.(files := Restored(d.files, d.journal.value.ops, 0), journal := None)
    case Stopped(Raised(BadMetadata)) => d.journal.Some? && !Readable(d) && d' == d
    case Stopped(Raised(Refused)) => Readable(d) && !Committed(d) && !Restorable(d) && d' == d
    case Stopped(Raised(BadInput)) => false
    case Stopped(Raised(Cancelled)) => false
    case Stopped(Raised(Mismatch)) => false
    case Stopped(_) =>
      || d' == d
      || (&& Readable(d) && !Committed(d) && Restorable(d)
          && exists j | 0 <= j <= |d.journal.value.ops| ::
               d' == d.(files := Restored(d.files, d.journal.value.ops, j)))
  }

  /** What recovery does with a journal it can undo. */
  lemma UndoOrStop(d: Disk, r: Recovery, d': Disk) returns (j: nat)
    requires Readable(d) && !Committed(d) && Restorable(d) && RecoverRel(d, r, d')
    ensures j <= |d.journal.value.ops|
    ensures || (r == RolledBack && j == 0
               && d' == d.(files := Restored(d.files, d.journal.value.ops, 0), journal := None))
            || (&& r.Stopped? && r.why in {Crash, Raised(OSError)}
                && d' == d.(files := Restored(d.files, d.journal.value.ops, j)))
  {
    if r == RolledBack {
      j := 0;
    } else if d' == d {
      j := |d.journal.value.ops|;
    } else {
      j :| 0 <= j <= |d.journal.value.ops| && d' == d.(files := Restored(d.files, d.journal.value.ops, j));
    }
  }

  /** Recovery touches a file only if it is exactly what this transaction had put there, and puts back what
      the transaction had replaced. */
  lemma RecoveryLosesNothing(d: Disk, r: Recovery, d': Disk, p: Path)
    requires RecoverRel(d, r, d') && At(d'.files, p) != At(d.files, p)
    ensures d.journal.Some? && !Committed(d)
    ensures exists op | op in d.journal.value.ops ::
              op.path == p && At(d.files, p) == op.after && At(d'.files, p) == op.before
  {
    var ops := d.journal.value.ops;
    ValidIsDistinct(d.journal.value);
    var j := UndoOrStop(d, r, d');
    RestoredAt(d.files, ops, j);
    var i :| 0 <= i < |ops| && OpPaths(ops)[i] == p;
    assert NeedsUndo(d, i) ==> CanUndo(d, i);
    assert ops[i] in ops;
  }

  /** With the backups in place, recovery is refused exactly when some target is no place for a file, or
      neither before nor after; it then changes nothing, this time and every time after. */
  lemma RefusedExactly(d: Disk, r: Recovery, d': Disk)
    requires Readable(d) && !Committed(d) && RecoverRel(d, r, d')
    requires forall i | 0 <= i < |d.journal.value.ops| && d.journal.value.ops[i].before.Some? ::
               (d.journal.value.id, i) in d.backups
               && d.backups[(d.journal.value.id, i)] == d.journal.value.ops[i].before.value
    ensures Restorable(d) <==>
              forall op | op in d.journal.value.ops ::
                Usable(d.files, op.path) && At(d.files, op.path) in {op.before, op.after}
    ensures !Restorable(d) ==> d' == d && r.Stopped? && r.why in {Crash, Raised(OSError), Raised(Refused)}
    ensures r == Stopped(Raised(Refused)) ==> !Restorable(d)
  {
    var ops := d.journal.value.ops;
    if forall op | op in ops :: Usable(d.files, op.path) && At(d.files, op.path) in {op.before, op.after} {
      forall i | 0 <= i < |ops| ensures Usable(d.files, ops[i].path) && (NeedsUndo(d, i) ==> CanUndo(d, i)) {
        assert ops[i] in ops;
      }
    }
    if r.Stopped? { assert r.why.Raised? ==> r.why.error in {BadMetadata, Refused, OSError}; }
    if Restorable(d) {
      forall op | op in ops ensures Usable(d.files, op.path) && At(d.files, op.path) in {op.before, op.after} {
        var i :| 0 <= i < |ops| && ops[i] == op;
        assert NeedsUndo(d, i) ==> CanUndo(d, i);
      }
    }
  }

  /** A recovery that was interrupted anywhere can be run again: it may still succeed, and
      when it does, the result is the one the first run would have reached. */
  lemma RecoveryResumes(d: Disk, stop: Stop, mid: Disk, d': Disk)
    requires Readable(d) && !Committed(d) && Restorable(d)
    requires RecoverRel(d, Stopped(stop), mid)
    ensures Readable(mid) && !Committed(mid) && Restorable(mid)
    ensures RecoverRel(mid, RolledBack, d') <==> RecoverRel(d, RolledBack, d')
  {
    var tx := d.journal.value;
    ValidIsDistinct(tx);
    if mid != d {
      var j :| 0 <= j <= |tx.ops| && mid == d.(files := Restored(d.files, tx.ops, j));
      RestoredAt(d.files, tx.ops, j);
      RestoreSettles(d.files, tx.ops, j);
      UsableStays(d.files, mid.files, tx.ops);
      forall i | 0 <= i < |tx.ops| && NeedsUndo(mid, i)
        ensures CanUndo(mid, i)
      {
        assert NeedsUndo(d, i);
      }
    }
  }
}
