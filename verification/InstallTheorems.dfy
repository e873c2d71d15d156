/** What installation and recovery guarantee, over single calls and over whole runs. */
module InstallTheorems {
  import opened Optional
  import opened PackModels
  import opened Planner
  import opened Journal
  import opened Attempts
  import opened Undisturbed

  // ---------------------------------------------------------------- where operations come from

  lemma OpOrigin(m: Manifest, receipt: Option<Receipt>, files: Files, op: Operation)
    requires op in OpsOf(PlanOf(m, receipt, files))
    ensures op.before == At(files, op.path)
    ensures || (exists f | f in m.files :: op.path == f.path && op.after == Some(f.stamp) && op.before != op.after)
            || (&& op.after.None? && op.before.Some?
                && exists f | f in Previous(receipt) :: op.path == f.path && Dropped(f, m.files, files))
  {
    var plan := PlanOf(m, receipt, files);
    if op in ChangeOps(plan.files) {
      ChangeOpsOrigin(plan.files, op);
      var i :| 0 <= i < |plan.files| && plan.files[i].action != Keep
        && op == Operation(plan.files[i].entry.path, plan.files[i].before, Some(plan.files[i].entry.stamp));
      assert m.files[i] in m.files;
    } else {
      var i :| 0 <= i < |plan.removals| && RemovalOps(plan.removals)[i] == op;
      RemovalIsDropped(Previous(receipt), m.files, files, plan.removals[i]);
    }
  }

  lemma EveryChangeHasAnOp(m: Manifest, receipt: Option<Receipt>, files: Files, f: PackFile)
    requires f in m.files && At(files, f.path) != Some(f.stamp)
    ensures f.path in OpPaths(OpsOf(PlanOf(m, receipt, files)))
  {
    var plan := PlanOf(m, receipt, files);
    var i :| 0 <= i < |m.files| && m.files[i] == f;
    var op := Operation(f.path, plan.files[i].before, Some(f.stamp));
    ChangeOpsOrigin(plan.files, op);
    assert plan.files[i] in plan.files && op in OpsOf(plan);
    var k :| 0 <= k < |OpsOf(plan)| && OpsOf(plan)[k] == op;
    assert OpPaths(OpsOf(plan))[k] == f.path;
  }

  lemma EveryDropHasAnOp(m: Manifest, receipt: Option<Receipt>, files: Files, f: PackFile)
    requires f in Previous(receipt) && Dropped(f, m.files, files)
    ensures f.path in OpPaths(OpsOf(PlanOf(m, receipt, files)))
  {
    var plan := PlanOf(m, receipt, files);
    var r := Removal(f.path, files[f.path], files[f.path] != f.stamp);
    RemovalIsDropped(Previous(receipt), m.files, files, r);
    var i :| 0 <= i < |plan.removals| && plan.removals[i] == r;
    assert RemovalOps(plan.removals)[i].path == f.path;
    PathInTail(ChangeOps(plan.files), RemovalOps(plan.removals), i);
  }

  lemma PathInTail(a: seq<Operation>, b: seq<Operation>, i: nat)
    requires i < |b|
    ensures b[i].path in OpPaths(a + b)
  {
    assert OpPaths(a + b)[|a| + i] == b[i].path;
  }

  /** The files an installation leaves at a path, by what its operations say of that path. */
  lemma FinalAt(tx: Transaction, e: Files, q: Path) returns (op: Option<Operation>)
    requires ValidTransaction(tx)
    ensures op.Some? ==> op.value in tx.ops && op.value.path == q
                         && At(Applied(e, tx.ops, |tx.ops|), q) == op.value.after
    ensures op.None? ==> q !in OpPaths(tx.ops) && At(Applied(e, tx.ops, |tx.ops|), q) == At(e, q)
  {
    ValidIsDistinct(tx);
    AppliedAt(e, tx.ops, |tx.ops|);
    if q in OpPaths(tx.ops) {
      var i :| 0 <= i < |tx.ops| && OpPaths(tx.ops)[i] == q;
      op := Some(tx.ops[i]);
    } else {
      op := None;
    }
  }

  // ---------------------------------------------------------------- no silent loss

  /** What an attempt leaves: exactly what the log accounts for, or what the failure handler's recovery
      makes of that, which touches only what the attempt itself had put there (`RecoveryLosesNothing`). */
  lemma LogAccounts(d: Disk, q: Request, id: nat, log: seq<Deed>, o: Outcome, d': Disk) returns (mid: Disk)
    requires AttemptRel(d, q, id, log, o, d')
    ensures Accounts(d.files, log, TransactionOf(d, q, id).ops, mid.files)
    ensures d' == mid || (mid.journal == Some(TransactionOf(d, q, id)) && exists r :: RecoverRel(mid, r, d'))
    ensures Writes(log) > 0 ==> BackedUp(TransactionOf(d, q, id), d'.backups)
  {
    var plan, tx := PlanOf(q.manifest, d.receipt, d.files), TransactionOf(d, q, id);
    var stage, mid', why :|
      Reached(d, plan, tx, q.manifest, log, stage, mid') && Reasoned(d, plan, tx, log, why)
      && Ends(tx, stage, mid', why, o, d');
    mid := mid';
    EndKeeps(tx, stage, mid, why, o, d');
    ReachedMeans(d, plan, tx, q.manifest, log, stage, mid);
  }

  lemma EndKeeps(tx: Transaction, stage: Stage, mid: Disk, why: Stop, o: Outcome, d': Disk)
    requires Ends(tx, stage, mid, why, o, d')
    ensures d'.backups == mid.backups
    ensures || d' == mid
            || (exists r :: RecoverRel(mid, r, d') && stage != Preparing && (stage == Received ==> mid.journal.Some?))
  {
    if Handled(mid, why, o, d') {
      var r :| RecoverRel(mid, r, d') && o == if r.Stopped? then Failed(r.why, true) else Failed(why, false);
    }
  }

  lemma ReachedMeans(d: Disk, plan: Plan, tx: Transaction, m: Manifest, log: seq<Deed>, stage: Stage, mid: Disk)
    requires Reached(d, plan, tx, m, log, stage, mid)
    ensures Accounts(d.files, log, tx.ops, mid.files)
    ensures Writes(log) > 0 ==> BackedUp(tx, mid.backups)
    ensures stage == Applying || (stage == Received && mid.journal.Some?) ==> mid.journal == Some(tx)
  {
  }

  lemma {:induction false} WritesCounted(log: seq<Deed>, i: nat)
    requires i < |log| && log[i].Wrote?
    ensures Writes(log) > 0
  {
    if i < |log| - 1 { WritesCounted(log[..|log| - 1], i); }
  }

  /** No silent loss, whatever the user does meanwhile. Each time the installer replaces or removes a
      file, the path belongs to the old or the new release; what it overwrites is, at that very moment,
      exactly what the plan showed there, and a backup holds it; and unless the user agreed to replace
      modified files, that was nothing or exactly what the old release had put at that path. */
  lemma NoSilentLoss(d: Disk, q: Request, id: nat, log: seq<Deed>, o: Outcome, d': Disk, i: nat)
    requires Accepted(d, q) && AttemptRel(d, q, id, log, o, d') && ValidReceipt(d.receipt)
    requires i < |log| && log[i].Wrote?
    ensures log[i].path in PathsOf(q.manifest.files) || log[i].path in PathsOf(Previous(d.receipt))
    ensures log[i].was == At(Replay(d.files, log[..i]), log[i].path) == At(d.files, log[i].path)
    ensures log[i].was.Some? ==> exists k :: (id, k) in d'.backups && Some(d'.backups[(id, k)]) == log[i].was
    ensures !q.replaceModified && log[i].was.Some? ==>
              exists f | f in Previous(d.receipt) :: f.path == log[i].path && log[i].was == Some(f.stamp)
  {
    var mid := LogAccounts(d, q, id, log, o, d');
    var ops := TransactionOf(d, q, id).ops;
    assert Careful(d.files, log, ops, i);
    var k := Writes(log[..i]);
    assert ops[k] in ops;
    OpOrigin(q.manifest, d.receipt, d.files, ops[k]);
    OpIsOwned(d, q, ops[k]);
    WritesCounted(log, i);
  }

  lemma OpIsOwned(d: Disk, q: Request, op: Operation)
    requires ValidReceipt(d.receipt) && Plannable(q.manifest, d.receipt, d.files)
    requires op in OpsOf(PlanOf(q.manifest, d.receipt, d.files))
    ensures op.path in PathsOf(q.manifest.files) || op.path in PathsOf(Previous(d.receipt))
    ensures PlanOf(q.manifest, d.receipt, d.files).conflicts == [] ==>
              || op.before.None?
              || exists f | f in Previous(d.receipt) :: f.path == op.path && op.before == Some(f.stamp)
  {
    OpOrigin(q.manifest, d.receipt, d.files, op);
    if f :| f in q.manifest.files && op.path == f.path && op.after == Some(f.stamp) && op.before != op.after {
      ChangeIsOwned(d, q, f, op);
    } else {
      var f :| f in Previous(d.receipt) && op.path == f.path && Dropped(f, q.manifest.files, d.files);
      RemovalIsOwned(d, q, f);
    }
  }

  lemma ChangeIsOwned(d: Disk, q: Request, f: PackFile, op: Operation)
    requires f in q.manifest.files && op.path == f.path && op.after == Some(f.stamp)
    requires op.before != op.after && op.before == At(d.files, f.path)
    requires !RenamesCase(q.manifest.files, Previous(d.receipt))
    ensures f.path in PathsOf(q.manifest.files)
    ensures PlanOf(q.manifest, d.receipt, d.files).conflicts == [] && op.before.Some? ==>
              exists g | g in Previous(d.receipt) :: g.path == f.path && op.before == Some(g.stamp)
  {
    PathListed(q.manifest.files, f);
    var plan := PlanOf(q.manifest, d.receipt, d.files);
    var k :| 0 <= k < |q.manifest.files| && q.manifest.files[k] == f;
    if plan.conflicts == [] && op.before.Some? {
      NoItemConflict(plan.files, plan.files[k]);
      assert Entry(Previous(d.receipt), Fold(f.path)).Some? && !OtherCase(f, Previous(d.receipt));
    }
  }

  lemma RemovalIsOwned(d: Disk, q: Request, f: PackFile)
    requires f in Previous(d.receipt) && Dropped(f, q.manifest.files, d.files)
    ensures f.path in PathsOf(Previous(d.receipt))
    ensures PlanOf(q.manifest, d.receipt, d.files).conflicts == [] ==> d.files[f.path] == f.stamp
  {
    PathListed(Previous(d.receipt), f);
    var plan := PlanOf(q.manifest, d.receipt, d.files);
    var r := Removal(f.path, d.files[f.path], d.files[f.path] != f.stamp);
    RemovalIsDropped(Previous(d.receipt), q.manifest.files, d.files, r);
    if plan.conflicts == [] { NoRemovalConflict(plan.removals, r); }
  }

  // ---------------------------------------------------------------- crash atomicity

  /** The disk is part-way through an uncommitted transaction that started from `base`. */
  ghost predicate InProgress(d: Disk, base: Files) {
    && Readable(d) && !Committed(d)
    && Matches(base, d.journal.value.ops) && TargetsUsable(base, d.journal.value.ops)
    && BackedUp(d.journal.value, d.backups)
    && exists k | 0 <= k <= |d.journal.value.ops| :: d.files == Applied(base, d.journal.value.ops, k)
  }

  /** Part-way through a transaction, every target is at its before or its after stamp and every
      backup is there, so recovery is never refused; and every recovery either reaches the files
      the transaction started from or leaves the disk part-way through the same transaction. */
  lemma RecoveryKeepsProgress(d: Disk, base: Files, r: Recovery, d': Disk)
    requires InProgress(d, base) && RecoverRel(d, r, d')
    ensures Restorable(d)
    ensures r == RolledBack || r.Stopped?
    ensures r == RolledBack ==> d'.journal.None? && d'.files == base && d'.receipt == d.receipt
    ensures r.Stopped? ==> InProgress(d', base) && d'.journal == d.journal && d'.receipt == d.receipt
  {
    var tx := d.journal.value;
    ValidIsDistinct(tx);
    var k :| 0 <= k <= |tx.ops| && d.files == Applied(base, tx.ops, k);
    PartialIsRestorable(tx, base, k, d);
    var j := UndoOrStop(d, r, d');
    UndoPrefix(base, tx.ops, k, j);
  }

  /** Consecutive recoveries, each of which may itself die or raise. */
  ghost predicate RecoveryRun(disks: seq<Disk>, results: seq<Recovery>) {
    |disks| == |results| + 1 && forall i | 0 <= i < |results| :: RecoverRel(disks[i], results[i], disks[i + 1])
  }

  lemma {:induction false} ProgressOrBase(disks: seq<Disk>, results: seq<Recovery>, base: Files)
    requires RecoveryRun(disks, results) && InProgress(disks[0], base)
    ensures var last := disks[|disks| - 1];
            && last.receipt == disks[0].receipt
            && (if last.journal.None? then last.files == base
                else InProgress(last, base) && last.journal == disks[0].journal)
  {
    if |results| > 0 {
      ProgressOrBase(disks[..|results|], results[..|results| - 1], base);
      var d, r, d' := disks[|results| - 1], results[|results| - 1], disks[|results|];
      assert RecoverRel(d, r, d');
      if d.journal.Some? { RecoveryKeepsProgress(d, base, r, d'); }
    }
  }

  lemma {:induction false} CommittedStays(disks: seq<Disk>, results: seq<Recovery>)
    requires RecoveryRun(disks, results) && (disks[0].journal.None? || Committed(disks[0]))
    ensures var last := disks[|disks| - 1];
            && last.receipt == disks[0].receipt && last.files == disks[0].files
            && last.journal in {None, disks[0].journal}
  {
    if |results| > 0 {
      CommittedStays(disks[..|results|], results[..|results| - 1]);
      assert RecoverRel(disks[|results| - 1], results[|results| - 1], disks[|results|]);
    }
  }

  lemma MidwayIsInProgress(d: Disk, tx: Transaction, e: Files, d': Disk)
    requires ValidReceipt(d.receipt) && (d.receipt.Some? ==> d.receipt.value.transactionId != tx.id)
    requires ValidTransaction(tx) && Ready(tx.ops, e) && BackedUp(tx, d'.backups)
    requires Midway(d, tx, e, d')
    ensures InProgress(d', e)
  {
  }

  lemma SettledThenRecover(d: Disk, tx: Transaction, m: Manifest, e: Files, o: Outcome,
                           disks: seq<Disk>, results: seq<Recovery>)
    requires ValidReceipt(d.receipt) && (d.receipt.Some? ==> d.receipt.value.transactionId != tx.id)
    requires RecoveryRun(disks, results)
    requires Settled(d, tx, m, e, o, disks[0]) && disks[|disks| - 1].journal.None?
    ensures var last := disks[|disks| - 1];
            if last.receipt == d.receipt then last.files == e
            else
              && last.receipt == Some(Receipt(tx.id, m)) && ValidTransaction(tx)
              && Matches(e, tx.ops) && last.files == Applied(e, tx.ops, |tx.ops|)
  {
    if disks[0].journal == Some(tx) && disks[0].receipt == d.receipt {
      MidwayIsInProgress(d, tx, e, disks[0]);
      ProgressOrBase(disks, results, e);
    } else {
      CommittedStays(disks, results);
    }
  }

  lemma NoJournalAttempt(d: Disk, q: Request, id: nat, log: seq<Deed>, o: Outcome, d': Disk)
    requires d.journal.None? && InstallRel(d, q, id, log, o, d') && (log != [] || o.Installed?)
    ensures Accepted(d, q) && AttemptRel(d, q, id, log, o, d')
  {
    var r, d1 :| RecoverRel(d, r, d1) && AfterRecovery(d1, r, q, id, log, o, d');
    assert d1 == d;
  }

  lemma NothingAttempted(d: Disk, q: Request, id: nat, o: Outcome, d': Disk)
    requires d.journal.None? && InstallRel(d, q, id, [], o, d')
    ensures d' == d && o.Failed? && !o.handlerFailed
  {
    if !(o.Failed? && !o.handlerFailed && d' == d) {
      var r, d1 :| RecoverRel(d, r, d1) && AfterRecovery(d1, r, q, id, [], o, d');
      assert d1 == d && AttemptRel(d, q, id, [], o, d');
      var mid := LogAccounts(d, q, id, [], o, d');
      assert false;
    }
  }

  /** Crash atomicity. An installation may stop at any step, for any reason, and any number of
      recoveries may die after it, while the user leaves the targets alone once they have been checked.
      Once no journal is left, either the receipt is the old one and the files are the user's own, as if
      nothing had been installed, or the receipt names this transaction and all of its operations are
      carried out on them. */
  lemma CrashAtomicity(d: Disk, q: Request, id: nat, log: seq<Deed>, o: Outcome, disks: seq<Disk>,
                       results: seq<Recovery>)
    requires d.journal.None? && ValidReceipt(d.receipt) && Unused(d, id)
    requires RecoveryRun(disks, results) && disks[|disks| - 1].journal.None?
    requires InstallRel(d, q, id, log, o, disks[0]) && Considerate(TransactionOf(d, q, id).ops, log)
    ensures var last, tx, e := disks[|disks| - 1], TransactionOf(d, q, id), UserTree(d.files, log);
            if last.receipt == d.receipt then last.files == e
            else
              && last.receipt == Some(Receipt(id, q.manifest)) && ValidTransaction(tx)
              && Matches(e, tx.ops) && last.files == Applied(e, tx.ops, |tx.ops|)
  {
    if log == [] {
      NothingAttempted(d, q, id, o, disks[0]);
      CommittedStays(disks, results);
    } else {
      NoJournalAttempt(d, q, id, log, o, disks[0]);
      var tx := TransactionOf(d, q, id);
      ConsiderateSettles(d, PlanOf(q.manifest, d.receipt, d.files), tx, q.manifest, log, o, disks[0]);
      SettledThenRecover(d, tx, q.manifest, UserTree(d.files, log), o, disks, results);
    }
  }

  /** No partial update is kept, whatever the user does meanwhile. An attempt that ends in anything but
      the death of the process or a failure of the handler's own recovery leaves no journal; with the old
      receipt, every target it had reached is back at what it was before, and nothing else differs from
      what the log accounts for; with the new one, every operation has been carried out. */
  lemma NoPartialUpdate(d: Disk, q: Request, id: nat, log: seq<Deed>, o: Outcome, d': Disk)
    requires AttemptRel(d, q, id, log, o, d') && !Interrupted(o)
    requires ValidReceipt(d.receipt) && Unused(d, id)
    ensures var tx := TransactionOf(d, q, id);
            && d'.journal.None?
            && (|| (d'.receipt == d.receipt && Writes(log) == 0 && d'.files == Replay(d.files, log))
                || (&& d'.receipt == d.receipt && Matches(d'.files, tx.ops)
                    && d'.files == Restored(Replay(d.files, log), tx.ops, 0))
                || (&& d'.receipt == Some(Receipt(id, q.manifest)) && Writes(log) == |tx.ops|
                    && d'.files == Replay(d.files, log)))
  {
    var plan, tx := PlanOf(q.manifest, d.receipt, d.files), TransactionOf(d, q, id);
    var stage, mid, why :|
      Reached(d, plan, tx, q.manifest, log, stage, mid) && Reasoned(d, plan, tx, log, why)
      && Ends(tx, stage, mid, why, o, d');
    match stage
    case Preparing =>
    case Applying => HandledApplying(d, tx, mid, why, o, d');
    case Received =>
      if mid.journal.Some? { HandledReceived(tx, q.manifest, mid, why, o, d'); }
  }

  lemma HandledApplying(d: Disk, tx: Transaction, mid: Disk, why: Stop, o: Outcome, d': Disk)
    requires mid.journal == Some(tx) && mid.receipt == d.receipt && ValidTransaction(tx)
    requires d.receipt.Some? ==> d.receipt.value.transactionId != tx.id
    requires Ends(tx, Applying, mid, why, o, d') && !Interrupted(o)
    ensures d'.journal.None? && d'.receipt == d.receipt && Matches(d'.files, tx.ops)
    ensures d'.files == Restored(mid.files, tx.ops, 0)
  {
    var r :| RecoverRel(mid, r, d') && o == if r.Stopped? then Failed(r.why, true) else Failed(why, false);
    ValidIsDistinct(tx);
    RestoredAt(mid.files, tx.ops, 0);
  }

  lemma HandledReceived(tx: Transaction, m: Manifest, mid: Disk, why: Stop, o: Outcome, d': Disk)
    requires mid.journal == Some(tx) && mid.receipt == Some(Receipt(tx.id, m))
    requires Ends(tx, Received, mid, why, o, d') && !Interrupted(o)
    ensures d' == mid.(journal := None)
  {
    var r :| RecoverRel(mid, r, d') && o == if r.Stopped? then Failed(r.why, true) else Failed(why, false);
  }

  // ---------------------------------------------------------------- a conflict in the middle

  /** When the user changes a target during the apply loop, the failure handler's recovery can be
      refused. It is, exactly when some target is no place for a file, or neither before nor after; then
      it changes nothing, the journal stays, and every later recovery is refused as long as that is so. */
  lemma HandlerRefused(d: Disk, plan: Plan, tx: Transaction, m: Manifest, log: seq<Deed>, mid: Disk, r: Recovery,
                       d': Disk)
    requires Reached(d, plan, tx, m, log, Applying, mid) && ValidTransaction(tx) && ValidReceipt(d.receipt)
    requires d.receipt.Some? ==> d.receipt.value.transactionId != tx.id
    requires RecoverRel(mid, r, d')
    ensures var intact := forall op | op in tx.ops ::
                            Usable(mid.files, op.path) && At(mid.files, op.path) in {op.before, op.after};
            && (r == Stopped(Raised(Refused)) ==> !intact)
            && (!intact ==> d' == mid && r.Stopped? && r.why in {Crash, Raised(OSError), Raised(Refused)})
  {
    RefusedExactly(mid, r, d');
  }

  /** Such a run: of two files the first is replaced, then the user edits the second; the loop stops
      there, and no recovery undoes the first. */
  lemma AConflict() returns (files: Files, log: seq<Deed>, mid: Disk)
    ensures mid.journal.Some? && ValidTransaction(mid.journal.value) && |mid.journal.value.ops| == 2
    ensures var tx := mid.journal.value;
            && Accounts(files, log, tx.ops, mid.files) && BackedUp(tx, mid.backups) && Disturbed(files, log, tx.ops)
            && At(mid.files, tx.ops[0].path) == tx.ops[0].after != tx.ops[0].before
    ensures forall r, d' | RecoverRel(mid, r, d') :: d' == mid && r.Stopped?
  {
    var one, two, user := Stamp(1, "a"), Stamp(2, "b"), Stamp(3, "c");
    var p, q := ["config", "x"], ["config", "y"];
    var ops := [Operation(p, Some(one), Some(two)), Operation(q, Some(one), Some(two))];
    var tx := Transaction(7, ops);
    files := map[p := one, q := one];
    log := [UserDid(map[]), Wrote(p, Some(one), Some(two)), UserDid(map[q := Some(user)])];
    mid := Disk(map[p := two, q := user], Some(tx), None, map[(7, 0) := one, (7, 1) := one], map[]);
    TwoTargets(ops, p, q);
    ConflictLog(files, log, ops, p, q, one, two, user);
    Irrecoverable(mid, ops[1]);
  }

  lemma Irrecoverable(mid: Disk, op: Operation)
    requires Readable(mid) && !Committed(mid) && BackedUp(mid.journal.value, mid.backups)
    requires op in mid.journal.value.ops && At(mid.files, op.path) !in {op.before, op.after}
    ensures forall r, d' | RecoverRel(mid, r, d') :: d' == mid && r.Stopped?
  {
    forall r, d' | RecoverRel(mid, r, d') ensures d' == mid && r.Stopped? {
      RefusedExactly(mid, r, d');
    }
  }

  lemma TwoTargets(ops: seq<Operation>, p: Path, q: Path)
    requires |ops| == 2 && ops[0].path == p == ["config", "x"] && ops[1].path == q == ["config", "y"]
    ensures p != q && ValidTransaction(Transaction(7, ops))
    ensures !(p < q) && !(q < p)
  {
    assert FoldPart("x")[0] != FoldPart("y")[0];
    assert Fold(p)[1] == FoldPart("x") && Fold(q)[1] == FoldPart("y");
    assert OpPaths(ops)[0] == p && OpPaths(ops)[1] == q;
    assert "x"[0] != "y"[0] && p[1] != q[1];
  }

  lemma ConflictLog(files: Files, log: seq<Deed>, ops: seq<Operation>, p: Path, q: Path, one: Stamp, two: Stamp,
                    user: Stamp)
    requires one != two && user != one && p != q && !(p < q) && !(q < p)
    requires ops == [Operation(p, Some(one), Some(two)), Operation(q, Some(one), Some(two))]
    requires files == map[p := one, q := one]
    requires log == [UserDid(map[]), Wrote(p, Some(one), Some(two)), UserDid(map[q := Some(user)])]
    ensures Replay(files, log) == map[p := two, q := user]
    ensures Accounts(files, log, ops, Replay(files, log)) && Disturbed(files, log, ops)
  {
    var first := [UserDid(map[])];
    assert log[..2] == first + [Wrote(p, Some(one), Some(two))] && log == log[..2] + [UserDid(map[q := Some(user)])];
    FirstTurn(files, first);
    assert Edited(files, map[]) == files;
    assert Careful(files, first, ops, 0);
    WriteDeed(files, first, ops, files, 0);
    UserDeed(files, log[..2], ops, map[p := two, q := one], map[q := Some(user)]);
    DisturbedNow(files, log, ops, 1);
  }

  // ---------------------------------------------------------------- the receipt describes the disk

  /** An instance together with the releases committed to it so far, oldest first. */
  datatype World = World(disk: Disk, past: seq<Manifest>)

  datatype Event = Install(q: Request, id: nat, log: seq<Deed>, o: Outcome) | Recovering(r: Recovery)

  /** One operation on an instance nobody else edits. A crash is an outcome like any other. */
  ghost predicate Step(w: World, ev: Event, w': World) {
    match ev
    case Recovering(r) => RecoverRel(w.disk, r, w'.disk) && w'.past == w.past
    case Install(q, id, log, o) =>
      && NoEdits(log) && Unused(w.disk, id) && InstallRel(w.disk, q, id, log, o, w'.disk)
      && w'.past == if w'.disk.receipt == w.disk.receipt then w.past else w.past + [q.manifest]
  }

  /** The files of the last release are on disk with its stamps, and paths that only earlier
      releases owned are gone. */
  ghost predicate Describes(past: seq<Manifest>, files: Files) {
    past != [] ==>
      var m := past[|past| - 1];
      && (forall f | f in m.files :: At(files, f.path) == Some(f.stamp))
      && (forall older, f | older in past && f in older.files && f.path !in PathsOf(m.files) :: f.path !in files)
  }

  ghost predicate Sound(w: World) {
    && ValidReceipt(w.disk.receipt)
    && (w.past == [] <==> w.disk.receipt.None?)
    && (w.past != [] ==> w.past[|w.past| - 1] == w.disk.receipt.value.manifest)
    && (w.disk.journal.None? || Committed(w.disk) ==> Describes(w.past, w.disk.files))
    && (w.disk.journal.Some? ==> Readable(w.disk))
    && (w.disk.journal.Some? && !Committed(w.disk) ==>
          exists base :: InProgress(w.disk, base) && Describes(w.past, base))
  }

  lemma NewFilesArrive(d: Disk, q: Request, tx: Transaction, f: PackFile)
    requires Plannable(q.manifest, d.receipt, d.files) && ValidTransaction(tx)
    requires tx.ops == OpsOf(PlanOf(q.manifest, d.receipt, d.files)) && f in q.manifest.files
    ensures At(Applied(d.files, tx.ops, |tx.ops|), f.path) == Some(f.stamp)
  {
    var found := FinalAt(tx, d.files, f.path);
    if found.None? {
      if At(d.files, f.path) != Some(f.stamp) { EveryChangeHasAnOp(q.manifest, d.receipt, d.files, f); }
    } else {
      OpOrigin(q.manifest, d.receipt, d.files, found.value);
      EntryIsUnique(q.manifest.files, f);
      forall g | g in q.manifest.files && g.path == f.path ensures g == f {
        EntryIsUnique(q.manifest.files, g);
      }
    }
  }

  lemma OldFilesGo(d: Disk, past: seq<Manifest>, q: Request, tx: Transaction, f: PackFile)
    requires Plannable(q.manifest, d.receipt, d.files) && ValidReceipt(d.receipt) && ValidTransaction(tx)
    requires tx.ops == OpsOf(PlanOf(q.manifest, d.receipt, d.files))
    requires f.path !in PathsOf(q.manifest.files)
    requires f.path in d.files ==> exists g | g in Previous(d.receipt) :: g.path == f.path
    ensures f.path !in Applied(d.files, tx.ops, |tx.ops|)
  {
    var entries := q.manifest.files;
    var found := FinalAt(tx, d.files, f.path);
    if found.Some? {
      OpOrigin(q.manifest, d.receipt, d.files, found.value);
      forall g | g in entries ensures g.path in PathsOf(entries) {
        PathListed(entries, g);
      }
    } else if f.path in d.files {
      var g :| g in Previous(d.receipt) && g.path == f.path;
      EntryIsUnique(Previous(d.receipt), g);
      var clash := Entry(entries, Fold(g.path));
      if clash.Some? { PathListed(entries, clash.value); }
      EveryDropHasAnOp(q.manifest, d.receipt, d.files, g);
    }
  }

  lemma CommitDescribes(d: Disk, past: seq<Manifest>, q: Request, tx: Transaction)
    requires Plannable(q.manifest, d.receipt, d.files) && ValidReceipt(d.receipt) && ValidTransaction(tx)
    requires tx.ops == OpsOf(PlanOf(q.manifest, d.receipt, d.files))
    requires past == [] <==> d.receipt.None?
    requires past != [] ==> past[|past| - 1] == d.receipt.value.manifest
    requires Describes(past, d.files)
    ensures Describes(past + [q.manifest], Applied(d.files, tx.ops, |tx.ops|))
  {
    var after := Applied(d.files, tx.ops, |tx.ops|);
    forall f | f in q.manifest.files ensures At(after, f.path) == Some(f.stamp) {
      NewFilesArrive(d, q, tx, f);
    }
    forall older, f | older in past + [q.manifest] && f in older.files && f.path !in PathsOf(q.manifest.files)
      ensures f.path !in after
    {
      PathListed(older.files, f);
      OlderOwned(d, past, f, older);
      OldFilesGo(d, past, q, tx, f);
    }
  }

  /** A path of an earlier release that is still on disk belongs to the last one. */
  lemma OlderOwned(d: Disk, past: seq<Manifest>, f: PackFile, older: Manifest)
    requires past != [] ==> d.receipt.Some? && past[|past| - 1] == d.receipt.value.manifest
    requires Describes(past, d.files) && older in past && f in older.files
    ensures f.path in d.files ==> exists g | g in Previous(d.receipt) :: g.path == f.path
  {
    if f.path in d.files { ListedPath(Previous(d.receipt), f.path); }
  }

  lemma StepKeepsSound(w: World, ev: Event, w': World)
    requires Sound(w) && Step(w, ev, w')
    ensures Sound(w')
  {
    match ev
    case Recovering(r) => RecoveryKeepsSound(w, r, w');
    case Install(q, id, log, o) =>
      if w'.disk != w.disk {
        var r, d1 :| RecoverRel(w.disk, r, d1) && AfterRecovery(d1, r, q, id, log, o, w'.disk);
        InstallKeepsSound(w, q, id, log, o, w', r, d1);
      }
  }

  lemma InstallKeepsSound(w: World, q: Request, id: nat, log: seq<Deed>, o: Outcome, w': World, r: Recovery, d1: Disk)
    requires Sound(w) && NoEdits(log) && Unused(w.disk, id)
    requires RecoverRel(w.disk, r, d1) && AfterRecovery(d1, r, q, id, log, o, w'.disk)
    requires w'.past == if w'.disk.receipt == w.disk.receipt then w.past else w.past + [q.manifest]
    ensures Sound(w')
  {
    var mid := World(d1, w.past);
    assert d1.receipt == w.disk.receipt;
    RecoveryKeepsSound(w, r, mid);
    if w'.disk == d1 {
      assert w' == mid;
    } else {
      AttemptKeepsSound(mid, q, id, log, o, w');
    }
  }

  lemma RecoveryKeepsSound(w: World, r: Recovery, w': World)
    requires Sound(w) && RecoverRel(w.disk, r, w'.disk) && w'.past == w.past
    ensures Sound(w')
  {
    if w.disk.journal.Some? && !Committed(w.disk) {
      var base :| InProgress(w.disk, base) && Describes(w.past, base);
      RecoveryKeepsProgress(w.disk, base, r, w'.disk);
    }
  }

  lemma {:induction false} NothingEdited(files: Files, log: seq<Deed>)
    requires NoEdits(log)
    ensures UserTree(files, log) == files
  {
    if log != [] {
      NothingEdited(files, log[..|log| - 1]);
      assert Edited(files, map[]) == files;
    }
  }

  lemma AttemptKeepsSound(w: World, q: Request, id: nat, log: seq<Deed>, o: Outcome, w': World)
    requires Sound(w) && NoEdits(log) && w.disk.journal.None? && Plannable(q.manifest, w.disk.receipt, w.disk.files)
    requires w.disk.receipt.Some? ==> w.disk.receipt.value.transactionId != id
    requires AttemptRel(w.disk, q, id, log, o, w'.disk)
    requires w'.past == if w'.disk.receipt == w.disk.receipt then w.past else w.past + [q.manifest]
    ensures Sound(w')
  {
    var tx := TransactionOf(w.disk, q, id);
    CommitDescribes(w.disk, w.past, q, tx);
    ConsiderateSettles(w.disk, PlanOf(q.manifest, w.disk.receipt, w.disk.files), tx, q.manifest, log, o, w'.disk);
    NothingEdited(w.disk.files, log);
    SettledIsSound(w, tx, q.manifest, o, w');
  }

  lemma SettledIsSound(w: World, tx: Transaction, m: Manifest, o: Outcome, w': World)
    requires Sound(w) && w.disk.journal.None? && ValidManifest(m)
    requires w.disk.receipt.Some? ==> w.disk.receipt.value.transactionId != tx.id
    requires Settled(w.disk, tx, m, w.disk.files, o, w'.disk)
    requires w'.past == if w'.disk.receipt == w.disk.receipt then w.past else w.past + [m]
    requires ValidTransaction(tx) ==> Describes(w.past + [m], Applied(w.disk.files, tx.ops, |tx.ops|))
    ensures Sound(w')
  {
    if w'.disk.journal.Some? && w'.disk.receipt == w.disk.receipt {
      MidwayIsInProgress(w.disk, tx, w.disk.files, w'.disk);
    }
  }

  /** The receipt describes the disk. From an instance with neither journal nor receipt,
      whatever files it has, through any sequence of installations and recoveries, each of which
      may be refused, cancelled, fail or die at any step: whenever there is no journal, the files
      of the receipt's release have its stamps and what only earlier releases owned is gone. */
  lemma {:induction false} ReceiptDescribesDisk(worlds: seq<World>, events: seq<Event>)
    requires |worlds| == |events| + 1
    requires worlds[0].disk.journal.None? && worlds[0].disk.receipt.None? && worlds[0].past == []
    requires forall i | 0 <= i < |events| :: Step(worlds[i], events[i], worlds[i + 1])
    ensures var w := worlds[|events|];
            && Sound(w)
            && (w.disk.journal.None? && w.disk.receipt.Some? ==>
                  && w.past[|w.past| - 1] == w.disk.receipt.value.manifest
                  && Describes(w.past, w.disk.files))
  {
    if |events| > 0 {
      var n := |events| - 1;
      ReceiptDescribesDisk(worlds[..n + 1], events[..n]);
      StepKeepsSound(worlds[n], events[n], worlds[n + 1]);
    }
  }
}
