/** An installation stays in the managed folders: the player's worlds, settings and screenshots are never
    touched, whatever goes wrong. */
module OnlyManaged {
  import opened Optional
  import opened PackModels
  import opened ReleaseRules
  import opened Planner
  import opened Journal
  import opened Attempts

  /** Every transaction the installer accepts, or recovers from, names managed paths only, and at most 8192. */
  lemma TransactionsManaged(tx: Transaction)
    requires ValidTransaction(tx)
    ensures |tx.ops| <= 8192 && forall op | op in tx.ops :: ManagedPath(op.path)
  {
    forall op | op in tx.ops ensures ManagedPath(op.path) {
      var i :| 0 <= i < |tx.ops| && tx.ops[i] == op;
      assert OpPaths(tx.ops)[i] == op.path;
      SafeIsManaged(op.path);
    }
  }

  lemma {:induction false} RemovedFromOld(removals: seq<Removal>, entries: seq<PackFile>, prior: seq<PackFile>,
                                          disk: Files)
    requires forall f | f in prior :: ManagedPath(f.path)
    requires forall x | x in removals :: RemovalMeans(x, entries, prior, disk)
    ensures forall op | op in RemovalOps(removals) :: ManagedPath(op.path)
  {
    forall op | op in RemovalOps(removals) ensures ManagedPath(op.path) {
      var i :| 0 <= i < |removals| && RemovalOps(removals)[i] == op;
      assert RemovalMeans(removals[i], entries, prior, disk);
    }
  }

  /** So does every plan, whether or not it can be carried out as one transaction. */
  lemma OperationsManaged(m: Manifest, receipt: Option<Receipt>, disk: Files)
    requires Plannable(m, receipt, disk) && ValidReceipt(receipt)
    ensures forall op | op in OpsOf(PlanOf(m, receipt, disk)) :: ManagedPath(op.path)
  {
    var removals := PlanRemovals(Previous(receipt), m.files, disk);
    PathsApart(Previous(receipt));
    forall x | x in removals ensures RemovalMeans(x, m.files, Previous(receipt), disk) {
      RemovalsMeant(Previous(receipt), m.files, disk, x);
    }
    RemovedFromOld(removals, m.files, Previous(receipt), disk);
    ValidIsGood(m);
    ChangesManaged(m.files, PlanItems(m.files, Previous(receipt), disk));
  }

  lemma {:induction false} ChangesManaged(entries: seq<PackFile>, items: seq<FileItem>)
    requires |items| == |entries| && forall i | 0 <= i < |items| :: items[i].entry == entries[i]
    requires forall f | f in entries :: ManagedPath(f.path)
    ensures forall op | op in ChangeOps(items) :: ManagedPath(op.path)
  {
    forall op | op in ChangeOps(items) ensures ManagedPath(op.path) {
      ChangeOpsOrigin(items, op);
      var x :| x in items && op.path == x.entry.path;
      var i :| 0 <= i < |entries| && items[i] == x;
      assert entries[i] in entries;
    }
  }

  /** The rest of the disk is as the user alone left it. */
  ghost predicate OthersUntouched(files: Files, log: seq<Deed>, now: Files) {
    forall p | !ManagedPath(p) :: At(now, p) == At(UserTree(files, log), p)
  }

  // ---------------------------------------------------------------- recovery and installation

  lemma RecoveryManaged(d: Disk, r: Recovery, d': Disk, p: Path)
    requires RecoverRel(d, r, d') && !ManagedPath(p)
    ensures At(d'.files, p) == At(d.files, p)
  {
    if At(d'.files, p) != At(d.files, p) {
      RecoveryLosesNothing(d, r, d', p);
      if Readable(d) { TransactionsManaged(d.journal.value); }
    }
  }

  /** Where the installer has written nothing, a log leaves what the user's own edits would. */
  lemma {:induction false} UserAlone(files: Files, before: Files, log: seq<Deed>, p: Path)
    requires At(files, p) == At(before, p)
    requires forall i | 0 <= i < |log| && log[i].Wrote? :: log[i].path != p
    ensures At(Replay(files, log), p) == At(UserTree(before, log), p)
  {
    if log != [] {
      UserAlone(files, before, log[..|log| - 1], p);
    }
  }

  lemma LogManaged(files: Files, log: seq<Deed>, tx: Transaction, now: Files)
    requires ValidTransaction(tx) && Accounts(files, log, tx.ops, now)
    ensures forall i | 0 <= i < |log| && log[i].Wrote? :: ManagedPath(log[i].path)
  {
    TransactionsManaged(tx);
    forall i | 0 <= i < |log| && log[i].Wrote? ensures ManagedPath(log[i].path) {
      assert Careful(files, log, tx.ops, i);
      assert tx.ops[Writes(log[..i])] in tx.ops;
    }
  }

  lemma AttemptManaged(d: Disk, q: Request, id: nat, log: seq<Deed>, o: Outcome, d': Disk, before: Files, p: Path)
    requires AttemptRel(d, q, id, log, o, d') && !ManagedPath(p) && At(d.files, p) == At(before, p)
    ensures At(d'.files, p) == At(UserTree(before, log), p)
  {
    var plan, tx := PlanOf(q.manifest, d.receipt, d.files), TransactionOf(d, q, id);
    var stage, mid, why :|
      Reached(d, plan, tx, q.manifest, log, stage, mid) && Reasoned(d, plan, tx, log, why)
      && Ends(tx, stage, mid, why, o, d');
    LogManaged(d.files, log, tx, mid.files);
    UserAlone(d.files, before, log, p);
    if d' != mid {
      var r :| RecoverRel(mid, r, d') && o == if r.Stopped? then Failed(r.why, true) else Failed(why, false);
      RecoveryManaged(mid, r, d', p);
    }
  }

  lemma PathUntouched(d: Disk, q: Request, id: nat, log: seq<Deed>, o: Outcome, d': Disk, p: Path)
    requires InstallRel(d, q, id, log, o, d') && !ManagedPath(p)
    ensures At(d'.files, p) == At(UserTree(d.files, log), p)
  {
    if !(log == [] && d' == d) {
      var r, d1 :| RecoverRel(d, r, d1) && AfterRecovery(d1, r, q, id, log, o, d');
      RecoveryManaged(d, r, d1, p);
      if !(log == [] && d' == d1) { AttemptManaged(d1, q, id, log, o, d', d.files, p); }
    }
  }

  /** A finished installation reports how many files it replaced or removed. */
  lemma InstallCounts(d: Disk, q: Request, id: nat, log: seq<Deed>, o: Outcome, d': Disk)
    requires InstallRel(d, q, id, log, o, d') && o.Installed?
    ensures o.changedFiles == Writes(log)
  {
    var r, d1 :| RecoverRel(d, r, d1) && AfterRecovery(d1, r, q, id, log, o, d');
    AttemptCounts(d1, q, id, log, o, d');
  }

  lemma AttemptCounts(d: Disk, q: Request, id: nat, log: seq<Deed>, o: Outcome, d': Disk)
    requires AttemptRel(d, q, id, log, o, d') && o.Installed?
    ensures o.changedFiles == Writes(log)
  {
    var plan, tx := PlanOf(q.manifest, d.receipt, d.files), TransactionOf(d, q, id);
    var stage, mid, why :|
      Reached(d, plan, tx, q.manifest, log, stage, mid) && Reasoned(d, plan, tx, log, why)
      && Ends(tx, stage, mid, why, o, d');
  }

  /** An installation, however it ends, and with whatever recovery before and after it, leaves every path
      outside the managed folders as the user alone left it. */
  lemma InstallManaged(d: Disk, q: Request, id: nat, log: seq<Deed>, o: Outcome, d': Disk)
    requires InstallRel(d, q, id, log, o, d')
    ensures OthersUntouched(d.files, log, d'.files)
  {
    forall p | !ManagedPath(p) ensures At(d'.files, p) == At(UserTree(d.files, log), p) {
      PathUntouched(d, q, id, log, o, d', p);
    }
  }
}
