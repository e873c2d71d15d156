/** Which installation plans can be carried out as one transaction. */
module PlanTheorems {
  import opened Optional
  import opened PackModels
  import opened Planner
  import opened Journal
  import opened Attempts
  import opened Undisturbed
  import opened InstallTheorems

  /** A change and a removal of which one lies below the other once case is ignored. */
  predicate Collides(plan: Plan) {
    exists x, r | x in plan.files && r in plan.removals ::
      x.action != Keep && (Fold(x.entry.path) < Fold(r.path) || Fold(r.path) < Fold(x.entry.path))
  }

  lemma OpPathOf(ops: seq<Operation>, p: Path)
    ensures p in OpPaths(ops) <==> exists op | op in ops :: op.path == p
  {
    if p in OpPaths(ops) {
      var i :| 0 <= i < |ops| && OpPaths(ops)[i] == p;
      assert ops[i] in ops;
    }
    if op :| op in ops && op.path == p {
      var i :| 0 <= i < |ops| && ops[i] == op;
      assert OpPaths(ops)[i] == p;
    }
  }

  lemma CompatibleSnoc(paths: seq<Path>, p: Path)
    ensures Compatible(paths + [p]) <==> Compatible(paths) && Apart(paths, [p]) && SafePath(p)
  {
    var all := paths + [p];
    if Compatible(all) {
      assert forall i | 0 <= i < |paths| :: paths[i] == all[i];
      assert all[|paths|] == p;
    }
  }

  ghost predicate Apart(a: seq<Path>, b: seq<Path>) {
    forall p, q | p in a && q in b :: Fold(p) != Fold(q) && !(Fold(p) < Fold(q)) && !(Fold(q) < Fold(p))
  }

  lemma {:induction false} CompatibleJoin(a: seq<Path>, b: seq<Path>)
    ensures Compatible(a + b) <==> Compatible(a) && Compatible(b) && Apart(a, b)
  {
    if b == [] {
      assert a + b == a;
    } else {
      var init, last := b[..|b| - 1], b[|b| - 1];
      CompatibleJoin(a, init);
      CompatibleSnoc(a + init, last);
      CompatibleSnoc(init, last);
      assert a + b == a + init + [last] && b == init + [last];
    }
  }

  /** Choosing from compatible paths, one more at a time, keeps them compatible. */
  lemma OneMoreChosen(all: seq<Path>, p: Path, chosen: seq<Path>)
    requires Compatible(all + [p]) && Compatible(chosen) && forall q | q in chosen :: q in all
    ensures Compatible(chosen + [p])
  {
    CompatibleSnoc(all, p);
    CompatibleSnoc(chosen, p);
  }

  lemma PrefixCompatible(all: seq<Path>, p: Path)
    requires Compatible(all + [p])
    ensures Compatible(all)
  {
    CompatibleSnoc(all, p);
  }

  lemma {:induction false} ChangesCompatible(items: seq<FileItem>, entries: seq<PackFile>)
    requires |items| == |entries| && forall i | 0 <= i < |items| :: items[i].entry == entries[i]
    requires Compatible(PathsOf(entries))
    ensures Compatible(OpPaths(ChangeOps(items))) && |ChangeOps(items)| <= |items|
    ensures forall p | p in OpPaths(ChangeOps(items)) :: p in PathsOf(entries)
  {
    if items != [] {
      var n := |items| - 1;
      var p, before := entries[n].path, PathsOf(entries[..n]);
      assert PathsOf(entries) == before + [p];
      PrefixCompatible(before, p);
      ChangesCompatible(items[..n], entries[..n]);
      var rest := ChangeOps(items[..n]);
      if items[n].action != Keep {
        assert OpPaths(ChangeOps(items)) == OpPaths(rest) + [p];
        OneMoreChosen(before, p, OpPaths(rest));
      }
    }
  }

  lemma {:induction false} RemovalsCompatible(prior: seq<PackFile>, entries: seq<PackFile>, files: Files)
    requires Compatible(PathsOf(prior))
    ensures var ops := RemovalOps(PlanRemovals(prior, entries, files));
            Compatible(OpPaths(ops)) && |ops| <= |prior| && forall p | p in OpPaths(ops) :: p in PathsOf(prior)
  {
    if prior != [] {
      var n := |prior| - 1;
      var f, before := prior[n], PathsOf(prior[..n]);
      assert PathsOf(prior) == before + [f.path];
      PrefixCompatible(before, f.path);
      RemovalsCompatible(prior[..n], entries, files);
      if Dropped(f, entries, files) {
        var rest := PlanRemovals(prior[..n], entries, files);
        OneMoreRemoval(rest, Removal(f.path, files[f.path], files[f.path] != f.stamp));
        OneMoreChosen(before, f.path, OpPaths(RemovalOps(rest)));
      }
    }
  }

  lemma OneMoreRemoval(removals: seq<Removal>, r: Removal)
    ensures OpPaths(RemovalOps(removals + [r])) == OpPaths(RemovalOps(removals)) + [r.path]
  {
    assert (removals + [r])[..|removals|] == removals;
  }

  lemma ChangedPath(items: seq<FileItem>, p: Path)
    ensures p in OpPaths(ChangeOps(items)) <==> exists x | x in items :: x.action != Keep && x.entry.path == p
  {
    OpPathOf(ChangeOps(items), p);
    if p in OpPaths(ChangeOps(items)) {
      var op :| op in ChangeOps(items) && op.path == p;
      ChangeOpsOrigin(items, op);
    }
    if x :| x in items && x.action != Keep && x.entry.path == p {
      ChangeOpsOrigin(items, Operation(p, x.before, Some(x.entry.stamp)));
    }
  }

  lemma RemovedPath(removals: seq<Removal>, p: Path)
    ensures p in OpPaths(RemovalOps(removals)) <==> exists r | r in removals :: r.path == p
  {
    var ops := RemovalOps(removals);
    if p in OpPaths(ops) {
      var i :| 0 <= i < |ops| && OpPaths(ops)[i] == p;
      assert removals[i] in removals && removals[i].path == p;
    }
    if r :| r in removals && r.path == p {
      var i :| 0 <= i < |removals| && removals[i] == r;
      assert OpPaths(ops)[i] == p;
    }
  }

  lemma KeysDiffer(m: Manifest, receipt: Option<Receipt>, files: Files, x: FileItem, r: Removal)
    requires x in PlanItems(m.files, Previous(receipt), files) && r in PlanRemovals(Previous(receipt), m.files, files)
    ensures Fold(x.entry.path) != Fold(r.path)
  {
    RemovalIsDropped(Previous(receipt), m.files, files, r);
    var items := PlanItems(m.files, Previous(receipt), files);
    var k :| 0 <= k < |items| && items[k] == x;
    assert m.files[k] in m.files;
  }

  lemma SwapsAreCollisions(m: Manifest, receipt: Option<Receipt>, files: Files)
    ensures var plan := PlanOf(m, receipt, files);
            Apart(OpPaths(ChangeOps(plan.files)), OpPaths(RemovalOps(plan.removals))) <==> !Collides(plan)
  {
    var plan := PlanOf(m, receipt, files);
    var changes, removals := OpPaths(ChangeOps(plan.files)), OpPaths(RemovalOps(plan.removals));
    if !Collides(plan) {
      forall p, q | p in changes && q in removals
        ensures Fold(p) != Fold(q) && !(Fold(p) < Fold(q)) && !(Fold(q) < Fold(p))
      {
        ChangedPath(plan.files, p);
        RemovedPath(plan.removals, q);
        var x :| x in plan.files && x.action != Keep && x.entry.path == p;
        var r :| r in plan.removals && r.path == q;
        KeysDiffer(m, receipt, files, x, r);
      }
    } else {
      var x, r :| x in plan.files && r in plan.removals && x.action != Keep
                  && (Fold(x.entry.path) < Fold(r.path) || Fold(r.path) < Fold(x.entry.path));
      ChangedPath(plan.files, x.entry.path);
      RemovedPath(plan.removals, r.path);
      assert x.entry.path in changes && r.path in removals;
    }
  }

  /** Of the plans that are made, exactly those with a collision are refused as transactions. */
  lemma RefusedOnCollision(m: Manifest, receipt: Option<Receipt>, files: Files, id: nat)
    requires Plannable(m, receipt, files) && ValidReceipt(receipt)
    ensures var plan := PlanOf(m, receipt, files);
            ValidTransaction(Transaction(id, OpsOf(plan))) <==> !Collides(plan)
  {
    var plan := PlanOf(m, receipt, files);
    var changes, removals := ChangeOps(plan.files), RemovalOps(plan.removals);
    ChangesCompatible(plan.files, m.files);
    RemovalsCompatible(Previous(receipt), m.files, files);
    JoinedPaths(changes, removals);
    CompatibleJoin(OpPaths(changes), OpPaths(removals));
    SwapsAreCollisions(m, receipt, files);
  }

  /** And a collision is never between paths as they are spelled: a release that turns a managed file on
      disk into a folder, or a folder above one into a file, gets no plan. */
  lemma NoPlanForFolderSwap(m: Manifest, receipt: Option<Receipt>, files: Files, f: PackFile, g: PackFile)
    requires f in m.files && g in Previous(receipt) && g.path in files && (f.path < g.path || g.path < f.path)
    ensures !Plannable(m, receipt, files)
  {
    assert LooksAt(f.path, m.files, Previous(receipt));
    assert !Usable(files, f.path);
  }

  lemma CollisionIgnoresCase(m: Manifest, receipt: Option<Receipt>, files: Files, x: FileItem, r: Removal)
    requires Plannable(m, receipt, files)
    requires x in PlanItems(m.files, Previous(receipt), files) && r in PlanRemovals(Previous(receipt), m.files, files)
    ensures !(x.entry.path < r.path) && !(r.path < x.entry.path)
  {
    RemovalIsDropped(Previous(receipt), m.files, files, r);
    var items := PlanItems(m.files, Previous(receipt), files);
    var k :| 0 <= k < |items| && items[k] == x;
    assert m.files[k] in m.files;
    var g :| g in Previous(receipt) && Dropped(g, m.files, files) && g.path == r.path;
    if x.entry.path < r.path || r.path < x.entry.path { NoPlanForFolderSwap(m, receipt, files, x.entry, g); }
  }

  /** There are collisions: on a disk that tells case apart, a release with config/a/b gets a plan over
      one with config/A, and the plan is refused as a transaction. */
  lemma ACollision() returns (m: Manifest, receipt: Option<Receipt>, files: Files)
    ensures ValidReceipt(receipt) && Plannable(m, receipt, files) && Collides(PlanOf(m, receipt, files))
  {
    var runtime, stamp := Runtime("1.21", "fabric", 21), Stamp(1, "aa");
    var former, later := PackFile(["config", "A"], "https://a", stamp),
        PackFile(["config", "a", "b"], "https://b", stamp);
    var m0 := Manifest("pack", "1", runtime, 4096, None, "", [former]);
    m := Manifest("pack", "2", runtime, 4096, None, "", [later]);
    receipt, files := Some(Receipt(0, m0)), map[former.path := stamp];
    FoldsOf(former.path, later.path);
    OneFileIsValid(m0, former);
    OneFileIsValid(m, later);
    assert m.version[0] != m0.version[0];
    OneFileEach(m, receipt, files, former, later);
  }

  lemma OneFileEach(m: Manifest, receipt: Option<Receipt>, files: Files, former: PackFile, later: PackFile)
    requires ValidManifest(m) && receipt.Some? && receipt.value.manifest.files == [former] && m.files == [later]
    requires receipt.value.manifest.profileId == m.profileId && receipt.value.manifest.version != m.version
    requires files == map[former.path := former.stamp]
    requires Fold(former.path) < Fold(later.path) && !(former.path < later.path) && !(later.path < former.path)
    ensures Plannable(m, receipt, files) && Collides(PlanOf(m, receipt, files))
  {
    NothingInTheWay(m.files, [former], files, former, later);
    var plan, r := PlanOf(m, receipt, files), Removal(former.path, former.stamp, false);
    RemovalIsDropped([former], m.files, files, r);
    assert Dropped(former, m.files, files) && former in [former];
    var x := plan.files[0];
    assert x == PlanItem(later, [former], files) && x in plan.files && r in plan.removals;
    assert x.action == Download;
  }

  lemma FoldsOf(former: Path, later: Path)
    requires former == ["config", "A"] && later == ["config", "a", "b"]
    ensures Fold(former) < Fold(later) && !(former < later) && !(later < former)
  {
    assert FoldPart("A") == FoldPart("a");
    assert Fold(later)[..2] == Fold(former);
    assert former[1][0] != later[1][0];
    assert later[..2] != former by { assert later[..2][1] != former[1]; }
  }

  lemma OneFileIsValid(m: Manifest, f: PackFile)
    requires m.files == [f] && SafePath(f.path) && f.stamp.size <= 1 && m.runtime.loader == "fabric"
    requires m.runtime.javaMajor == 21 && m.memoryMb == 4096
    ensures ValidManifest(m)
  {
    assert PathsOf(m.files) == [f.path];
    assert m.runtime.loader[0] != "vanilla"[0];
    assert TotalBytes(m.files) == f.stamp.size + TotalBytes(m.files[1..]);
  }

  lemma NothingInTheWay(entries: seq<PackFile>, prior: seq<PackFile>, files: Files, former: PackFile, later: PackFile)
    requires entries == [later] && prior == [former] && files.Keys == {former.path}
    requires Fold(former.path) < Fold(later.path) && !(former.path < later.path) && !(later.path < former.path)
    ensures AllUsable(entries, prior, files) && !RenamesCase(entries, prior) && Entry(entries, Fold(former.path)).None?
    ensures Entry(prior, Fold(later.path)).None?
  {
    forall p | LooksAt(p, entries, prior) ensures Usable(files, p) {
      assert p in {former.path, later.path};
    }
  }

  lemma JoinedPaths(a: seq<Operation>, b: seq<Operation>)
    ensures OpPaths(a + b) == OpPaths(a) + OpPaths(b)
  {
  }

  /** A journal that cannot be read, or an uncommitted one that cannot be undone. */
  ghost predicate Stuck(d: Disk) {
    d.journal.Some? && (!Readable(d) || (!Committed(d) && !Restorable(d)))
  }

  /** What stands in the way of a release on a disk without journal: an unreadable receipt, a release
      no plan is made for, a plan other than the one previewed, conflicts nobody approved, or a
      collision. */
  ghost predicate Obstructed(d: Disk, q: Request) {
    var plan := PlanOf(q.manifest, d.receipt, d.files);
    || !ValidReceipt(d.receipt) || !Plannable(q.manifest, d.receipt, d.files)
    || (q.expected.Some? && plan != q.expected.value)
    || (plan.conflicts != [] && !q.replaceModified)
    || Collides(plan)
  }

  /** The user changed something the installer looked at: a planned file by the end of the downloads, or
      later a target of an operation still to be done. */
  ghost predicate Interfered(d: Disk, q: Request, id: nat, log: seq<Deed>) {
    var plan := PlanOf(q.manifest, d.receipt, d.files);
    log != [] && (!StillPlanned(plan, Rechecked(d.files, log)) || Disturbed(d.files, log, TransactionOf(d, q, id).ops))
  }

  lemma Installs(d: Disk, q: Request, id: nat)
    requires d.journal.None? && !Obstructed(d, q)
    ensures Installable(d, q, id)
  {
    RefusedOnCollision(q.manifest, d.receipt, d.files, id);
  }

  lemma StuckRecovery(d: Disk, why: Stop, d': Disk)
    requires RecoverRel(d, Stopped(why), d') && !External(why)
    ensures Stuck(d)
  {
  }

  /** An installation that fails for no reason from outside had an invalid release, or a journal that
      could not be recovered from, or was obstructed on the recovered disk, or interfered with; or its
      failure handler met a target the user had changed. */
  lemma FailureHasAReason(d: Disk, q: Request, id: nat, log: seq<Deed>, o: Outcome, d': Disk)
    returns (r: Recovery, d1: Disk)
    requires InstallRel(d, q, id, log, o, d') && o.Failed? && !External(o.why)
    ensures || !ValidManifest(q.manifest) || Stuck(d)
            || (&& RecoverRel(d, r, d1) && d1.journal.None?
                && (Obstructed(d1, q) || Interfered(d1, q, id, log) || (o.handlerFailed && Stuck(d'))))
  {
    r, d1 := NotNeeded, d;
    if ValidManifest(q.manifest) {
      r, d1 :| RecoverRel(d, r, d1) && AfterRecovery(d1, r, q, id, log, o, d');
      if r.Stopped? {
        StuckRecovery(d, r.why, d1);
      } else if Accepted(d1, q) && AttemptRel(d1, q, id, log, o, d') {
        AttemptHasAReason(d1, q, id, log, o, d');
      } else if !Obstructed(d1, q) {
        Installs(d1, q, id);
      }
    }
  }

  lemma AttemptHasAReason(d: Disk, q: Request, id: nat, log: seq<Deed>, o: Outcome, d': Disk)
    requires AttemptRel(d, q, id, log, o, d') && o.Failed? && !External(o.why)
    ensures Interfered(d, q, id, log) || (o.handlerFailed && Stuck(d'))
  {
    var plan, tx := PlanOf(q.manifest, d.receipt, d.files), TransactionOf(d, q, id);
    var stage, mid, why :|
      Reached(d, plan, tx, q.manifest, log, stage, mid) && Reasoned(d, plan, tx, log, why)
      && Ends(tx, stage, mid, why, o, d');
    if o.handlerFailed {
      var r :| RecoverRel(mid, r, d') && o == if r.Stopped? then Failed(r.why, true) else Failed(why, false);
      StuckStays(mid, r.why, d');
    }
  }

  lemma StuckStays(d: Disk, why: Stop, d': Disk)
    requires RecoverRel(d, Stopped(why), d') && !External(why)
    ensures d' == d && Stuck(d)
  {
  }

  /** With no fault outside, and a user who leaves the targets alone once they have been checked, a valid
      release installs if and only if nothing obstructs it and nothing it plans for changed by the end of
      the downloads. Whatever the user does, it installs if nothing obstructs or interferes. */
  lemma FaultlessInstallSucceeds(d: Disk, q: Request, id: nat, log: seq<Deed>, o: Outcome, d': Disk)
    requires InstallRel(d, q, id, log, o, d') && (o.Failed? ==> !External(o.why))
    requires d.journal.None? && ValidManifest(q.manifest) && ValidReceipt(d.receipt) && Unused(d, id)
    ensures Considerate(TransactionOf(d, q, id).ops, log) ==>
              (o.Installed? <==>
                 && !Obstructed(d, q)
                 && (log != [] ==> StillPlanned(PlanOf(q.manifest, d.receipt, d.files), Rechecked(d.files, log))))
    ensures !Obstructed(d, q) && !Interfered(d, q, id, log) ==> o.Installed? || o.handlerFailed
  {
    if o.Installed? {
      NoJournalAttempt(d, q, id, log, o, d');
      InstalledUnobstructed(d, q, id, log, o, d');
    } else {
      var r, d1 := FailureHasAReason(d, q, id, log, o, d');
      assert d1 == d;
      if Considerate(TransactionOf(d, q, id).ops, log) && log != [] {
        NoJournalAttempt(d, q, id, log, o, d');
        ConsiderateFailure(d, q, id, log, o, d');
      }
    }
  }

  lemma InstalledUnobstructed(d: Disk, q: Request, id: nat, log: seq<Deed>, o: Outcome, d': Disk)
    requires Accepted(d, q) && AttemptRel(d, q, id, log, o, d') && o.Installed? && ValidReceipt(d.receipt)
    ensures !Obstructed(d, q)
    ensures log != [] && StillPlanned(PlanOf(q.manifest, d.receipt, d.files), Rechecked(d.files, log))
  {
    RefusedOnCollision(q.manifest, d.receipt, d.files, id);
  }

  lemma ConsiderateFailure(d: Disk, q: Request, id: nat, log: seq<Deed>, o: Outcome, d': Disk)
    requires Accepted(d, q) && AttemptRel(d, q, id, log, o, d') && o.Failed? && !External(o.why)
    requires ValidReceipt(d.receipt) && Unused(d, id) && Considerate(TransactionOf(d, q, id).ops, log)
    ensures log != [] && !StillPlanned(PlanOf(q.manifest, d.receipt, d.files), Rechecked(d.files, log))
  {
    var plan, tx := PlanOf(q.manifest, d.receipt, d.files), TransactionOf(d, q, id);
    ConsiderateSettles(d, plan, tx, q.manifest, log, o, d');
    AttemptHasAReason(d, q, id, log, o, d');
    var mid := LogAccounts(d, q, id, log, o, d');
    if StillPlanned(plan, Rechecked(d.files, log)) {
      OpsMatchPlan(plan, Rechecked(d.files, log));
      ValidIsDistinct(tx);
      assert AllCareful(d.files, log, tx.ops);
      NotDisturbed(d.files, log, tx.ops);
    }
  }
}
