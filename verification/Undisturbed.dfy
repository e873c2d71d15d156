/** Attempts during which the user leaves the targets alone once they have been rechecked: then the disk
    is always the user's own tree with some of the operations carried out on it. */
module Undisturbed {
  import opened Optional
  import opened PackModels
  import opened Planner
  import opened Journal
  import opened Attempts

  // ---------------------------------------------------------------- keeping away

  /** The edits touch no target and nothing above or below one. */
  ghost predicate Away(ops: seq<Operation>, edits: Edits) {
    forall p, i | p in edits && 0 <= i < |ops| :: p != ops[i].path && !(p < ops[i].path) && !(ops[i].path < p)
  }

  /** After the downloads the user keeps away from the targets. */
  ghost predicate Considerate(ops: seq<Operation>, log: seq<Deed>) {
    forall i | 1 <= i < |log| && log[i].UserDid? :: Away(ops, log[i].edits)
  }

  ghost predicate Ready(ops: seq<Operation>, files: Files) {
    Matches(files, ops) && TargetsUsable(files, ops)
  }

  lemma AwayKeepsReady(ops: seq<Operation>, files: Files, edits: Edits)
    requires Ready(ops, files) && Away(ops, edits)
    ensures Ready(ops, Edited(files, edits))
  {
  }

  /** Edits away from the targets and operations on them do not get in each other's way. */
  lemma EditsCommute(ops: seq<Operation>, files: Files, edits: Edits, k: nat)
    requires Distinct(ops) && k <= |ops| && Away(ops, edits)
    ensures Edited(Applied(files, ops, k), edits) == Applied(Edited(files, edits), ops, k)
  {
    var one, other := Edited(Applied(files, ops, k), edits), Applied(Edited(files, edits), ops, k);
    AppliedAt(files, ops, k);
    AppliedAt(Edited(files, edits), ops, k);
    forall q ensures At(one, q) == At(other, q) {
      if q in OpPaths(ops) {
        var i :| 0 <= i < |ops| && OpPaths(ops)[i] == q;
        assert q !in edits;
      }
    }
    SameEverywhere(one, other);
  }

  ghost predicate AllCareful(files: Files, log: seq<Deed>, ops: seq<Operation>) {
    forall i | 0 <= i < |log| :: Careful(files, log, ops, i)
  }

  lemma CarefulBefore(files: Files, log: seq<Deed>, ops: seq<Operation>, n: nat)
    requires AllCareful(files, log, ops) && n <= |log|
    ensures AllCareful(files, log[..n], ops)
  {
    forall i | 0 <= i < n ensures Careful(files, log[..n], ops, i) {
      assert Careful(files, log, ops, i) && log[..n][..i] == log[..i];
    }
  }

  lemma {:induction false} ConsiderateReplay(files: Files, log: seq<Deed>, ops: seq<Operation>)
    requires log != [] && log[0].UserDid? && AllCareful(files, log, ops) && Considerate(ops, log)
    requires Distinct(ops) && Ready(ops, Rechecked(files, log))
    ensures Writes(log) <= |ops| && Ready(ops, UserTree(files, log))
    ensures Replay(files, log) == Applied(UserTree(files, log), ops, Writes(log))
    decreases |log|
  {
    var n := |log| - 1;
    var init := log[..n];
    if n == 0 {
      FirstTurn(files, log);
    } else {
      CarefulBefore(files, log, ops, n);
      assert init[..1] == log[..1] && Careful(files, log, ops, n);
      ConsiderateReplay(files, init, ops);
      if log[n].UserDid? {
        AwayKeepsReady(ops, UserTree(files, init), log[n].edits);
        EditsCommute(ops, UserTree(files, init), log[n].edits, Writes(init));
      }
      OneMore(files, init, log[n]);
      assert log == init + [log[n]];
    }
  }

  lemma FirstTurn(files: Files, log: seq<Deed>)
    requires |log| == 1 && log[0].UserDid?
    ensures UserTree(files, log) == Replay(files, log) == Rechecked(files, log) && Writes(log) == 0
  {
    assert log[..0] == [] && log[..1] == log;
  }

  lemma OneMore(files: Files, init: seq<Deed>, x: Deed)
    ensures Writes(init + [x]) == Writes(init) + (if x.Wrote? then 1 else 0)
    ensures UserTree(files, init + [x]) ==
            if x.UserDid? then Edited(UserTree(files, init), x.edits) else UserTree(files, init)
    ensures Replay(files, init + [x]) ==
            if x.UserDid? then Edited(Replay(files, init), x.edits) else Put(Replay(files, init), x.path, x.now)
  {
    assert (init + [x])[..|init|] == init;
  }

  lemma {:induction false} NothingWritten(files: Files, log: seq<Deed>)
    requires Writes(log) == 0
    ensures Replay(files, log) == UserTree(files, log)
  {
    if log != [] { NothingWritten(files, log[..|log| - 1]); }
  }

  lemma NotDisturbed(files: Files, log: seq<Deed>, ops: seq<Operation>)
    requires log != [] && log[0].UserDid? && AllCareful(files, log, ops) && Considerate(ops, log)
    requires Compatible(OpPaths(ops)) && Distinct(ops) && Ready(ops, Rechecked(files, log))
    ensures !Disturbed(files, log, ops)
  {
    forall n, i | 1 <= n <= |log| && Writes(log[..n]) <= i < |ops|
      ensures Finds(Replay(files, log[..n]), ops[i].path, ops[i].before)
    {
      CarefulBefore(files, log, ops, n);
      assert log[..n][..1] == log[..1];
      ConsiderateReplay(files, log[..n], ops);
      var u := UserTree(files, log[..n]);
      AppliedAt(u, ops, Writes(log[..n]));
      UsableStays(u, Applied(u, ops, Writes(log[..n])), ops);
    }
  }

  // ---------------------------------------------------------------- on the way

  /** The journal is in place and the first k operations have been carried out on e. */
  ghost predicate Midway(d: Disk, tx: Transaction, e: Files, d': Disk) {
    && d'.journal == Some(tx) && d'.receipt == d.receipt
    && exists k | 0 <= k <= |tx.ops| :: d'.files == Applied(e, tx.ops, k)
  }

  ghost predicate Done(tx: Transaction, m: Manifest, e: Files, d': Disk) {
    && d'.receipt == Some(Receipt(tx.id, m)) && d'.files == Applied(e, tx.ops, |tx.ops|)
    && d'.journal in {None, Some(tx)}
  }

  /** Part-way through a transaction nothing stands in the way of undoing it. */
  lemma PartialIsRestorable(tx: Transaction, e: Files, k: nat, mid: Disk)
    requires ValidTransaction(tx) && Matches(e, tx.ops) && TargetsUsable(e, tx.ops) && BackedUp(tx, mid.backups)
    requires k <= |tx.ops| && mid.journal == Some(tx) && mid.files == Applied(e, tx.ops, k)
    ensures Restorable(mid)
  {
    ValidIsDistinct(tx);
    AppliedAt(e, tx.ops, k);
    UsableStays(e, mid.files, tx.ops);
  }

  /** The failure handler's recovery, in the middle of the apply loop: it undoes what was done, or it
      is stopped from outside. */
  lemma MidwayHandled(d: Disk, tx: Transaction, e: Files, mid: Disk, r: Recovery, d': Disk)
    requires ValidTransaction(tx) && Matches(e, tx.ops) && TargetsUsable(e, tx.ops)
    requires BackedUp(tx, mid.backups) && ValidReceipt(d.receipt)
    requires d.receipt.Some? ==> d.receipt.value.transactionId != tx.id
    requires Midway(d, tx, e, mid) && RecoverRel(mid, r, d')
    ensures if r.Stopped? then r.why in {Crash, Raised(OSError)} && Midway(d, tx, e, d')
            else d'.journal.None? && d'.receipt == d.receipt && d'.files == e
    ensures d'.backups == mid.backups && d'.downloads == mid.downloads
  {
    var k :| 0 <= k <= |tx.ops| && mid.files == Applied(e, tx.ops, k);
    ValidIsDistinct(tx);
    PartialIsRestorable(tx, e, k, mid);
    var j := UndoOrStop(mid, r, d');
    UndoPrefix(e, tx.ops, k, j);
    if r.Stopped? { MidwayAt(d, tx, e, d', if j < k then j else k); }
  }

  lemma MidwayAt(d: Disk, tx: Transaction, e: Files, d': Disk, k: nat)
    requires d'.journal == Some(tx) && d'.receipt == d.receipt && k <= |tx.ops| && d'.files == Applied(e, tx.ops, k)
    ensures Midway(d, tx, e, d')
  {
  }

  /** The same, once the receipt has been written. */
  lemma DoneHandled(tx: Transaction, m: Manifest, e: Files, mid: Disk, r: Recovery, d': Disk)
    requires ValidTransaction(tx) && ValidManifest(m) && Done(tx, m, e, mid) && mid.journal == Some(tx)
    requires RecoverRel(mid, r, d')
    ensures Done(tx, m, e, d') && (r.Stopped? ==> r.why in {Crash, Raised(OSError)})
            && (!r.Stopped? ==> d'.journal.None?)
    ensures d'.backups == mid.backups && d'.downloads == mid.downloads
  {
  }

  // ---------------------------------------------------------------- at the end

  /** How such an attempt ends: untouched or undone, with the user's own files; part-way, if the process
      died or the handler's recovery was stopped; or done. */
  ghost predicate Settled(d: Disk, tx: Transaction, m: Manifest, e: Files, o: Outcome, d': Disk) {
    || (o.Failed? && !o.handlerFailed && d'.journal.None? && d'.receipt == d.receipt && d'.files == e)
    || (&& ValidTransaction(tx) && Ready(tx.ops, e) && BackedUp(tx, d'.backups)
        && (|| (Interrupted(o) && Midway(d, tx, e, d'))
            || (Done(tx, m, e, d') && (d'.journal.Some? ==> Interrupted(o)))))
  }

  lemma ConsiderateSettles(d: Disk, plan: Plan, tx: Transaction, m: Manifest, log: seq<Deed>, o: Outcome, d': Disk)
    requires Attempt(d, plan, tx, m, log, o, d') && Considerate(tx.ops, log) && tx.ops == OpsOf(plan)
    requires ValidTransaction(tx) && ValidReceipt(d.receipt) && ValidManifest(m)
    requires d.receipt.Some? ==> d.receipt.value.transactionId != tx.id
    ensures Settled(d, tx, m, UserTree(d.files, log), o, d')
    ensures o.Failed? && o.handlerFailed ==> o.why in {Crash, Raised(OSError)}
  {
    var stage, mid, why :|
      Reached(d, plan, tx, m, log, stage, mid) && Reasoned(d, plan, tx, log, why) && Ends(tx, stage, mid, why, o, d');
    var e := UserTree(d.files, log);
    if stage == Preparing {
      NothingWritten(d.files, log);
    } else {
      ValidIsDistinct(tx);
      OpsMatchPlan(plan, Rechecked(d.files, log));
      assert AllCareful(d.files, log, tx.ops);
      ConsiderateReplay(d.files, log, tx.ops);
      if stage == Applying {
        MidwayAt(d, tx, e, mid, Writes(log));
        ApplyingSettles(d, tx, m, e, mid, why, o, d');
      } else {
        ReceivedSettles(d, tx, m, e, mid, why, o, d');
      }
    }
  }

  lemma ApplyingSettles(d: Disk, tx: Transaction, m: Manifest, e: Files, mid: Disk, why: Stop, o: Outcome, d': Disk)
    requires ValidTransaction(tx) && Ready(tx.ops, e) && BackedUp(tx, mid.backups) && ValidReceipt(d.receipt)
    requires d.receipt.Some? ==> d.receipt.value.transactionId != tx.id
    requires Midway(d, tx, e, mid) && Ends(tx, Applying, mid, why, o, d')
    ensures Settled(d, tx, m, e, o, d') && (o.Failed? && o.handlerFailed ==> o.why in {Crash, Raised(OSError)})
  {
    if why != Crash {
      var r :| RecoverRel(mid, r, d') && o == if r.Stopped? then Failed(r.why, true) else Failed(why, false);
      MidwayHandled(d, tx, e, mid, r, d');
    }
  }

  lemma ReceivedSettles(d: Disk, tx: Transaction, m: Manifest, e: Files, mid: Disk, why: Stop, o: Outcome, d': Disk)
    requires ValidTransaction(tx) && ValidManifest(m) && Ready(tx.ops, e) && BackedUp(tx, mid.backups)
    requires Done(tx, m, e, mid) && Ends(tx, Received, mid, why, o, d')
    ensures Settled(d, tx, m, e, o, d') && (o.Failed? && o.handlerFailed ==> o.why in {Crash, Raised(OSError)})
  {
    if mid.journal.Some? && why != Crash {
      var r :| RecoverRel(mid, r, d') && o == if r.Stopped? then Failed(r.why, true) else Failed(why, false);
      DoneHandled(tx, m, e, mid, r, d');
    }
  }
}
