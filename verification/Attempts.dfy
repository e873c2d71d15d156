/** One installation attempt (mc_manager/launcher/installer.py) as a relation between disks: the
    operations a plan leads to, what the user and the installer do to the files meanwhile, and how an
    attempt can end. */
module Attempts {
  import opened Optional
  import opened PackModels
  import opened Planner
  import opened ReleaseRules
  import opened Journal

  datatype Request = Request(manifest: Manifest, replaceModified: bool, expected: Option<Plan>)

  /** `handlerFailed` says that the failure was followed by one of the failure handler's own recovery,
      whose exception is the one the caller sees. */
  datatype Outcome = Installed(changedFiles: nat) | Failed(why: Stop, handlerFailed: bool)

  /** The process died, or the failure handler's recovery did not get through. */
  predicate Interrupted(o: Outcome) {
    o.Failed? && (o.why == Crash || o.handlerFailed)
  }

  // ---------------------------------------------------------------- from plan to operations

  function ChangeOps(items: seq<FileItem>): seq<Operation> {
    if items == [] then [] else
      var x := items[|items| - 1];
      var rest := ChangeOps(items[..|items| - 1]);
      if x.action == Keep then rest else rest + [Operation(x.entry.path, x.before, Some(x.entry.stamp))]
  }

  function RemovalOps(removals: seq<Removal>): (ops: seq<Operation>)
    ensures |ops| == |removals|
    ensures forall i | 0 <= i < |ops| :: ops[i] == Operation(removals[i].path, Some(removals[i].before), None)
  {
    if removals == [] then [] else
      var x := removals[|removals| - 1];
      RemovalOps(removals[..|removals| - 1]) + [Operation(x.path, Some(x.before), None)]
  }

  function OpsOf(plan: Plan): seq<Operation> {
    ChangeOps(plan.files) + RemovalOps(plan.removals)
  }

  /** `fingerprint(safe_target(p))` does not raise, and is this. */
  predicate Finds(files: Files, p: Path, s: Option<Stamp>) {
    Usable(files, p) && At(files, p) == s
  }

  /** The stamps the plan was made for are still on disk, kept files included, and no file has come to
      lie above or below one of them. */
  predicate StillPlanned(plan: Plan, files: Files) {
    && (forall x | x in plan.files :: Finds(files, x.entry.path, x.before))
    && (forall x | x in plan.removals :: Finds(files, x.path, Some(x.before)))
  }

  /** There is a file with this stamp, or none, and room for one. */
  ghost predicate IsAt(p: Path, s: Option<Stamp>, files: Files) {
    RoomFor(p, files) && (if s.None? then p !in files else p in files && files[p] == s.value)
  }

  /** Nothing the plan looked at has changed since. */
  ghost predicate Unchanged(plan: Plan, files: Files) {
    && (forall i | 0 <= i < |plan.files| :: IsAt(plan.files[i].entry.path, plan.files[i].before, files))
    && (forall i | 0 <= i < |plan.removals| :: IsAt(plan.removals[i].path, Some(plan.removals[i].before), files))
  }

  lemma PlannedIsUnchanged(plan: Plan, files: Files)
    ensures StillPlanned(plan, files) <==> Unchanged(plan, files)
  {
    forall p, s ensures Finds(files, p, s) <==> IsAt(p, s, files) {
    }
    forall i | 0 <= i < |plan.files| ensures plan.files[i] in plan.files {
    }
    forall i | 0 <= i < |plan.removals| ensures plan.removals[i] in plan.removals {
    }
  }

  predicate BackedUp(tx: Transaction, backups: map<(nat, nat), Stamp>) {
    forall i | 0 <= i < |tx.ops| && tx.ops[i].before.Some? ::
      (tx.id, i) in backups && backups[(tx.id, i)] == tx.ops[i].before.value
  }

  predicate Fetched(tx: Transaction, changes: nat, downloads: map<(nat, nat), Stamp>)
    requires changes <= |tx.ops|
  {
    forall i | 0 <= i < changes :: (tx.id, i) in downloads && Some(downloads[(tx.id, i)]) == tx.ops[i].after
  }

  ghost predicate BackedUpTo(tx: Transaction, backups: map<(nat, nat), Stamp>, i: nat)
    requires i <= |tx.ops|
  {
    forall j | 0 <= j < i && tx.ops[j].before.Some? ::
      (tx.id, j) in backups && backups[(tx.id, j)] == tx.ops[j].before.value
  }

  ghost predicate SameBut<K(!new), V>(a: map<K, V>, b: map<K, V>, k: K) {
    forall other | other != k :: (other in a <==> other in b) && (other in a ==> a[other] == b[other])
  }

  lemma OneMoreBackup(tx: Transaction, before: map<(nat, nat), Stamp>, backups: map<(nat, nat), Stamp>, i: nat)
    requires i < |tx.ops| && BackedUpTo(tx, before, i) && SameBut(before, backups, (tx.id, i))
    requires tx.ops[i].before.Some? ==> Stored(backups, (tx.id, i)) == tx.ops[i].before
    ensures BackedUpTo(tx, backups, i + 1)
  {
    forall j | 0 <= j < i + 1 && tx.ops[j].before.Some?
      ensures (tx.id, j) in backups && backups[(tx.id, j)] == tx.ops[j].before.value
    {
      assert (tx.id, j) != (tx.id, i) || j == i;
    }
  }

  lemma ChangesComeFirst(plan: Plan)
    ensures forall i | |ChangeOps(plan.files)| <= i < |OpsOf(plan)| :: OpsOf(plan)[i].after.None?
  {
  }

  lemma {:induction false} ChangeOpsOrigin(items: seq<FileItem>, op: Operation)
    ensures op in ChangeOps(items) <==>
            exists x | x in items ::
              x.action != Keep && op == Operation(x.entry.path, x.before, Some(x.entry.stamp))
  {
    if items != [] {
      ChangeOpsOrigin(items[..|items| - 1], op);
      assert items == items[..|items| - 1] + [items[|items| - 1]];
    }
  }

  lemma OpsMatchPlan(plan: Plan, files: Files)
    requires StillPlanned(plan, files)
    ensures Matches(files, OpsOf(plan)) && TargetsUsable(files, OpsOf(plan))
  {
    forall i | 0 <= i < |OpsOf(plan)|
      ensures Finds(files, OpsOf(plan)[i].path, OpsOf(plan)[i].before)
    {
      if i < |ChangeOps(plan.files)| {
        ChangeOpsOrigin(plan.files, OpsOf(plan)[i]);
      } else {
        assert plan.removals[i - |ChangeOps(plan.files)|] in plan.removals;
      }
    }
  }

  /** The planned files that have to be fetched. */
  function Changes(items: seq<FileItem>): seq<FileItem> {
    if items == [] then [] else
      var rest := Changes(items[..|items| - 1]);
      if items[|items| - 1].action == Keep then rest else rest + [items[|items| - 1]]
  }

  lemma {:induction false} ChangesMatchOps(items: seq<FileItem>)
    ensures |Changes(items)| == |ChangeOps(items)|
    ensures forall i | 0 <= i < |Changes(items)| ::
              && Changes(items)[i] in items
              && ChangeOps(items)[i] == Operation(Changes(items)[i].entry.path, Changes(items)[i].before,
                                                  Some(Changes(items)[i].entry.stamp))
  {
    if items != [] {
      ChangesMatchOps(items[..|items| - 1]);
    }
  }

  // ---------------------------------------------------------------- deeds

  type Edits = map<Path, Option<Stamp>>

  /** What happens to the managed files during an attempt: the user edits some, or the installer
      replaces or removes one. */
  datatype Deed = UserDid(edits: Edits) | Wrote(path: Path, was: Option<Stamp>, now: Option<Stamp>)

  function Edited(files: Files, edits: Edits): Files {
    map p | p in files.Keys + edits.Keys && (p in edits ==> edits[p].Some?)
      :: if p in edits then edits[p].value else files[p]
  }

  function Replay(files: Files, log: seq<Deed>): Files {
    if log == [] then files
    else
      var rest := Replay(files, log[..|log| - 1]);
      match log[|log| - 1]
      case UserDid(edits) => Edited(rest, edits)
      case Wrote(path, _, now) => Put(rest, path, now)
  }

  /** The files as they would be without the installer. */
  function UserTree(files: Files, log: seq<Deed>): Files {
    if log == [] then files
    else
      var rest := UserTree(files, log[..|log| - 1]);
      if log[|log| - 1].UserDid? then Edited(rest, log[|log| - 1].edits) else rest
  }

  function Writes(log: seq<Deed>): nat {
    if log == [] then 0 else Writes(log[..|log| - 1]) + (if log[|log| - 1].Wrote? then 1 else 0)
  }

  /** Deed i, if it is the installer's, is the next operation, and its target was then exactly what the
      operation says it was before. */
  ghost predicate Careful(files: Files, log: seq<Deed>, ops: seq<Operation>, i: nat)
    requires i < |log|
  {
    log[i].Wrote? ==>
      var k := Writes(log[..i]);
      && k < |ops| && log[i] == Wrote(ops[k].path, ops[k].before, ops[k].after)
      && Finds(Replay(files, log[..i]), ops[k].path, ops[k].before)
  }

  /** The log accounts for the files: it starts with the user's edits during the downloads, and all that
      the installer did was carry out operations carefully, in order. */
  ghost predicate Accounts(files: Files, log: seq<Deed>, ops: seq<Operation>, now: Files) {
    && log != [] && log[0].UserDid? && now == Replay(files, log)
    && forall i | 0 <= i < |log| :: Careful(files, log, ops, i)
  }

  predicate NoEdits(log: seq<Deed>) {
    forall i | 0 <= i < |log| && log[i].UserDid? :: log[i].edits == map[]
  }

  /** What the user had done when the downloads were over. */
  function Rechecked(files: Files, log: seq<Deed>): Files
    requires log != []
  {
    Replay(files, log[..1])
  }

  /** At some moment an operation that was still to be done did not find what it was planned for. */
  ghost predicate Disturbed(files: Files, log: seq<Deed>, ops: seq<Operation>) {
    exists n, i | 1 <= n <= |log| && Writes(log[..n]) <= i < |ops| ::
      !Finds(Replay(files, log[..n]), ops[i].path, ops[i].before)
  }

  lemma UserDeed(files: Files, log: seq<Deed>, ops: seq<Operation>, now: Files, edits: Edits)
    requires Accounts(files, log, ops, now)
    ensures var more := log + [UserDid(edits)];
            && Accounts(files, more, ops, Edited(now, edits)) && Writes(more) == Writes(log)
            && Rechecked(files, more) == Rechecked(files, log)
  {
    var more := log + [UserDid(edits)];
    assert more[..|log|] == log && more[..1] == log[..1];
    forall i | 0 <= i < |more| ensures Careful(files, more, ops, i) {
      if i < |log| {
        assert more[..i] == log[..i];
        assert Careful(files, log, ops, i);
      }
    }
  }

  lemma WriteDeed(files: Files, log: seq<Deed>, ops: seq<Operation>, now: Files, k: nat)
    requires Accounts(files, log, ops, now) && k == Writes(log) < |ops| && Finds(now, ops[k].path, ops[k].before)
    ensures var more := log + [Wrote(ops[k].path, ops[k].before, ops[k].after)];
            && Accounts(files, more, ops, Put(now, ops[k].path, ops[k].after)) && Writes(more) == k + 1
            && Rechecked(files, more) == Rechecked(files, log)
  {
    var more := log + [Wrote(ops[k].path, ops[k].before, ops[k].after)];
    assert more[..|log|] == log && more[..1] == log[..1];
    forall i | 0 <= i < |more| ensures Careful(files, more, ops, i) {
      if i < |log| {
        assert more[..i] == log[..i];
        assert Careful(files, log, ops, i);
      }
    }
  }

  /** An operation that comes right after a turn of the user finds what the user left. */
  lemma LastTurnStands(files: Files, log: seq<Deed>, ops: seq<Operation>, x: nat)
    requires x + 1 < |log| && log[x].UserDid? && log[x + 1].Wrote? && Careful(files, log, ops, x + 1)
    ensures log[x + 1].path in log[x].edits ==> log[x].edits[log[x + 1].path] == log[x + 1].was
  {
    assert log[..x + 1][..x] == log[..x];
    assert Replay(files, log[..x + 1]) == Edited(Replay(files, log[..x]), log[x].edits);
  }

  lemma SameStart(files: Files, log: seq<Deed>, more: seq<Deed>)
    requires log != [] && log <= more
    ensures Rechecked(files, more) == Rechecked(files, log)
  {
    assert more[..1] == log[..1];
  }

  lemma DisturbedNow(files: Files, log: seq<Deed>, ops: seq<Operation>, i: nat)
    requires log != [] && Writes(log) <= i < |ops| && !Finds(Replay(files, log), ops[i].path, ops[i].before)
    ensures Disturbed(files, log, ops)
  {
    assert log[..|log|] == log;
  }

  lemma StaysDisturbed(files: Files, log: seq<Deed>, ops: seq<Operation>, x: Deed)
    requires Disturbed(files, log, ops)
    ensures Disturbed(files, log + [x], ops)
  {
    var n, i :| 1 <= n <= |log| && Writes(log[..n]) <= i < |ops|
                && !Finds(Replay(files, log[..n]), ops[i].path, ops[i].before);
    assert (log + [x])[..n] == log[..n];
  }

  // ---------------------------------------------------------------- one attempt

  ghost predicate Accepted(d: Disk, q: Request) {
    var plan := PlanOf(q.manifest, d.receipt, d.files);
    && d.journal.None? && Plannable(q.manifest, d.receipt, d.files)
    && (q.expected.Some? ==> plan == q.expected.value)
    && (plan.conflicts == [] || q.replaceModified)
  }

  function TransactionOf(d: Disk, q: Request, id: nat): Transaction {
    Transaction(id, OpsOf(PlanOf(q.manifest, d.receipt, d.files)))
  }

  /** What is checked before anything is downloaded. */
  ghost predicate Installable(d: Disk, q: Request, id: nat) {
    ValidReceipt(d.receipt) && Accepted(d, q) && ValidTransaction(TransactionOf(d, q, id))
  }

  lemma InstallableIf(d: Disk, q: Request, id: nat, plan: Plan)
    requires d.journal.None? && Plannable(q.manifest, d.receipt, d.files) && ValidReceipt(d.receipt)
    requires plan == PlanOf(q.manifest, d.receipt, d.files)
    ensures Installable(d, q, id) <==>
              && (q.expected.Some? ==> plan == q.expected.value) && (plan.conflicts == [] || q.replaceModified)
              && ValidTransaction(Transaction(id, OpsOf(plan)))
  {
  }

  /** Nothing is known under this transaction id yet. */
  ghost predicate Unused(d: Disk, id: nat) {
    && (forall k | k in d.backups || k in d.downloads :: k.0 != id)
    && (d.receipt.Some? ==> d.receipt.value.transactionId != id)
  }

  ghost predicate OthersKept<V>(a: map<(nat, nat), V>, b: map<(nat, nat), V>, id: nat) {
    forall k: (nat, nat) | k.0 != id :: (k in a <==> k in b) && (k in a ==> a[k] == b[k])
  }

  /** How far an attempt has come. */
  datatype Stage = Preparing | Applying | Received

  /** The disk at some stage, before any failure handling. From Applying on, everything has been checked
      and backed up; Received is the commit. */
  ghost predicate Reached(d: Disk, plan: Plan, tx: Transaction, m: Manifest, log: seq<Deed>, stage: Stage, mid: Disk) {
    && Accounts(d.files, log, tx.ops, mid.files)
    && OthersKept(d.backups, mid.backups, tx.id) && OthersKept(d.downloads, mid.downloads, tx.id)
    && (stage != Preparing ==> BackedUp(tx, mid.backups) && StillPlanned(plan, Rechecked(d.files, log)))
    && match stage
       case Preparing => mid.journal.None? && mid.receipt == d.receipt && Writes(log) == 0
       case Applying => mid.journal == Some(tx) && mid.receipt == d.receipt
       case Received =>
         mid.receipt == Some(Receipt(tx.id, m)) && Writes(log) == |tx.ops| && mid.journal in {None, Some(tx)}
  }

  lemma StillApplying(d: Disk, plan: Plan, tx: Transaction, m: Manifest, former: seq<Deed>, before: Disk,
                      log: seq<Deed>, mid: Disk)
    requires Reached(d, plan, tx, m, former, Applying, before) && mid == before.(files := mid.files)
    requires Accounts(d.files, log, tx.ops, mid.files) && Rechecked(d.files, log) == Rechecked(d.files, former)
    ensures Reached(d, plan, tx, m, log, Applying, mid)
  {
  }

  lemma NowReceived(d: Disk, plan: Plan, tx: Transaction, m: Manifest, log: seq<Deed>, before: Disk, mid: Disk)
    requires Reached(d, plan, tx, m, log, Applying, before) && Writes(log) == |tx.ops|
    requires mid == before.(receipt := Some(Receipt(tx.id, m)), journal := mid.journal)
    requires mid.journal in {None, before.journal}
    ensures Reached(d, plan, tx, m, log, Received, mid)
  {
  }

  /** Why an attempt stops: for a reason outside, or because the user changed something it looked at. */
  ghost predicate Reasoned(d: Disk, plan: Plan, tx: Transaction, log: seq<Deed>, why: Stop)
    requires log != []
  {
    || External(why)
    || (why == Raised(Refused) && (!StillPlanned(plan, Rechecked(d.files, log)) || Disturbed(d.files, log, tx.ops)))
  }

  /** The failure handler runs the recovery, and lets the exception through or raises that of the
      recovery. */
  ghost predicate Handled(mid: Disk, why: Stop, o: Outcome, d': Disk) {
    exists r :: RecoverRel(mid, r, d') && o == if r.Stopped? then Failed(r.why, true) else Failed(why, false)
  }

  /** How an attempt that has reached a stage ends: it is done; or it fails without a journal; or with
      one, where a crash leaves everything and an exception is handled. */
  ghost predicate Ends(tx: Transaction, stage: Stage, mid: Disk, why: Stop, o: Outcome, d': Disk) {
    if stage == Received && mid.journal.None? then o == Installed(|tx.ops|) && d' == mid
    else if stage == Preparing || why == Crash then o == Failed(why, false) && d' == mid
    else Handled(mid, why, o, d')
  }

  ghost predicate Attempt(d: Disk, plan: Plan, tx: Transaction, m: Manifest, log: seq<Deed>, o: Outcome, d': Disk) {
    exists stage, mid, why ::
      Reached(d, plan, tx, m, log, stage, mid) && Reasoned(d, plan, tx, log, why) && Ends(tx, stage, mid, why, o, d')
  }

  lemma AttemptEnds(d: Disk, plan: Plan, tx: Transaction, m: Manifest, log: seq<Deed>, stage: Stage, mid: Disk,
                    why: Stop, o: Outcome, d': Disk)
    requires Reached(d, plan, tx, m, log, stage, mid) && Reasoned(d, plan, tx, log, why)
    requires Ends(tx, stage, mid, why, o, d')
    ensures Attempt(d, plan, tx, m, log, o, d')
  {
  }

  /** The possible results of an accepted installation started on a disk without journal. */
  ghost predicate AttemptRel(d: Disk, q: Request, id: nat, log: seq<Deed>, o: Outcome, d': Disk) {
    && ValidTransaction(TransactionOf(d, q, id))
    && Attempt(d, PlanOf(q.manifest, d.receipt, d.files), TransactionOf(d, q, id), q.manifest, log, o, d')
  }

  ghost predicate AfterRecovery(d: Disk, r: Recovery, q: Request, id: nat, log: seq<Deed>, o: Outcome, d': Disk) {
    if r.Stopped? then log == [] && o == Failed(r.why, false) && d' == d
    else
      || (&& log == [] && o.Failed? && !o.handlerFailed && d' == d
          && (External(o.why) || !Installable(d, q, id)))
      || (Accepted(d, q) && AttemptRel(d, q, id, log, o, d'))
  }

  ghost predicate InstallRel(d: Disk, q: Request, id: nat, log: seq<Deed>, o: Outcome, d': Disk) {
    || (&& log == [] && o.Failed? && !o.handlerFailed && d' == d
        && (External(o.why) || !ValidManifest(q.manifest)))
    || (exists r, d1 :: RecoverRel(d, r, d1) && AfterRecovery(d1, r, q, id, log, o, d'))
  }

  function Stored<K, V>(m: map<K, V>, k: K): Option<V> {
    if k in m then Some(m[k]) else None
  }
}
