/** The read-only installation plan (mc_manager/launcher/client.py). */
module Planner {
  import opened Optional
  import opened PackModels
  import opened ReleaseRules

  datatype Action = Download | Keep | Replace

  datatype FileItem = FileItem(entry: PackFile, action: Action, before: Option<Stamp>, conflict: bool)

  datatype Removal = Removal(path: Path, before: Stamp, conflict: bool)

  datatype Plan = Plan(profileId: string, version: string, runtime: Runtime, memoryMb: nat,
                       serverAddress: Option<string>,
                       files: seq<FileItem>, removals: seq<Removal>, conflicts: seq<Path>, downloadBytes: nat)

  datatype Receipt = Receipt(transactionId: nat, manifest: Manifest)

  datatype PlanError = NeedsRecovery | OtherProfile | ChangedRelease | CaseRename
    | InvalidManifest | NotAFile | StrayFolder

  datatype PlanResult = Planned(plan: Plan) | Rejected(error: PlanError)

  function Previous(receipt: Option<Receipt>): seq<PackFile> {
    if receipt.Some? then receipt.value.manifest.files else []
  }

  // ---------------------------------------------------------------- what a plan says

  function PlanItem(entry: PackFile, prior: seq<PackFile>, files: Files): FileItem {
    var before := At(files, entry.path);
    var action := if before.None? then Download else if before == Some(entry.stamp) then Keep else Replace;
    var mine := Entry(prior, Fold(entry.path));
    var mineStamp := if mine.Some? then Some(mine.value.stamp) else None;
    FileItem(entry, action, before, action == Replace && before != mineStamp)
  }

  function PlanItems(entries: seq<PackFile>, prior: seq<PackFile>, files: Files): (items: seq<FileItem>)
    ensures |items| == |entries|
    ensures forall i | 0 <= i < |entries| :: items[i] == PlanItem(entries[i], prior, files)
  {
    if entries == [] then [] else
      PlanItems(entries[..|entries| - 1], prior, files) + [PlanItem(entries[|entries| - 1], prior, files)]
  }

  predicate Dropped(f: PackFile, entries: seq<PackFile>, files: Files) {
    Entry(entries, Fold(f.path)).None? && f.path in files
  }

  /** The files of the old release that the new one drops and that are still on disk. */
  function PlanRemovals(prior: seq<PackFile>, entries: seq<PackFile>, files: Files): (removals: seq<Removal>) {
    if prior == [] then [] else
      var f := prior[|prior| - 1];
      var rest := PlanRemovals(prior[..|prior| - 1], entries, files);
      if Dropped(f, entries, files) then rest + [Removal(f.path, files[f.path], files[f.path] != f.stamp)] else rest
  }

  function Conflicts(items: seq<FileItem>, removals: seq<Removal>): seq<Path> {
    ItemConflicts(items) + RemovalConflicts(removals)
  }

  function ItemConflicts(items: seq<FileItem>): seq<Path> {
    if items == [] then [] else
      var rest := ItemConflicts(items[..|items| - 1]);
      if items[|items| - 1].conflict then rest + [items[|items| - 1].entry.path] else rest
  }

  function RemovalConflicts(removals: seq<Removal>): seq<Path> {
    if removals == [] then [] else
      var rest := RemovalConflicts(removals[..|removals| - 1]);
      if removals[|removals| - 1].conflict then rest + [removals[|removals| - 1].path] else rest
  }

  function DownloadBytes(items: seq<FileItem>): nat {
    if items == [] then 0 else
      DownloadBytes(items[..|items| - 1])
      + (if items[|items| - 1].action == Keep then 0 else items[|items| - 1].entry.stamp.size)
  }

  function PlanOf(m: Manifest, receipt: Option<Receipt>, files: Files): Plan {
    var items := PlanItems(m.files, Previous(receipt), files);
    var removals := PlanRemovals(Previous(receipt), m.files, files);
    Plan(m.profileId, m.version, m.runtime, m.memoryMb, m.serverAddress,
         items, removals, Conflicts(items, removals), DownloadBytes(items))
  }

  predicate RenamesCase(entries: seq<PackFile>, prior: seq<PackFile>) {
    exists f | f in entries :: OtherCase(f, prior)
  }

  predicate OtherCase(f: PackFile, prior: seq<PackFile>) {
    var mine := Entry(prior, Fold(f.path));
    mine.Some? && mine.value.path != f.path
  }

  /** The paths the planner looks at: those of the release, and those of the old release it drops. */
  predicate LooksAt(p: Path, entries: seq<PackFile>, prior: seq<PackFile>) {
    (exists f | f in entries :: f.path == p)
    || (exists f | f in prior :: f.path == p && Entry(entries, Fold(f.path)).None?)
  }

  /** No file lies above or below a path the planner looks at. */
  ghost predicate AllUsable(entries: seq<PackFile>, prior: seq<PackFile>, files: Files) {
    forall p | LooksAt(p, entries, prior) :: Usable(files, p)
  }

  /** A folder without files, for folders above files follow from those, stands where the planner
      looks for a file. */
  ghost predicate FolderInTheWay(entries: seq<PackFile>, prior: seq<PackFile>, folders: set<Path>) {
    exists p | p in folders :: LooksAt(p, entries, prior)
  }

  /** The releases a plan is made for at all. */
  ghost predicate Plannable(m: Manifest, receipt: Option<Receipt>, files: Files) {
    && ValidManifest(m)
    && (receipt.Some? ==>
          && receipt.value.manifest.profileId == m.profileId
          && (receipt.value.manifest.version == m.version ==> receipt.value.manifest == m))
    && !RenamesCase(m.files, Previous(receipt))
    && AllUsable(m.files, Previous(receipt), files)
  }

  // ---------------------------------------------------------------- what that means

  /** One file of the release: fetched if it is absent, kept if it is there as released, and replaced
      otherwise; a replaced file is a conflict unless the old release had put it there. */
  ghost predicate ItemMeans(x: FileItem, entry: PackFile, prior: seq<PackFile>, disk: Files) {
    var there := entry.path in disk;
    && x.entry == entry && x.before == (if there then Some(disk[entry.path]) else None)
    && (x.action == Download <==> !there)
    && (x.action == Keep <==> there && disk[entry.path] == entry.stamp)
    && (x.action == Replace <==> there && disk[entry.path] != entry.stamp)
    && (x.conflict <==>
          && there && disk[entry.path] != entry.stamp
          && !exists g | g in prior :: SamePath(g.path, entry.path) && g.stamp == disk[entry.path])
  }

  /** One file of the old release: removed if the new one does not list it and it is there, and a conflict
      if it is not as it was released. */
  ghost predicate RemovalMeans(x: Removal, entries: seq<PackFile>, prior: seq<PackFile>, disk: Files) {
    exists f | f in prior ::
      && !Listed(entries, f.path) && f.path in disk
      && x.path == f.path && x.before == disk[f.path] && (x.conflict <==> disk[f.path] != f.stamp)
  }

  ghost predicate PlanMeans(m: Manifest, prior: seq<PackFile>, disk: Files, plan: Plan) {
    && plan.profileId == m.profileId && plan.version == m.version && plan.runtime == m.runtime
    && plan.memoryMb == m.memoryMb && plan.serverAddress == m.serverAddress
    && |plan.files| == |m.files|
    && (forall i | 0 <= i < |m.files| :: ItemMeans(plan.files[i], m.files[i], prior, disk))
    && (forall x :: x in plan.removals <==> RemovalMeans(x, m.files, prior, disk))
    && (forall p :: p in plan.conflicts <==>
          || (exists x | x in plan.files :: x.conflict && x.entry.path == p)
          || (exists x | x in plan.removals :: x.conflict && x.path == p))
  }

  lemma ItemIsMeant(entry: PackFile, prior: seq<PackFile>, disk: Files)
    requires Compatible(PathsOf(prior))
    ensures ItemMeans(PlanItem(entry, prior, disk), entry, prior, disk)
  {
    EntryListed(prior, entry.path);
    PathsApart(prior);
    forall g | g in prior && SamePath(g.path, entry.path) ensures Entry(prior, Fold(entry.path)) == Some(g) {
      PathsFold(g.path, entry.path);
      EntryIsUnique(prior, g);
    }
  }

  lemma RemovalsMeant(prior: seq<PackFile>, entries: seq<PackFile>, disk: Files, x: Removal)
    ensures x in PlanRemovals(prior, entries, disk) <==> RemovalMeans(x, entries, prior, disk)
  {
    RemovalIsDropped(prior, entries, disk, x);
    forall f | f in prior ensures Entry(entries, Fold(f.path)).None? <==> !Listed(entries, f.path) {
      EntryListed(entries, f.path);
    }
  }

  lemma {:induction false} ItemConflictsMeant(items: seq<FileItem>, p: Path)
    ensures p in ItemConflicts(items) <==> exists x | x in items :: x.conflict && x.entry.path == p
  {
    if items != [] {
      ItemConflictsMeant(items[..|items| - 1], p);
      assert items == items[..|items| - 1] + [items[|items| - 1]];
    }
  }

  lemma {:induction false} RemovalConflictsMeant(removals: seq<Removal>, p: Path)
    ensures p in RemovalConflicts(removals) <==> exists x | x in removals :: x.conflict && x.path == p
  {
    if removals != [] {
      RemovalConflictsMeant(removals[..|removals| - 1], p);
      assert removals == removals[..|removals| - 1] + [removals[|removals| - 1]];
    }
  }

  /** A plan says exactly this. */
  lemma PlanIsMeant(m: Manifest, receipt: Option<Receipt>, disk: Files)
    requires Compatible(PathsOf(Previous(receipt)))
    ensures PlanMeans(m, Previous(receipt), disk, PlanOf(m, receipt, disk))
  {
    var plan := PlanOf(m, receipt, disk);
    forall i | 0 <= i < |m.files| ensures ItemMeans(plan.files[i], m.files[i], Previous(receipt), disk) {
      ItemIsMeant(m.files[i], Previous(receipt), disk);
    }
    forall x ensures x in plan.removals <==> RemovalMeans(x, m.files, Previous(receipt), disk) {
      RemovalsMeant(Previous(receipt), m.files, disk, x);
    }
    forall p ensures p in plan.conflicts <==>
                     || (exists x | x in plan.files :: x.conflict && x.entry.path == p)
                     || (exists x | x in plan.removals :: x.conflict && x.path == p) {
      ItemConflictsMeant(plan.files, p);
      RemovalConflictsMeant(plan.removals, p);
    }
  }

  /** And the bytes to download add up from the other end: those of the files that are not kept. */
  lemma {:induction false} DownloadsAddUp(items: seq<FileItem>)
    ensures DownloadBytes(items) == if items == [] then 0
                                    else (if items[0].action == Keep then 0 else items[0].entry.stamp.size)
                                         + DownloadBytes(items[1..])
  {
    if |items| > 1 {
      DownloadsAddUp(items[..|items| - 1]);
      assert items[1..][..|items| - 2] == items[..|items| - 1][1..];
    } else if |items| == 1 {
      assert items[..0] == [] && items[1..] == [];
    }
  }

  /** A regular file can stand at p, and everything above it is a folder. */
  ghost predicate RoomFor(p: Path, disk: Files) {
    forall q | q in disk :: !(p < q) && !(q < p)
  }

  /** What a release needs to be planned at all, on a disk with this receipt. */
  ghost predicate Eligible(m: Manifest, receipt: Option<Receipt>, disk: Files) {
    && GoodRelease(m)
    && (receipt.Some? ==> receipt.value.manifest.profileId == m.profileId)
    && (receipt.Some? && receipt.value.manifest.version == m.version ==> receipt.value.manifest == m)
    && (forall f, g | f in m.files && g in Previous(receipt) && SamePath(f.path, g.path) :: f.path == g.path)
    && (forall f | f in m.files :: RoomFor(f.path, disk))
    && (forall g | g in Previous(receipt) && !Listed(m.files, g.path) :: RoomFor(g.path, disk))
  }

  lemma SameSpelling(entries: seq<PackFile>, prior: seq<PackFile>)
    requires Compatible(PathsOf(prior))
    ensures RenamesCase(entries, prior) <==>
              exists f, g | f in entries && g in prior :: SamePath(f.path, g.path) && f.path != g.path
  {
    forall f, g | f in entries && g in prior && SamePath(f.path, g.path) && f.path != g.path
      ensures OtherCase(f, prior)
    {
      PathsFold(f.path, g.path);
      EntryIsUnique(prior, g);
    }
    if f :| f in entries && OtherCase(f, prior) {
      EntryListed(prior, f.path);
      PathsFold(f.path, Entry(prior, Fold(f.path)).value.path);
    }
  }

  lemma RoomEverywhere(entries: seq<PackFile>, prior: seq<PackFile>, disk: Files)
    ensures AllUsable(entries, prior, disk) <==>
              && (forall f | f in entries :: RoomFor(f.path, disk))
              && (forall g | g in prior && !Listed(entries, g.path) :: RoomFor(g.path, disk))
  {
    forall g | g in prior ensures Entry(entries, Fold(g.path)).None? <==> !Listed(entries, g.path) {
      EntryListed(entries, g.path);
    }
    forall p ensures Usable(disk, p) <==> RoomFor(p, disk) {
    }
    if AllUsable(entries, prior, disk) {
      forall f | f in entries ensures RoomFor(f.path, disk) { assert LooksAt(f.path, entries, prior); }
      forall g | g in prior && !Listed(entries, g.path) ensures RoomFor(g.path, disk) {
        assert LooksAt(g.path, entries, prior);
      }
    }
  }

  /** The releases that are planned are exactly the eligible ones. */
  lemma PlannableIsEligible(m: Manifest, receipt: Option<Receipt>, disk: Files)
    requires Compatible(PathsOf(Previous(receipt)))
    ensures Plannable(m, receipt, disk) <==> Eligible(m, receipt, disk)
  {
    ValidIsGood(m);
    SameSpelling(m.files, Previous(receipt));
    RoomEverywhere(m.files, Previous(receipt), disk);
  }

  // ---------------------------------------------------------------- the planner

  /** Nothing is planned but an eligible release, on an instance that needs no recovery, and the plan says
      what it means. */
  method PlanInstallation(m: Manifest, journalExists: bool, receipt: Option<Receipt>, disk: Files, folders: set<Path>)
    returns (r: PlanResult)
    ensures r.Planned? <==> !journalExists && Plannable(m, receipt, disk)
                            && !FolderInTheWay(m.files, Previous(receipt), folders)
    ensures r.Planned? ==> r.plan == PlanOf(m, receipt, disk)
    ensures r.Rejected? && r.error != StrayFolder ==> journalExists || !Plannable(m, receipt, disk)
    ensures r.Rejected? && folders == {} ==> r.error != StrayFolder
    ensures r == Rejected(InvalidManifest) <==> !GoodRelease(m)
    ensures r == Rejected(NeedsRecovery) <==> GoodRelease(m) && journalExists
    ensures r == Rejected(OtherProfile) <==>
              GoodRelease(m) && !journalExists && receipt.Some? && receipt.value.manifest.profileId != m.profileId
    ensures r == Rejected(ChangedRelease) <==>
              && GoodRelease(m) && !journalExists && receipt.Some? && receipt.value.manifest.profileId == m.profileId
              && receipt.value.manifest.version == m.version && receipt.value.manifest != m
    ensures Compatible(PathsOf(Previous(receipt))) && r.Planned? ==>
              Eligible(m, receipt, disk) && PlanMeans(m, Previous(receipt), disk, r.plan)
    ensures Compatible(PathsOf(Previous(receipt))) && folders == {} ==>
              (r.Planned? <==> !journalExists && Eligible(m, receipt, disk))
  {
    ValidIsGood(m);
    if Compatible(PathsOf(Previous(receipt))) {
      PlannableIsEligible(m, receipt, disk);
      PlanIsMeant(m, receipt, disk);
    }
    if !ValidManifest(m) { return Rejected(InvalidManifest); }
    if journalExists { return Rejected(NeedsRecovery); }
    if receipt.Some? && receipt.value.manifest.profileId != m.profileId { return Rejected(OtherProfile); }
    if receipt.Some? && receipt.value.manifest.version == m.version && receipt.value.manifest != m {
      return Rejected(ChangedRelease);
    }
    var previous := Previous(receipt);
    LooksFine(m.files, previous, disk, folders);
    var error, items, conflicts, bytes := CheckFiles(m.files, previous, disk, folders);
    if error.Some? { return Rejected(error.value); }
    var removals, removalConflicts;
    error, removals, removalConflicts := CheckRemovals(previous, m.files, disk, folders);
    if error.Some? { return Rejected(error.value); }
    r := Planned(Plan(m.profileId, m.version, m.runtime, m.memoryMb, m.serverAddress,
                      items, removals, conflicts + removalConflicts, bytes));
  }

  /** What `safe_target` and `fingerprint` refuse of one path. */
  function Look(p: Path, disk: Files, folders: set<Path>): (error: Option<PlanError>)
    ensures error.None? <==> Usable(disk, p) && p !in folders
    ensures error == Some(NotAFile) ==> !Usable(disk, p)
    ensures error in {None, Some(NotAFile), Some(StrayFolder)} && (folders == {} ==> error != Some(StrayFolder))
  {
    if !Usable(disk, p) then Some(NotAFile) else if p in folders then Some(StrayFolder) else None
  }

  ghost predicate FilesFine(entries: seq<PackFile>, prior: seq<PackFile>, disk: Files, folders: set<Path>) {
    forall f | f in entries :: !OtherCase(f, prior) && Look(f.path, disk, folders).None?
  }

  ghost predicate DroppedFine(prior: seq<PackFile>, entries: seq<PackFile>, disk: Files, folders: set<Path>) {
    forall f | f in prior && Entry(entries, Fold(f.path)).None? :: Look(f.path, disk, folders).None?
  }

  /** Looking at the files one by one finds what looking at the paths does. */
  lemma LooksFine(entries: seq<PackFile>, prior: seq<PackFile>, disk: Files, folders: set<Path>)
    ensures FilesFine(entries, prior, disk, folders) && DroppedFine(prior, entries, disk, folders)
       <==> !RenamesCase(entries, prior) && AllUsable(entries, prior, disk) && !FolderInTheWay(entries, prior, folders)
  {
    if FilesFine(entries, prior, disk, folders) && DroppedFine(prior, entries, disk, folders) {
      forall p | LooksAt(p, entries, prior) ensures Look(p, disk, folders).None? {
      }
    }
    if !RenamesCase(entries, prior) && AllUsable(entries, prior, disk) && !FolderInTheWay(entries, prior, folders) {
      forall f | f in entries ensures Look(f.path, disk, folders).None? {
        assert LooksAt(f.path, entries, prior);
      }
      forall f | f in prior && Entry(entries, Fold(f.path)).None? ensures Look(f.path, disk, folders).None? {
        assert LooksAt(f.path, entries, prior);
      }
    }
  }

  lemma ItemsOneMore(entries: seq<PackFile>, i: nat, prior: seq<PackFile>, files: Files, items: seq<FileItem>)
    requires i < |entries| && items == PlanItems(entries[..i], prior, files)
    ensures var x := PlanItem(entries[i], prior, files);
            && PlanItems(entries[..i + 1], prior, files) == items + [x]
            && ItemConflicts(items + [x]) == ItemConflicts(items) + (if x.conflict then [x.entry.path] else [])
            && DownloadBytes(items + [x]) == DownloadBytes(items) + (if x.action == Keep then 0 else x.entry.stamp.size)
  {
    var x := PlanItem(entries[i], prior, files);
    assert entries[..i + 1][..i] == entries[..i];
    assert (items + [x])[..i] == items;
  }

  /** The loop over the release's own files. It stops at the first that differs only in case from an
      old one, that lies above or below a file, or at whose path a folder stands. */
  method CheckFiles(entries: seq<PackFile>, previous: seq<PackFile>, disk: Files, folders: set<Path>)
    returns (error: Option<PlanError>, items: seq<FileItem>, conflicts: seq<Path>, bytes: nat)
    ensures error.None? <==> FilesFine(entries, previous, disk, folders)
    ensures error.Some? && error.value != StrayFolder ==>
              RenamesCase(entries, previous) || !AllUsable(entries, previous, disk)
    ensures error in {None, Some(CaseRename), Some(NotAFile), Some(StrayFolder)}
    ensures folders == {} ==> error != Some(StrayFolder)
    ensures error.None? ==> items == PlanItems(entries, previous, disk)
    ensures error.None? ==> conflicts == ItemConflicts(items) && bytes == DownloadBytes(items)
  {
    items, conflicts, bytes := [], [], 0;
    for i := 0 to |entries|
      invariant items == PlanItems(entries[..i], previous, disk)
      invariant conflicts == ItemConflicts(items) && bytes == DownloadBytes(items)
      invariant FilesFine(entries[..i], previous, disk, folders)
    {
      FineOneMore(entries, i, previous, disk, folders);
      ItemsOneMore(entries, i, previous, disk, items);
      var item;
      error, item := CheckFile(entries[i], previous, disk, folders);
      if error.Some? {
        StoppedAt(entries, i, previous, disk);
        return;
      }
      items := items + [item];
      if item.conflict { conflicts := conflicts + [item.entry.path]; }
      if item.action != Keep { bytes := bytes + item.entry.stamp.size; }
    }
    assert entries[..|entries|] == entries;
    error := None;
  }

  lemma FineOneMore(entries: seq<PackFile>, i: nat, previous: seq<PackFile>, disk: Files, folders: set<Path>)
    requires i < |entries|
    ensures FilesFine(entries[..i + 1], previous, disk, folders)
       <==> FilesFine(entries[..i], previous, disk, folders)
            && !OtherCase(entries[i], previous) && Look(entries[i].path, disk, folders).None?
    ensures FilesFine(entries, previous, disk, folders) ==>
              !OtherCase(entries[i], previous) && Look(entries[i].path, disk, folders).None?
  {
    assert entries[..i + 1] == entries[..i] + [entries[i]];
  }

  lemma StoppedAt(entries: seq<PackFile>, i: nat, previous: seq<PackFile>, disk: Files)
    requires i < |entries|
    ensures OtherCase(entries[i], previous) ==> RenamesCase(entries, previous)
    ensures !Usable(disk, entries[i].path) ==> !AllUsable(entries, previous, disk)
  {
    assert LooksAt(entries[i].path, entries, previous);
  }

  /** One turn of that loop. */
  method CheckFile(entry: PackFile, previous: seq<PackFile>, disk: Files, folders: set<Path>)
    returns (error: Option<PlanError>, item: FileItem)
    ensures error.None? <==> !OtherCase(entry, previous) && Look(entry.path, disk, folders).None?
    ensures error.Some? && error.value != StrayFolder ==> OtherCase(entry, previous) || !Usable(disk, entry.path)
    ensures error in {None, Some(CaseRename), Some(NotAFile), Some(StrayFolder)}
    ensures folders == {} ==> error != Some(StrayFolder)
    ensures item == PlanItem(entry, previous, disk)
    ensures Compatible(PathsOf(previous)) ==> ItemMeans(item, entry, previous, disk)
  {
    if Compatible(PathsOf(previous)) { ItemIsMeant(entry, previous, disk); }
    var mine := Entry(previous, Fold(entry.path));
    error := if mine.Some? && mine.value.path != entry.path then Some(CaseRename) else Look(entry.path, disk, folders);
    var before := At(disk, entry.path);
    var action := if before.None? then Download else if before.value == entry.stamp then Keep else Replace;
    var oldStamp := if mine.Some? then Some(mine.value.stamp) else None;
    item := FileItem(entry, action, before, action == Replace && before != oldStamp);
  }

  /** The loop over the files of the previous release. */
  method CheckRemovals(previous: seq<PackFile>, entries: seq<PackFile>, disk: Files, folders: set<Path>)
    returns (error: Option<PlanError>, removals: seq<Removal>, conflicts: seq<Path>)
    ensures error.None? <==> DroppedFine(previous, entries, disk, folders)
    ensures error.Some? && error.value != StrayFolder ==> !AllUsable(entries, previous, disk)
    ensures error in {None, Some(NotAFile), Some(StrayFolder)}
    ensures folders == {} ==> error != Some(StrayFolder)
    ensures error.None? ==> removals == PlanRemovals(previous, entries, disk) && conflicts == RemovalConflicts(removals)
  {
    removals, conflicts := [], [];
    for i := 0 to |previous|
      invariant removals == PlanRemovals(previous[..i], entries, disk)
      invariant conflicts == RemovalConflicts(removals)
      invariant forall j | 0 <= j < i && Entry(entries, Fold(previous[j].path)).None? ::
                  Look(previous[j].path, disk, folders).None?
    {
      var f := previous[i];
      assert previous[..i + 1] == previous[..i] + [f];
      if Entry(entries, Fold(f.path)).Some? { continue; }
      error := Look(f.path, disk, folders);
      assert LooksAt(f.path, entries, previous);
      if error.Some? { return; }
      if f.path in disk {
        var removal := Removal(f.path, disk[f.path], disk[f.path] != f.stamp);
        removals := removals + [removal];
        if removal.conflict { conflicts := conflicts + [f.path]; }
      }
    }
    assert previous[..|previous|] == previous;
    error := None;
  }

  // ---------------------------------------------------------------- what follows from a plan

  lemma {:induction false} RemovalIsDropped(prior: seq<PackFile>, entries: seq<PackFile>, files: Files, r: Removal)
    ensures r in PlanRemovals(prior, entries, files) <==>
            exists f | f in prior :: Dropped(f, entries, files)
                                   && r == Removal(f.path, files[f.path], files[f.path] != f.stamp)
  {
    if prior != [] {
      var init := prior[..|prior| - 1];
      RemovalIsDropped(init, entries, files, r);
      assert prior == init + [prior[|prior| - 1]];
    }
  }

  lemma {:induction false} NoItemConflict(items: seq<FileItem>, x: FileItem)
    requires ItemConflicts(items) == [] && x in items
    ensures !x.conflict
  {
    var init := items[..|items| - 1];
    assert items == init + [items[|items| - 1]];
    if x in init { NoItemConflict(init, x); }
  }

  lemma {:induction false} NoRemovalConflict(removals: seq<Removal>, x: Removal)
    requires RemovalConflicts(removals) == [] && x in removals
    ensures !x.conflict
  {
    var init := removals[..|removals| - 1];
    assert removals == init + [removals[|removals| - 1]];
    if x in init { NoRemovalConflict(init, x); }
  }
}
