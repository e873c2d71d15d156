/** The administrator's review of a candidate release (`release_changes` in
    mc_manager/launcher/store.py) and its agreement with the plan the launcher makes
    (mc_manager/launcher/client.py). */
module Review {
  import opened Optional
  import opened PackModels
  import opened ReleaseRules
  import opened Planner
  import opened Store

  datatype Changes = Changes(fromVersion: Option<string>, toVersion: string, revision: nat,
                             added: seq<Path>, changed: seq<Path>, removed: seq<Path>,
                             downloadBytes: nat, totalBytes: nat, runtimeChanged: bool)

  predicate IsAdded(f: PackFile, before: seq<PackFile>) {
    Entry(before, Fold(f.path)).None?
  }

  predicate IsChanged(f: PackFile, before: seq<PackFile>) {
    var known := Entry(before, Fold(f.path));
    known.Some? && f.stamp != known.value.stamp
  }

  function AddedFiles(after: seq<PackFile>, before: seq<PackFile>): seq<PackFile> {
    if after == [] then [] else
      var f := after[|after| - 1];
      var rest := AddedFiles(after[..|after| - 1], before);
      if IsAdded(f, before) then rest + [f] else rest
  }

  function ChangedFiles(after: seq<PackFile>, before: seq<PackFile>): seq<PackFile> {
    if after == [] then [] else
      var f := after[|after| - 1];
      var rest := ChangedFiles(after[..|after| - 1], before);
      if IsChanged(f, before) then rest + [f] else rest
  }

  function RemovedFiles(before: seq<PackFile>, after: seq<PackFile>): seq<PackFile> {
    if before == [] then [] else
      var f := before[|before| - 1];
      var rest := RemovedFiles(before[..|before| - 1], after);
      if IsAdded(f, after) then rest + [f] else rest
  }

  /** The manifest the profile's pointer names, or an empty one. */
  function ActiveFiles(t: Tables, id: string): seq<PackFile>
    requires id in t.profiles
  {
    var active := t.profiles[id].active;
    if active.Some? && (id, active.value) in t.releases then t.releases[(id, active.value)].manifest.files else []
  }

  function ReleaseChanges(t: Tables, id: string, version: string): Option<Changes> {
    if id !in t.profiles || (id, version) !in t.releases then None else
      var candidate := t.releases[(id, version)].manifest;
      var before := ActiveFiles(t, id);
      var active := t.profiles[id].active;
      var added, changed := AddedFiles(candidate.files, before), ChangedFiles(candidate.files, before);
      Some(Changes(active, version, t.profiles[id].revision, PathsOf(added), PathsOf(changed),
                   PathsOf(RemovedFiles(before, candidate.files)), TotalBytes(added + changed),
                   TotalBytes(candidate.files),
                   active.None? || (id, active.value) !in t.releases
                   || t.releases[(id, active.value)].manifest.runtime != candidate.runtime))
  }

  // ---------------------------------------------------------------- what the review says

  lemma {:induction false} AddedMean(after: seq<PackFile>, before: seq<PackFile>, f: PackFile)
    ensures f in AddedFiles(after, before) <==> f in after && !Listed(before, f.path)
  {
    if after != [] {
      var init, last := after[..|after| - 1], after[|after| - 1];
      AddedMean(init, before, f);
      EntryListed(before, last.path);
      assert after == init + [last];
    }
  }

  lemma {:induction false} RemovedMean(before: seq<PackFile>, after: seq<PackFile>, f: PackFile)
    ensures f in RemovedFiles(before, after) <==> f in before && !Listed(after, f.path)
  {
    if before != [] {
      var init, last := before[..|before| - 1], before[|before| - 1];
      RemovedMean(init, after, f);
      EntryListed(after, last.path);
      assert before == init + [last];
    }
  }

  /** A changed file is there under the same path, in whatever case, with another size or hash. */
  ghost predicate Differs(f: PackFile, before: seq<PackFile>) {
    exists g | g in before ::
      SamePath(g.path, f.path) && (g.stamp.size != f.stamp.size || g.stamp.sha256 != f.stamp.sha256)
  }

  lemma {:induction false} ChangedMean(after: seq<PackFile>, before: seq<PackFile>, f: PackFile)
    requires Compatible(PathsOf(before))
    ensures f in ChangedFiles(after, before) <==> f in after && Differs(f, before)
  {
    if after != [] {
      var init, last := after[..|after| - 1], after[|after| - 1];
      ChangedMean(init, before, f);
      ChangedIsDiffers(last, before);
      assert after == init + [last];
    }
  }

  lemma ChangedIsDiffers(f: PackFile, before: seq<PackFile>)
    requires Compatible(PathsOf(before))
    ensures IsChanged(f, before) <==> Differs(f, before)
  {
    EntryListed(before, f.path);
    forall g | g in before && SamePath(g.path, f.path) ensures Entry(before, Fold(f.path)) == Some(g) {
      PathsFold(g.path, f.path);
      EntryIsUnique(before, g);
    }
  }

  /** The release that players have now, if there is one. */
  predicate Current(t: Tables, id: string, m: Manifest)
    requires id in t.profiles
  {
    var active := t.profiles[id].active;
    active.Some? && (id, active.value) in t.releases && t.releases[(id, active.value)].manifest == m
  }

  /** A review is made of any stored release of a profile. It names the version players have and the
      candidate's, shows the revision a publication must name, the candidate's whole size, what it adds and
      removes, and whether players need another Minecraft, loader or Java. */
  lemma ReviewTells(t: Tables, id: string, version: string)
    ensures ReleaseChanges(t, id, version).Some? <==> id in t.profiles && (id, version) in t.releases
    ensures ReleaseChanges(t, id, version).Some? ==>
              var r, m := ReleaseChanges(t, id, version).value, t.releases[(id, version)].manifest;
              && r.fromVersion == t.profiles[id].active && r.toVersion == version
              && r.revision == t.profiles[id].revision && r.totalBytes == TotalBytes(m.files)
              && (!r.runtimeChanged <==>
                    exists now: Manifest :: Current(t, id, now)
                                            && now.runtime.minecraftVersion == m.runtime.minecraftVersion
                                            && now.runtime.loader == m.runtime.loader
                                            && now.runtime.javaMajor == m.runtime.javaMajor)
  {
    if id in t.profiles && (id, version) in t.releases {
      var m, active := t.releases[(id, version)].manifest, t.profiles[id].active;
      if active.Some? && (id, active.value) in t.releases {
        assert Current(t, id, t.releases[(id, active.value)].manifest);
      }
    }
  }

  /** And its lists are exactly the files that players will get anew, get changed and lose. */
  lemma ReviewLists(t: Tables, id: string, version: string, p: Path)
    requires Valid(t) && id in t.profiles && (id, version) in t.releases
    ensures var r, m := ReleaseChanges(t, id, version).value, t.releases[(id, version)].manifest;
            var before := ActiveFiles(t, id);
            && (p in r.added <==> exists f | f in m.files :: f.path == p && !Listed(before, p))
            && (p in r.changed <==> exists f | f in m.files :: f.path == p && Differs(f, before))
            && (p in r.removed <==> exists f | f in before :: f.path == p && !Listed(m.files, p))
    ensures forall now | Current(t, id, now) :: ActiveFiles(t, id) == now.files
    ensures (forall now :: !Current(t, id, now)) ==> ActiveFiles(t, id) == []
  {
    var m, before := t.releases[(id, version)].manifest, ActiveFiles(t, id);
    ActiveIsCompatible(t, id);
    forall f ensures f in AddedFiles(m.files, before) <==> f in m.files && !Listed(before, f.path) {
      AddedMean(m.files, before, f);
    }
    forall f ensures f in ChangedFiles(m.files, before) <==> f in m.files && Differs(f, before) {
      ChangedMean(m.files, before, f);
    }
    forall f ensures f in RemovedFiles(before, m.files) <==> f in before && !Listed(m.files, f.path) {
      RemovedMean(before, m.files, f);
    }
    PathIn(AddedFiles(m.files, before), p);
    PathIn(ChangedFiles(m.files, before), p);
    PathIn(RemovedFiles(before, m.files), p);
  }

  lemma ActiveIsCompatible(t: Tables, id: string)
    requires Valid(t) && id in t.profiles
    ensures Compatible(PathsOf(ActiveFiles(t, id)))
    ensures forall now | Current(t, id, now) :: ActiveFiles(t, id) == now.files
    ensures (forall now :: !Current(t, id, now)) ==> ActiveFiles(t, id) == []
  {
    var active := t.profiles[id].active;
    if active.Some? && (id, active.value) in t.releases {
      assert Current(t, id, t.releases[(id, active.value)].manifest);
    }
  }

  lemma PathIn(files: seq<PackFile>, p: Path)
    ensures p in PathsOf(files) <==> exists f | f in files :: f.path == p
  {
    if p in PathsOf(files) { ListedPath(files, p); }
    if f :| f in files && f.path == p { PathListed(files, f); }
  }

  // ---------------------------------------------------------------- the review is the plan

  /** The instance holds exactly the active release: its files with its stamps, nothing where the
      candidate would add a file, and no path the two releases spell differently. */
  ghost predicate HoldsExactly(disk: Files, before: seq<PackFile>, after: seq<PackFile>) {
    && (forall f | f in before :: At(disk, f.path) == Some(f.stamp))
    && (forall f | f in after && IsAdded(f, before) :: f.path !in disk)
    && !RenamesCase(after, before)
  }

  function Acting(items: seq<FileItem>, action: Action): seq<Path> {
    if items == [] then [] else
      var x := items[|items| - 1];
      Acting(items[..|items| - 1], action) + (if x.action == action then [x.entry.path] else [])
  }

  function RemovedPaths(removals: seq<Removal>): seq<Path> {
    seq(|removals|, i requires 0 <= i < |removals| => removals[i].path)
  }

  lemma ItemMatchesReview(f: PackFile, before: seq<PackFile>, after: seq<PackFile>, disk: Files)
    requires HoldsExactly(disk, before, after) && f in after
    ensures var x := PlanItem(f, before, disk);
            && (x.action == Download <==> IsAdded(f, before))
            && (x.action == Replace <==> IsChanged(f, before))
            && !x.conflict
  {
    var known := Entry(before, Fold(f.path));
    if known.Some? {
      assert !OtherCase(f, before);
      assert At(disk, known.value.path) == Some(known.value.stamp);
    }
  }

  lemma {:induction false} TotalAppends(a: seq<PackFile>, b: seq<PackFile>)
    ensures TotalBytes(a + b) == TotalBytes(a) + TotalBytes(b)
  {
    if a == [] {
      assert a + b == b;
    } else {
      assert (a + b)[1..] == a[1..] + b;
      TotalAppends(a[1..], b);
    }
  }

  lemma PathsAppend(files: seq<PackFile>, f: PackFile)
    ensures PathsOf(files + [f]) == PathsOf(files) + [f.path]
    ensures TotalBytes(files + [f]) == TotalBytes(files) + f.stamp.size
  {
    TotalAppends(files, [f]);
    assert TotalBytes([f]) == f.stamp.size + TotalBytes([]);
  }

  /** What one file adds to the review and to the plan. */
  lemma OneMoreFile(init: seq<PackFile>, f: PackFile, before: seq<PackFile>, after: seq<PackFile>, disk: Files)
    requires HoldsExactly(disk, before, after) && f in after
    ensures var x, items := PlanItem(f, before, disk), PlanItems(init, before, disk);
            && PlanItems(init + [f], before, disk) == items + [x]
            && ItemConflicts(items + [x]) == ItemConflicts(items)
            && Acting(items + [x], Download) == Acting(items, Download) + (if IsAdded(f, before) then [f.path] else [])
            && Acting(items + [x], Replace) == Acting(items, Replace) + (if IsChanged(f, before) then [f.path] else [])
            && DownloadBytes(items + [x])
               == DownloadBytes(items) + if IsAdded(f, before) || IsChanged(f, before) then f.stamp.size else 0
  {
    ItemMatchesReview(f, before, after, disk);
    var x, items := PlanItem(f, before, disk), PlanItems(init, before, disk);
    assert (init + [f])[..|init|] == init;
    assert (items + [x])[..|items|] == items;
  }

  lemma OneMoreAdded(init: seq<PackFile>, f: PackFile, before: seq<PackFile>)
    ensures var added, more := AddedFiles(init, before), AddedFiles(init + [f], before);
            && PathsOf(more) == PathsOf(added) + (if IsAdded(f, before) then [f.path] else [])
            && TotalBytes(more) == TotalBytes(added) + (if IsAdded(f, before) then f.stamp.size else 0)
  {
    assert (init + [f])[..|init|] == init;
    PathsAppend(AddedFiles(init, before), f);
  }

  lemma OneMoreChanged(init: seq<PackFile>, f: PackFile, before: seq<PackFile>)
    ensures var changed, more := ChangedFiles(init, before), ChangedFiles(init + [f], before);
            && PathsOf(more) == PathsOf(changed) + (if IsChanged(f, before) then [f.path] else [])
            && TotalBytes(more) == TotalBytes(changed) + (if IsChanged(f, before) then f.stamp.size else 0)
  {
    assert (init + [f])[..|init|] == init;
    PathsAppend(ChangedFiles(init, before), f);
  }

  lemma {:induction false} FilesMatchReview(part: seq<PackFile>, before: seq<PackFile>, after: seq<PackFile>,
                                          disk: Files)
    requires HoldsExactly(disk, before, after) && forall f | f in part :: f in after
    ensures var items := PlanItems(part, before, disk);
            && Acting(items, Download) == PathsOf(AddedFiles(part, before))
            && Acting(items, Replace) == PathsOf(ChangedFiles(part, before))
            && DownloadBytes(items) == TotalBytes(AddedFiles(part, before)) + TotalBytes(ChangedFiles(part, before))
            && ItemConflicts(items) == []
  {
    if part != [] {
      var init, f := part[..|part| - 1], part[|part| - 1];
      FilesMatchReview(init, before, after, disk);
      assert part == init + [f];
      OneMoreFile(init, f, before, after, disk);
      OneMoreAdded(init, f, before);
      OneMoreChanged(init, f, before);
    }
  }

  lemma {:induction false} RemovalsMatchReview(part: seq<PackFile>, before: seq<PackFile>, after: seq<PackFile>,
                                             disk: Files)
    requires HoldsExactly(disk, before, after) && forall f | f in part :: f in before
    ensures var removals := PlanRemovals(part, after, disk);
            RemovedPaths(removals) == PathsOf(RemovedFiles(part, after)) && RemovalConflicts(removals) == []
  {
    if part != [] {
      var init, f := part[..|part| - 1], part[|part| - 1];
      RemovalsMatchReview(init, before, after, disk);
      assert At(disk, f.path) == Some(f.stamp);
      PathsAppend(RemovedFiles(init, after), f);
      var rest, x := PlanRemovals(init, after, disk), Removal(f.path, f.stamp, false);
      assert (rest + [x])[..|rest|] == rest;
      assert RemovedPaths(rest + [x]) == RemovedPaths(rest) + [f.path];
    }
  }

  /** What the administrator reviewed is what a player's launcher will do: for an instance that
      holds exactly the active release, the plan for the candidate fetches the added files,
      replaces the changed ones, removes the removed ones, in the review's order, finds no
      conflict and downloads the number of bytes the review shows. If the instance's receipt carries
      the active release, the planner makes that plan exactly when no file lies above or below a path
      it looks at: the review shows a file that turns into a folder, and the planner refuses it. */
  lemma ReviewEqualsPlan(t: Tables, id: string, version: string, receipt: Option<Receipt>, disk: Files)
    requires Valid(t) && id in t.profiles && (id, version) in t.releases
    requires Previous(receipt) == ActiveFiles(t, id)
    requires HoldsExactly(disk, ActiveFiles(t, id), t.releases[(id, version)].manifest.files)
    ensures var review := ReleaseChanges(t, id, version).value;
            var plan := PlanOf(t.releases[(id, version)].manifest, receipt, disk);
            && Acting(plan.files, Download) == review.added
            && Acting(plan.files, Replace) == review.changed
            && RemovedPaths(plan.removals) == review.removed
            && plan.conflicts == []
            && plan.downloadBytes == review.downloadBytes
    ensures Carries(receipt, t, id) ==>
              var candidate := t.releases[(id, version)].manifest;
              Plannable(candidate, receipt, disk) <==> AllUsable(candidate.files, ActiveFiles(t, id), disk)
  {
    PlanMatchesReview(t.releases[(id, version)].manifest, receipt, disk, ActiveFiles(t, id));
    if Carries(receipt, t, id) { CandidateIsPlannable(t, id, version, receipt, disk); }
  }

  lemma PlanMatchesReview(m: Manifest, receipt: Option<Receipt>, disk: Files, before: seq<PackFile>)
    requires Previous(receipt) == before && HoldsExactly(disk, before, m.files)
    ensures var plan, added, changed := PlanOf(m, receipt, disk), AddedFiles(m.files, before),
               ChangedFiles(m.files, before);
            && Acting(plan.files, Download) == PathsOf(added)
            && Acting(plan.files, Replace) == PathsOf(changed)
            && RemovedPaths(plan.removals) == PathsOf(RemovedFiles(before, m.files))
            && plan.conflicts == []
            && plan.downloadBytes == TotalBytes(added + changed)
  {
    FilesMatchReview(m.files, before, m.files, disk);
    RemovalsMatchReview(before, before, m.files, disk);
    TotalAppends(AddedFiles(m.files, before), ChangedFiles(m.files, before));
  }

  /** The receipt is for the profile's active release, if it has one. */
  predicate Carries(receipt: Option<Receipt>, t: Tables, id: string)
    requires id in t.profiles
  {
    var active := t.profiles[id].active;
    if active.None? then receipt.None?
    else (id, active.value) in t.releases && receipt.Some?
         && receipt.value.manifest == t.releases[(id, active.value)].manifest
  }

  lemma CandidateIsPlannable(t: Tables, id: string, version: string, receipt: Option<Receipt>, disk: Files)
    requires RowsFit(t) && id in t.profiles && (id, version) in t.releases && Carries(receipt, t, id)
    requires !RenamesCase(t.releases[(id, version)].manifest.files, ActiveFiles(t, id))
    ensures var candidate := t.releases[(id, version)].manifest;
            Plannable(candidate, receipt, disk) <==> AllUsable(candidate.files, ActiveFiles(t, id), disk)
  {
    assert Previous(receipt) == ActiveFiles(t, id);
  }
}
