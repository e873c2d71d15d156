# Monkeycraft manager: a verified model

This project models the parts of the Minecraft server manager whose correctness is hardest to see from
any one function, and proves what they promise over all inputs and all runs. `dafny verify dfyconfig.toml`
checks everything.

**The pack installer** (`PackModels`, `ReleaseRules`, `Planner`, `Journal`, `Attempts`,
`Installer`, `Undisturbed`, `InstallTheorems`, `PlanTheorems`, `OnlyManaged`).
The launcher plans an update, downloads and rechecks it, backs up what it replaces, writes a journal,
applies the operations one by one, writes the receipt and removes the journal; a recovery routine, which
may itself be interrupted, undoes whatever was left without a receipt. `Installer.Instance` is the
instance directory, and its methods follow the code step by step. A stream of faults
decides at every file-system or network call between success, an exception and the death of the process, the
user may cancel at any time, and a stream of edits changes the managed files before every step. A log records
what the user and the installer do to them. The methods are proved equal to relations between disks, and the theorems quantify over
those: crash atomicity, no silent loss, the receipt describes the disk, nothing outside the managed folders is
touched, and which failures are possible. `ReleaseRules` writes out the rules of a release.

**The publishing store** (`Budget`, `Store`, `StoreHistory`, `Review`). Two tables changed by serialised
transactions, with immutable releases, an active version, revision checks and a byte budget; the player catalog,
proved over every run to serve what was sent; and the administrator's review of a candidate, proved to be what the
launcher will do.

**Restart and recovery automation** (`AutomationModel`, `Automation`, `AutomationTheorems`,
`AutomationProgress`). The coroutines
are cut at their awaits: a step is the code between two awaits, and replies, readings, administrator
operations, clock advances and controller restarts are events in any order. The theorems are about every run
of such steps: what never happens (`AutomationTheorems`), and what does, from every await for every answer
(`AutomationProgress`). `Automation.ServerAutomation` has the controller's fields and methods: each one that stands for
an event takes that step, keeps the invariants behind the theorems, and says what its caller may rely on.

**The NBS song** (`NbsFormat`, `NbsSong`, `NbsRoundTrip`, `NbsHearing`). The Python writer and the Java reader as
methods over dictionaries, a byte stream and an input cursor, each proved against a printing or a parsing function;
the round trip between these; and what a listener hears of a song, in numbers.

**Four smaller machines**: the radio's tick accumulator (`LobbyRadio`), the work-list folder archiver against
a recursive enumeration (`FolderArchive`), the software change with its compensation (`SoftwareChange`), and
player sessions found by polling (`PlayerMonitor`).

## What the proofs found

- A release that turns a managed file into a folder, or a folder into a file, can be reviewed and published, but
  the planner refuses it on every instance that has the old file (`PlanTheorems.NoPlanForFolderSwap`,
  `Review.ReviewEqualsPlan`). If the two spellings differ in case, a disk that tells case apart lets it be
  planned and previewed, and it is then always refused as a transaction (`PlanTheorems.RefusedOnCollision`,
  `PlanTheorems.ACollision`).
- An installation can report failure although its release is committed: exactly when the receipt is written and
  removing the journal fails (`Installer.Instance.WriteReceipt`, `Installer.Instance.Commit`). The next recovery
  keeps the release (`InstallTheorems.CommittedStays`).
- If the user edits a managed file in the middle of an installation, the failure handler can be refused: the
  operations before it stay, with the journal, and later recoveries are refused as well until that file is put
  back (`InstallTheorems.AConflict`). It happens exactly when some target is neither before nor after
  (`InstallTheorems.HandlerRefused`); nothing is lost by it (`InstallTheorems.NoSilentLoss`).
- A song is not read back exactly when its title, author or description is longer than the reader's 1,048,576
  bytes, which the writer allows; and its notes are lost exactly when one starts so little before the song that
  it rounds to tick -1, whose zero jump ends the reading (`NbsRoundTrip.RoundTrip`).
- A song of length 0 still plays its tick 0, and a gap of 0 or less still gives one silent server tick
  (`LobbyRadio.SongEnds`, `LobbyRadio.SongThenGap`).
- Administrator maintenance, unlike a stop, does not cancel a running restart. Such a restart can end the
  maintenance by seeing the server ready (`AutomationTheorems.MaintenancePauses`); and one that waits for the
  console flush still stops the server and is then refused its start, so that maintenance takes the server down
  and keeps it down (`AutomationTheorems.MaintenanceStopsServer`; no other step stops a server against the gate,
  `AutomationTheorems.CommandsAreGated`).
- After a power stop, a check that sees the server online once records a success, without asking for a second
  check or the player list, exactly when recovery after power loss is on and the power may be used
  (`AutomationTheorems.PowerReturn`); restart and resume wait for two ready checks.
- The leave grace is not always kept: after a move edit that fails, or a poll that an exception ends, a player
  who was just seen can be announced as gone. `PlayerMonitor.LeaveWithoutGrace` is such a run;
  `PlayerMonitor.LeaveGrace` says that the grace is kept exactly when no poll slipped in one of these ways, and
  so whenever the join and move edits succeed.
- When a software change fails before its backup exists and the restart of the old server fails too, the caller
  is not told that it stays down. This is the only failure, short of a reported failed rollback, that changes
  the running state (`SoftwareChange.Host.ChangeSoftware`).

## Assumptions

- The installer's transaction ids are new (the code draws them at random), so nothing is stored under them yet.
- `atomic_json`, `os.replace` and `unlink` are single steps. Files are known by size and SHA-256, and equal
  stamps mean equal contents.
- The plan id is compared as what it covers: profile, version, runtime, memory, address, files, removals, conflicts
  and download size. Its hash is taken to be injective, and the instance's own path does not change.
- The user may edit the instance at any time but between a file's last check and its copy or replacement; for a
  recovery, that is from its checks to its end. Edits in the middle of the recheck are covered by edits before and
  after it.
- Folders are those above files, and, for the planner, a set of stray ones without files below them. The installer
  itself leaves such folders when it removes the last file in one. A stray folder where a file is to go makes the
  planner refuse; in an installation it counts as a fault from outside.
- The disk tells case apart. Keys are an ASCII lower-casing of paths (`ReleaseRules.PathsFold`).
- The radio's songs are not empty, as the plugin ensures before it starts one, and their tempo is the reader's.
- Times and velocities of notes are exact reals, rounded half to even.
- A folder never lists a name twice, and does not change while it is archived.
- A running server writes its own files freely, but not the update file, which belongs to root.

## Model

| member | source | states |
|---|---|---|
| `PackModels.EntryIsUnique` | mc_manager/launcher/models.py:114-130 | in a valid release the case-insensitive key of a file leads back to that very file |
| `ReleaseRules.ValidIsGood` | mc_manager/launcher/models.py:53-130 | the contract accepts exactly the releases with at most 4096 files of at most 2 GiB each and 32 GiB together, Java 8 to 99, 512 to 65536 MB, every path of at least two parts in one of the six managed folders without empty, "." or ".." parts, no two paths the same and none above another whatever the case, and no mods under vanilla |
| `ReleaseRules.SafeIsManaged` | mc_manager/launcher/models.py:59-70 | which paths a release may name, with the six folders written out |
| `ReleaseRules.PathsFold` | mc_manager/launcher/models.py:114-121 | two paths have the same key exactly if they are the same but for the case of ASCII letters |
| `ReleaseRules.BytesAddUp` | mc_manager/launcher/models.py:128 | the size of a release is the sum of its files, counted from the other end |
| `Planner.PlanInstallation` | mc_manager/launcher/client.py:44-89 | a plan is returned exactly when there is no journal and the release is eligible: it obeys every release rule, belongs to the instance, does not change under its version, renames nothing by case alone, and no file lies above or below a path looked at (nor a stray folder at one); the plan copies profile, version, runtime, memory and address, and says of every file whether it is fetched, kept, replaced or removed, and which are conflicts |
| `Planner.CheckFiles` | mc_manager/launcher/client.py:57-67 | the loop over the release stops exactly when some file renames by case or is refused by safe_target or fingerprint; otherwise items, conflicts and bytes are those of the plan |
| `Planner.CheckFile` | mc_manager/launcher/client.py:58-67 | one file: Download if and only if it is absent, Keep if and only if it is there as released, Replace otherwise; a conflict if and only if it is replaced and the old release had not put it there |
| `Planner.PlannableIsEligible` | mc_manager/launcher/client.py:44-76 | the releases that are planned are exactly the eligible ones, in terms of paths and spellings |
| `Planner.PlanIsMeant` | mc_manager/launcher/client.py:56-83 | the meaning of every item, removal and conflict of a plan |
| `Planner.DownloadsAddUp` | mc_manager/launcher/client.py:83 | the bytes to download are those of the files that are not kept, counted from the other end |
| `Planner.LooksFine` | mc_manager/launcher/instance.py:38-60 | looking at the files one by one refuses exactly when a path looked at lies above or below a file or has a stray folder, or a file renames by case |
| `Planner.CheckRemovals` | mc_manager/launcher/client.py:68-76 | the loop over the old release stops exactly when a dropped path is refused by safe_target or fingerprint; otherwise it removes exactly the dropped files still on disk and reports the modified ones |
| `Planner.RemovalIsDropped` | mc_manager/launcher/client.py:70-76 | a removal is in the plan if and only if it is for a dropped file that is on disk, with its current stamp, and it conflicts exactly when that is not the stamp the receipt recorded |
| `Planner.NoItemConflict` | mc_manager/launcher/client.py:65-67 | a plan that reports no conflict replaces nothing but what the previous release had put there |
| `Planner.NoRemovalConflict` | mc_manager/launcher/client.py:75-76 | likewise for removals |
| `Journal.UndoPrefix` | mc_manager/launcher/installer.py:133-157 | undoing operations from j on, after the first k were done, leaves exactly the first min(j, k) done, because valid operations touch different paths |
| `Journal.RestoreSkips` | mc_manager/launcher/installer.py:138-145 | operations already at their before stamp need no restoring |
| `Journal.UsableStays` | mc_manager/launcher/installer.py:133-146 | no operation ever makes another target unusable, so safe_target and fingerprint do not raise half-way |
| `Journal.RecoveryResumes` | mc_manager/launcher/installer.py:122-158 | a recovery interrupted anywhere can be run again, and reaches exactly the states the first run could reach |
| `Journal.RecoveryLosesNothing` | mc_manager/launcher/installer.py:138-154 | recovery touches a file only if it is exactly what the transaction had put there, and puts back exactly what it had replaced |
| `Journal.RefusedExactly` | mc_manager/launcher/installer.py:131-144 | with the backups in place, recovery is refused if and only if some target is no place for a file, or neither before nor after; it then changes nothing |
| `Journal.UndoOrStop` | mc_manager/launcher/installer.py:145-158 | with a journal that can be undone, recovery either undoes all of it or is stopped from outside with a suffix undone, and is never refused |
| `Installer.Instance.Recover` | mc_manager/launcher/installer.py:122-158 | the outcome and the whole disk after a recovery: nothing to do, commit kept, rolled back, or stopped; a refusal leaves everything unchanged and happens exactly when some target is no place for a file, or neither before nor after, or a needed backup is damaged |
| `OnlyManaged.TransactionsManaged` | mc_manager/launcher/installer.py:45-67 | a transaction that is accepted or recovered from has at most 8192 operations and names managed paths only |
| `OnlyManaged.OperationsManaged` | mc_manager/launcher/client.py:56-76 | every path in the operations of a release that gets a plan has at least two parts, lies in one of the six managed folders, and has no empty, "." or ".." part |
| `OnlyManaged.InstallManaged` | mc_manager/launcher/installer.py:197-265 | an installation, however it ends, and with whatever recovery before and after it, leaves every path outside the managed folders as the user alone left it |
| `OnlyManaged.InstallCounts` | mc_manager/launcher/installer.py:265-266 | a finished installation reports exactly the number of files it replaced or removed |
| `Installer.Instance.CheckTargets` | mc_manager/launcher/installer.py:131-144 | all targets and backups are checked before anything is touched, and the pending list is exactly the operations to undo, in order |
| `Installer.Instance.UndoPending` | mc_manager/launcher/installer.py:145-158 | undoing last to first restores every pending target and only then removes the journal; stopping part-way leaves a suffix restored |
| `Installer.Instance.Download` | mc_manager/launcher/installer.py:225-230 | after the loop every changed file is stored with the declared stamp; other transactions’ downloads are untouched; a body that differs is refused |
| `Installer.Instance.Recheck` | mc_manager/launcher/installer.py:233-235 | passes only if every planned file, kept ones included, and every removal is still there with the planned stamp, or still absent, with room for a file; and refuses only if one is not |
| `Installer.Instance.BackUp` | mc_manager/launcher/installer.py:236-242 | while the user may go on editing: when it ends, every stamp that is to be replaced is held in this transaction’s backup and other backups are untouched; it refuses only because the user changed a target |
| `Installer.Instance.Apply` | mc_manager/launcher/installer.py:245-255 | while the user may go on editing: each operation is carried out in order, on a target that was exactly as it should be at that moment; it ends early only for a reason outside or a changed target, and the log says what the user and it did |
| `Installer.Instance.EditStopsApply` | mc_manager/launcher/installer.py:248-250 | an edit of a target just before its operation stops the loop there, if nothing did before |
| `Installer.Instance.Prepare` | mc_manager/launcher/installer.py:224-244 | the journal is written only when the plan still held at the recheck, all backups are there and no cancel was set at the start; nothing has been written to the managed files until then |
| `Installer.Instance.Commit` | mc_manager/launcher/installer.py:224-263 | the attempt as a whole, with its log of deeds; a failure is reported after a commit only when the call right after the receipt failed; without a fault outside, it fails only if the user changed something; it leaves no journal unless the process died or the handler failed |
| `Installer.Instance.Conclude` | mc_manager/launcher/installer.py:245-263 | from the journal on, every exception, a conflict included, ends with the handler’s recovery, whose own failure the outcome tells; Installed is returned only if the last cancel check, the receipt and the removal of the journal all went through |
| `Installer.Instance.WriteReceipt` | mc_manager/launcher/installer.py:257-259 | it fails after the commit exactly when the receipt is written and the journal cannot be removed |
| `Installer.Instance.Handle` | mc_manager/launcher/installer.py:260-263 | the recovery runs on whatever is there then; either it goes through and the exception is raised again, or its own exception is |
| `Installer.Instance.Install` | mc_manager/launcher/installer.py:205-223 | refuses unread metadata, unplannable releases, a changed preview, unapproved conflicts and colliding targets without touching the disk, and nothing else unless a fault comes from outside |
| `Installer.Instance.InstallRelease` | mc_manager/launcher/installer.py:197-265 | one call from any disk: recovery first, then an attempt, and nothing else; a cancel set at the start ends it untouched, and one set by the last check prevents the commit; a call on a disk without journal leaves none, unless the process dies or the handler’s recovery fails; paths outside the managed folders are left alone |
| `Undisturbed.ConsiderateReplay` | mc_manager/launcher/installer.py:233-255 | while the user keeps away from the targets after the recheck, the disk is always the user’s own tree with the first operations carried out on it |
| `Undisturbed.PartialIsRestorable` | mc_manager/launcher/installer.py:131-144 | such a disk can always be undone |
| `Undisturbed.ConsiderateSettles` | mc_manager/launcher/installer.py:224-263 | then an attempt ends untouched, undone or done, or part-way if the process died or a call of the handler failed; the handler’s recovery is never refused |
| `Attempts.OpsMatchPlan` | mc_manager/launcher/installer.py:210-213 | the operations’ before stamps are what is on disk when the recheck has passed |
| `Attempts.ChangesMatchOps` | mc_manager/launcher/installer.py:210-230 | download number i belongs to operation number i |
| `InstallTheorems.OpOrigin` | mc_manager/launcher/installer.py:210-213 | every operation is a real change to a file of the new release or the removal of a dropped file of the old one |
| `InstallTheorems.LogAccounts` | mc_manager/launcher/installer.py:224-263 | an attempt leaves exactly what its log of user edits and operations accounts for, or what the handler’s recovery makes of that |
| `InstallTheorems.NoSilentLoss` | mc_manager/launcher/installer.py:205-255 | whatever the user does meanwhile: each time the installer replaces or removes a file, the path belongs to the old or the new release, what it overwrites is at that very moment what the plan showed, a backup holds it, and without approval it was nothing or exactly what the old release had put at that path |
| `InstallTheorems.RecoveryKeepsProgress` | mc_manager/launcher/installer.py:122-158 | part-way through a transaction each recovery either reaches the starting files or leaves it part-way through the same transaction, and is never refused |
| `InstallTheorems.CommittedStays` | mc_manager/launcher/installer.py:128-130 | once the receipt names the transaction, no number of recoveries changes a file |
| `InstallTheorems.CrashAtomicity` | mc_manager/launcher/installer.py:122-263 | an install stopped at any step and any number of recoveries, each of which may die, while the user keeps away from the targets: once no journal is left, the files are the user’s own with all operations carried out exactly when the receipt names the transaction, and otherwise the user’s own as if nothing had been installed |
| `InstallTheorems.NoPartialUpdate` | mc_manager/launcher/installer.py:224-263 | no partial update is kept, whatever the user does: an attempt that ends in anything but a crash or a failure of the handler’s own recovery leaves no journal and either every operation carried out, with the new receipt, or every target at what it was before, with the old one |
| `InstallTheorems.HandlerRefused` | mc_manager/launcher/installer.py:131-144 | after a change by the user in the middle, the handler’s recovery is refused if and only if some target is no place for a file, or neither before nor after; the journal then stays, with everything as it is |
| `InstallTheorems.AConflict` | mc_manager/launcher/installer.py:245-263 | a concrete one: of two files the first is replaced, the user edits the second, and no recovery undoes the first |
| `InstallTheorems.StepKeepsSound` | mc_manager/launcher/installer.py:122-262 | every install or recovery, however it ends, keeps the invariant that ties files, journal, receipt, backups and committed releases together |
| `InstallTheorems.ReceiptDescribesDisk` | mc_manager/launcher/installer.py:197-262 | over any sequence of installs, cancellations, failures, crashes and recoveries: without a journal, the receipt’s files have its stamps and paths only earlier releases owned are absent |
| `PlanTheorems.NoPlanForFolderSwap` | mc_manager/launcher/instance.py:46-60 | a release that turns a managed file on disk into a folder, or a folder above one into a file, gets no plan |
| `PlanTheorems.RefusedOnCollision` | mc_manager/launcher/installer.py:58-67 | of the plans that are made, exactly those with a change and a removal of which one lies below the other once case is ignored are refused as transactions |
| `PlanTheorems.CollisionIgnoresCase` | mc_manager/launcher/installer.py:58-67 | the two paths of such a collision are never nested as they are spelled |
| `PlanTheorems.ACollision` | mc_manager/launcher/installer.py:58-67 | a concrete plan with a collision: config/A replaced by config/a/b |
| `PlanTheorems.FailureHasAReason` | mc_manager/launcher/installer.py:197-265 | an install that fails for no reason from outside had an invalid release, an unreadable or unrecoverable journal, an obstruction on the recovered disk, or a user who changed what it looked at |
| `PlanTheorems.FaultlessInstallSucceeds` | mc_manager/launcher/installer.py:197-265 | without a fault from outside (a stray folder in the way counts as one) and with a user who keeps away from the targets after the recheck, a valid release installs on a disk without journal if and only if nothing listed obstructs it and the plan still held at the recheck |
| `Budget.AddFiles` | mc_manager/launcher/store.py:117-120 | the max-per-key loop yields, for each (url, sha256), the largest declared size among all files seen |
| `Budget.AddedIsLargest` | mc_manager/launcher/store.py:117-120 | the fold reaches the largest size per object, an order-free description |
| `Budget.SumTakesAny` | mc_manager/launcher/store.py:121 | the sum of the objects does not depend on the order in which they are added up |
| `Budget.SumValues` | mc_manager/launcher/store.py:121 | the loop computes that sum |
| `Store.LauncherStore.CreateProfile` | mc_manager/launcher/store.py:75-83 | Conflict for a known id or at 1000 profiles, Ok otherwise; the new row at revision 1 and nothing else |
| `Store.LauncherStore.UpdateProfile` | mc_manager/launcher/store.py:85-96 | NotFound for an unknown id, Conflict for another revision than the one named, Ok otherwise; then the settings change and the revision rises by one |
| `Store.LauncherStore.RetainedObjects` | mc_manager/launcher/store.py:129-136 | whatever the order of the rows, for every URL and SHA-256 that some release lists the largest size any of them gives it |
| `Store.LauncherStore.CreateRelease` | mc_manager/launcher/store.py:107-127 | Invalid if and only if the release breaks a rule (folders, sizes, numbers, as `ReleaseRules.GoodRelease` writes them out), NotFound for an unknown profile, Conflict for a version that exists or retained bytes over 8,000,000,000; otherwise exactly this manifest is stored |
| `Store.LauncherStore.PublishVersion` | mc_manager/launcher/store.py:145-158 | NotFound for an unknown profile or version, Conflict for another revision; otherwise the pointer moves, the revision rises, and the first publication time stays |
| `Store.IncrementalIsRecomputed` | mc_manager/launcher/store.py:114-122 | adding the new release’s files one by one in any order gives the map recomputed from all rows afterwards |
| `Store.NextKeepsValid` | mc_manager/launcher/store.py:75-158 | every request keeps the invariant: pointers name published releases of their own profile, and the retained bytes are within 8,000,000,000 |
| `Store.EmptyIsValid` | mc_manager/launcher/store.py:129-136 | a new store satisfies the invariant |
| `Store.RunKeepsReleases` | mc_manager/launcher/store.py:75-158 | over all serialised runs manifests never change or disappear, a publication time once set stays, revisions only grow, there are at most 1000 profiles, and the retained bytes are within 8,000,000,000 |
| `Store.EditRaisesRevision` | mc_manager/launcher/store.py:85-96 | a successful edit applies to exactly the revision its caller named, raises it by one, and leaves other profiles alone |
| `Store.OneWinnerPerRevision` | mc_manager/launcher/store.py:93-96 | two edits naming the same revision of a profile never both succeed |
| `Store.CatalogIsActive` | mc_manager/launcher/store.py:160-170 | in every valid store the catalog lists exactly the profiles with an active version, each with a valid release of its own under that version |
| `StoreHistory.CatalogServes` | mc_manager/launcher/store.py:160-170 | an entry is exactly the profile’s settings and the stored manifest of the published row under its id and active version |
| `StoreHistory.CatalogTells` | mc_manager/launcher/store.py:107-170 | over every run from an empty store: the catalog lists exactly the profiles whose last publication was not a withdrawal, with the settings last saved and the very manifest that a successful request brought under that profile and version |
| `StoreHistory.ProfileTells` | mc_manager/launcher/store.py:75-158 | over such runs a profile’s settings and pointer are those last sent |
| `StoreHistory.ReleaseTells` | mc_manager/launcher/store.py:107-127 | over such runs every stored release is, field for field, one that was sent under its profile and version |
| `StoreHistory.SentOnce` | mc_manager/launcher/store.py:110-113 | no second release is ever accepted under the same profile and version |
| `StoreHistory.StoredIsGood` | mc_manager/launcher/store.py:107-127 | every release of a store reached from the empty one obeys the release rules, and every path it lists is managed |
| `Review.ReviewTells` | mc_manager/launcher/store.py:181-201 | a review is made of exactly the stored releases of a profile; it shows the version players have, the candidate’s, the profile’s revision, the candidate’s whole size, and a changed runtime unless players have the same Minecraft, loader and Java |
| `Review.ReviewLists` | mc_manager/launcher/store.py:181-199 | its lists are exactly the paths that are new, that have another size or hash, and that are gone, whatever the case |
| `Review.FilesMatchReview` | mc_manager/launcher/store.py:193-199 | file by file the review and the plan agree |
| `Review.ReviewEqualsPlan` | mc_manager/launcher/store.py:181-201 | for an instance holding exactly the active release, the plan for a candidate downloads exactly the added files, replaces the changed, removes the removed, reports no conflict, and has the review’s download size; with the active release’s receipt and no stray folder in the way the planner makes it exactly when no file lies above or below a path it looks at |
| `Automation.ServerAutomation.constructor` | mc_manager/automation.py:57-65 | a new controller on the record: power unconfirmed with a UPS, an interrupted restart to be resumed; if the record’s attempts are spaced it satisfies the invariants of saga, power gate and recovery rate |
| `AutomationTheorems.SoundMeans` | mc_manager/automation.py:204-365 | what those invariants say of the past: every mark in order, every start on steady line power, the recoveries spaced |
| `Automation.ServerAutomation.ReadPower` | mc_manager/automation.py:82-95 | keeps the invariants; no line power blocks at once, and a critical reading without it flags an outage; a reading that ends 60 seconds of line power confirms the power and clears the outage, and nothing less does |
| `Automation.ServerAutomation.ObserveOperation` | mc_manager/automation.py:97-136 | keeps the invariants and issues nothing; exactly what each operation writes (600 seconds of grace after a start, 3600 after maintenance); a stop or start cancels the task, maintenance leaves it |
| `Automation.ServerAutomation.IssueStart` | mc_manager/automation.py:247-250 | a start is issued only with no outage flagged, no administrator intent against it and, with a UPS, at least 60 seconds of line power |
| `Automation.ServerAutomation.Continue` | mc_manager/automation.py:204-262 | where every await goes on for every answer, if and only if its condition holds, with the marks it adds (`AutomationProgress.Answered`), and nothing else touched; keeps the invariants; while the power or an administrator forbids it, no start is issued, and no stop but after the console flush |
| `AutomationProgress.TaskAnswers` | mc_manager/automation.py:157-363 | from every await, for every answer: the next await, the marks added and the record, with conditions that exclude each other (a scheduled restart goes on to its warnings if and only if it saw the server online with the gate open; a recovery issues its start if and only if it saw it offline with the gate open; and so on) |
| `AutomationProgress.OrdinaryRestart` | mc_manager/automation.py:204-262 | over a run: a due restart that meets nothing unusual adds exactly Launched, StopIssued, StopSucceeded, SawOffline, StartIssued, ReadyCheck, ReadyCheck, Succeeded, and records the success |
| `AutomationProgress.SteadyIsMinute` | mc_manager/automation.py:82-93 | steady line power is a run of line readings up to the latest that has lasted 60 seconds |
| `AutomationProgress.ReadingIsNoted` | mc_manager/automation.py:82-95 | what a reading does to the power’s confirmation and the outage flag, both ways |
| `AutomationTheorems.RestartIsGated` | mc_manager/automation.py:204-238 | a restart that has not reached its stop ends, or waits on, once it is not allowed |
| `AutomationTheorems.CheckOutcome` | mc_manager/automation.py:157-190 | a readiness check records success exactly when it is the second in a row to succeed, and a failed one starts the count again |
| `AutomationTheorems.ResumeOutcome` | mc_manager/automation.py:341-363 | resuming issues no command of its own: a countdown is dropped, a server seen offline is restarted as a recovery, one seen online is waited for only if its start had begun |
| `AutomationTheorems.CommandsAreGated` | mc_manager/automation.py:204-262 | in every step of every task, starts need the gate, and stops come from the end of the warnings, gated, or from the flush; against the gate a stop is issued exactly when the flush is answered |
| `Automation.ServerAutomation.LaunchTask` | mc_manager/automation.py:264-268 | a task is launched exactly when none is running, and noted |
| `Automation.ServerAutomation.TakeDueSchedule` | mc_manager/automation.py:316-327 | keeps the invariants; a due restart is launched if and only if no task runs, power is confirmed, no outage is flagged and no administrator intends the server to be down |
| `Automation.ServerAutomation.RecentAttempts` | mc_manager/automation.py:307 | exactly the attempts of the last hour, each as often as it occurs; of a sorted list the last ones |
| `Automation.ServerAutomation.CheckServer` | mc_manager/automation.py:270-314 | keeps the invariants and issues no command; a recovery is recorded and launched if and only if one is wanted: a check under way with no task, status offline, desired, not intentional, power confirmed without outage, recovery after a power stop if one is pending, the threshold reached, the grace over, fewer than the maximum of attempts in the last 3600 seconds, the latest at least the cooldown old; and exactly what each status leaves on the record |
| `Automation.ServerAutomation.CheckOffline` | mc_manager/automation.py:299-314 | a recovery is recorded exactly when one is wanted, and keeps all recoveries spaced |
| `AutomationProgress.ChecksOut` | mc_manager/automation.py:270-314 | a check records a recovery if and only if one is wanted, whatever it saw |
| `AutomationProgress.StatusIsNoted` | mc_manager/automation.py:277-300 | what a check writes for each status: an unreachable agent only resets the count, an answer beside a task is dropped |
| `AutomationProgress.CountIsRow` | mc_manager/automation.py:277-300 | over every run, controller restarts included, the count on the record is the number of offline checks in a row, up to the threshold |
| `AutomationProgress.RecoveryNeedsRow` | mc_manager/automation.py:299-306 | over every run a recovery is recorded only at an offline check that makes at least failure_threshold of them in a row |
| `Automation.ServerAutomation.RunScriptNow` | mc_manager/controller.py:519-532 | keeps the invariants; launches under exactly the same conditions |
| `Automation.ServerAutomation.SaveSchedule` | mc_manager/controller.py:552-555 | keeps the invariants and issues nothing; a countdown is cancelled, and nothing else changes |
| `Automation.ServerAutomation.Reboot` | mc_manager/automation.py:367-370 | keeps the invariants; the record and the outage flag survive, power is unconfirmed exactly with a UPS, readings start again, the interrupted restart is resumed, and nothing is issued |
| `AutomationTheorems.StopIsSticky` | mc_manager/automation.py:97-314 | after an administrator stop, in every interleaving, no start or stop is issued and the record stays intentional, not desired, not power-pending, with no task, until the next administrator operation |
| `AutomationTheorems.MaintenancePauses` | mc_manager/automation.py:132-136 | maintenance lasts, with nothing launched or started, exactly until a restart under way sees the server ready or a check ends it |
| `AutomationTheorems.MaintenanceStopsServer` | mc_manager/automation.py:238-262 | maintenance that begins while a restart waits for the console flush: the restart still stops the server and is then refused the start, and the server stays down |
| `AutomationTheorems.PowerReturn` | mc_manager/automation.py:286-295 | a check records a success exactly for a server seen online once that was stopped for the power, is to be recovered and may use the power again |
| `AutomationTheorems.RestartSaga` | mc_manager/automation.py:204-262 | over every run with controller restarts: at most one stop per launched scheduled restart, starts only on an offline status (scheduled ones only after their stop job succeeded), and restart and resume record success only after two ready checks in a row |
| `AutomationTheorems.StepKeepsInv` | mc_manager/automation.py:204-365 | every step of every task keeps the invariant behind the saga and the power gate |
| `AutomationTheorems.PowerGate` | mc_manager/automation.py:149-153 | with a UPS, every start is issued with no outage flagged and line power confirmed by all readings of at least the last 60 seconds |
| `AutomationTheorems.LineStartMeans` | mc_manager/automation.py:82-93 | line_since is the first of the unbroken run of line readings that ends with the latest |
| `AutomationTheorems.RecoveryRate` | mc_manager/automation.py:299-314 | monitor-launched recoveries are at least the cooldown apart, and max_restarts_per_hour + 1 of them span an hour |
| `AutomationTheorems.WindowBound` | mc_manager/automation.py:307-310 | no window of 3600 seconds holds more than max_restarts_per_hour recoveries |
| `NbsFormat.Key` | minecraft-audio/monkeycraft-lobby/generate_lobby_track.py:356-363 | the folded key is congruent to the pitch on the piano modulo 12, within 33..57, equal to it if that was in range, and moved by no octave more than needed |
| `NbsFormat.CellHoldsStrongest` | minecraft-audio/monkeycraft-lobby/generate_lobby_track.py:322-352 | a cell is empty exactly when no note falls in it, and otherwise holds the strongest, the first of equals |
| `NbsSong.FoldKey` | minecraft-audio/monkeycraft-lobby/generate_lobby_track.py:359-363 | the two loops compute the folded key |
| `NbsSong.CollectEvents` | minecraft-audio/monkeycraft-lobby/generate_lobby_track.py:322-331 | the dictionaries group the notes by tick, each with its layer (for the ticks and layers in numbers see `NbsHearing.PlaceIsCell`) |
| `NbsSong.StrongestByLayer` | minecraft-audio/monkeycraft-lobby/generate_lobby_track.py:349-352 | the strongest note per layer |
| `NbsSong.WriteLayers` | minecraft-audio/monkeycraft-lobby/generate_lobby_track.py:353-368 | delta-coded layers in ascending order |
| `NbsSong.WriteTicks` | minecraft-audio/monkeycraft-lobby/generate_lobby_track.py:343-369 | delta-coded ticks in ascending order, silent ones skipped |
| `NbsSong.WriteEarly` | minecraft-audio/monkeycraft-lobby/generate_lobby_track.py:343-345 | a tick below -1 makes the writer fail; notes at tick -1 are written first, after a jump of zero |
| `NbsSong.WriteNbs` | minecraft-audio/monkeycraft-lobby/generate_lobby_track.py:317-374 | the whole file, for any notes, or nothing exactly where a length or a jump does not fit its field; it begins with the bytes 0, 0, 5, 16, 40, 35, 10, 0; and every song in which nothing starts early is written and, read back, heard as it was composed |
| `NbsSong.LittleEndianInput.UnsignedShort` | minecraft-plugins/monkey-lobby-music/src/main/java/dev/monkeycraft/lobbymusic/NbsReader.java:97-99 | two bytes, low one first, or end of file |
| `NbsSong.LittleEndianInput.UnsignedInt` | minecraft-plugins/monkey-lobby-music/src/main/java/dev/monkeycraft/lobbymusic/NbsReader.java:106-111 | four bytes, low one first, or end of file |
| `NbsSong.LittleEndianInput.String` | minecraft-plugins/monkey-lobby-music/src/main/java/dev/monkeycraft/lobbymusic/NbsReader.java:113-123 | a length-prefixed string of at most 1,048,576 bytes, or an exception |
| `NbsSong.FrontOf` | minecraft-plugins/monkey-lobby-music/src/main/java/dev/monkeycraft/lobbymusic/NbsReader.java:18-29 | succeeds exactly for version 4 or 5 with a zero first short; the length is the third field |
| `NbsSong.TitlesOf` | minecraft-plugins/monkey-lobby-music/src/main/java/dev/monkeycraft/lobbymusic/NbsReader.java:31-34 | the four strings, of which the original author is dropped |
| `NbsSong.SettingsOf` | minecraft-plugins/monkey-lobby-music/src/main/java/dev/monkeycraft/lobbymusic/NbsReader.java:35-43 | the tempo, 1 to 2000 hundredths, and the fields skipped |
| `NbsSong.LayersOf` | minecraft-plugins/monkey-lobby-music/src/main/java/dev/monkeycraft/lobbymusic/NbsReader.java:53-69 | the inner loop, with its filter |
| `NbsSong.TicksOf` | minecraft-plugins/monkey-lobby-music/src/main/java/dev/monkeycraft/lobbymusic/NbsReader.java:45-70 | the outer loop |
| `NbsSong.Read` | minecraft-plugins/monkey-lobby-music/src/main/java/dev/monkeycraft/lobbymusic/NbsReader.java:17-76 | the whole reader: the song, or an exception exactly where the parser fails |
| `NbsHearing.SongIsHeard` | minecraft-audio/monkeycraft-lobby/generate_lobby_track.py:317-374 | of every song without early starts, read back from its bytes: 9000 ticks at ten per second; the strongest note of each place (first of equals) is heard at the tick nearest to 10 times its start (ties to the even one, at most 8999), with its instrument’s number, its key, and 180 times its velocity within 1..100; per tick in layer order, and nothing else is heard |
| `NbsHearing.HeardAtTick` | minecraft-audio/monkeycraft-lobby/generate_lobby_track.py:325 | the tick of a note is the integer nearest to 10 times its start, the even one of two, or 8999 if that is larger |
| `NbsHearing.PlaceIsCell` | minecraft-audio/monkeycraft-lobby/generate_lobby_track.py:320-331 | the layer of a note: strings take 0 to 3 by how many strings came before them at that tick, the other instruments have their own |
| `NbsHearing.PrintedNote` | minecraft-audio/monkeycraft-lobby/generate_lobby_track.py:356-368 | the six bytes of a note: instrument, key, velocity, panning nearest to 100 + 80 times the pan within 0..200, and no detuning |
| `NbsHearing.PrintedSettings` | minecraft-audio/monkeycraft-lobby/generate_lobby_track.py:339-341 | the bytes between the titles and the notes |
| `NbsHearing.PrintedTitles` | minecraft-audio/monkeycraft-lobby/generate_lobby_track.py:335-338 | title, author, author, description, each after its length in four bytes |
| `NbsHearing.PrintedLayers` | minecraft-audio/monkeycraft-lobby/generate_lobby_track.py:371-374 | the ten layer names, and no custom instruments |
| `NbsHearing.LowByteFirst` | minecraft-audio/monkeycraft-lobby/generate_lobby_track.py:334-374 | numbers are written low byte first |
| `NbsHearing.NoteIsKept` | minecraft-plugins/monkey-lobby-music/src/main/java/dev/monkeycraft/lobbymusic/NbsReader.java:59-68 | the reader keeps a note if and only if its instrument is below 16, its key within 33..57 and its velocity above 0 |
| `NbsHearing.SongsRead` | minecraft-plugins/monkey-lobby-music/src/main/java/dev/monkeycraft/lobbymusic/NbsReader.java:17-76 | whatever bytes are read: they are of version 4 or 5, the tempo is at most 20 ticks per second, strings are within 1,048,576 bytes, and every note kept is playable |
| `NbsRoundTrip.StrRoundTrip` | minecraft-audio/monkeycraft-lobby/generate_lobby_track.py:311-314 | a written string is read back exactly when it is within the reader’s limit |
| `NbsRoundTrip.RowRoundTrip` | minecraft-audio/monkeycraft-lobby/generate_lobby_track.py:353-368 | the layers of one tick are read back in order |
| `NbsRoundTrip.TicksRoundTrip` | minecraft-audio/monkeycraft-lobby/generate_lobby_track.py:343-369 | the ticks are read back, silent ones as gaps |
| `NbsRoundTrip.FilterDropsNothing` | minecraft-plugins/monkey-lobby-music/src/main/java/dev/monkeycraft/lobbymusic/NbsReader.java:65-68 | every written note passes the reader’s filter, with velocity in 1..100 |
| `NbsRoundTrip.RoundTrip` | minecraft-audio/monkeycraft-lobby/generate_lobby_track.py:317-374 | reading what was written gives the same title, author, description, length and tempo and, tick by tick and layer by layer, the grid’s notes; it fails exactly when a string is beyond the reader’s limit, and the notes are lost exactly when one rounds to tick -1 |
| `NbsRoundTrip.NonNegativeStarts` | minecraft-audio/monkeycraft-lobby/generate_lobby_track.py:324-331 | with non-negative starts and lengths that fit, a song is written and no note is early, so the round trip holds |
| `NbsRoundTrip.EveryCellIsHeard` | minecraft-audio/monkeycraft-lobby/generate_lobby_track.py:343-368 | the list read for a tick has, at each sounding layer’s place, exactly the strongest note of that tick and layer |
| `NbsRoundTrip.EveryNoteHasACell` | minecraft-audio/monkeycraft-lobby/generate_lobby_track.py:324-331 | every note with a non-negative start falls in some cell |
| `LobbyRadio.LobbyRadio.ServerTick` | minecraft-plugins/monkey-lobby-music/src/main/java/dev/monkeycraft/lobbymusic/LobbyRadio.java:95-117 | one server tick, the loop included: a gap counts down, and then the next song of the list begins; a song adds its tempo, plays a tick for each 2000 units, and after its last tick leaves a gap of at least one server tick |
| `LobbyRadio.LobbyRadio.Skip` | minecraft-plugins/monkey-lobby-music/src/main/java/dev/monkeycraft/lobbymusic/LobbyRadio.java:70-72 | the next song of the list is at its very start, so the timing theorems apply from there, and nothing is played |
| `LobbyRadio.NoDrift` | minecraft-plugins/monkey-lobby-music/src/main/java/dev/monkeycraft/lobbymusic/LobbyRadio.java:104-116 | k server ticks into a song of h hundredths, tick floor(k h / 2000) is next and every tick before it was played once, in order |
| `LobbyRadio.SongEnds` | minecraft-plugins/monkey-lobby-music/src/main/java/dev/monkeycraft/lobbymusic/LobbyRadio.java:110-115 | a song ends at the first server tick by which its length is reached, with every tick played once |
| `LobbyRadio.SongThenGap` | minecraft-plugins/monkey-lobby-music/src/main/java/dev/monkeycraft/lobbymusic/LobbyRadio.java:95-117 | exactly max(1, gap) silent server ticks lie between songs |
| `LobbyRadio.WholeProgramme` | minecraft-plugins/monkey-lobby-music/src/main/java/dev/monkeycraft/lobbymusic/LobbyRadio.java:95-143 | the whole rotation: every song in order, each tick once, and the start time of every song |
| `LobbyRadio.ProgrammeMeans` | minecraft-plugins/monkey-lobby-music/src/main/java/dev/monkeycraft/lobbymusic/LobbyRadio.java:95-143 | that rotation spelled out: after each song the one after it, after the last the first; its ticks from the first to the last; its duration and a gap of at least one server tick |
| `LobbyRadio.DurationMeans` | minecraft-plugins/monkey-lobby-music/src/main/java/dev/monkeycraft/lobbymusic/LobbyRadio.java:104-116 | a song takes the least number of server ticks in which its tempo makes 2000 units for each of its ticks |
| `FolderArchive.StreamFile` | mc_manager/folder_transfer.py:58-65 | a download adds its size; it stops beyond 20 GiB, and otherwise only when a call fails |
| `FolderArchive.ArchiveEntries` | mc_manager/folder_transfer.py:43-67 | one listing moves exactly its files into the archive and its folders to the work list; it stops for a limit that is exceeded, and otherwise only when a call fails |
| `FolderArchive.BuildFolderArchive` | mc_manager/folder_transfer.py:25-75 | the work-list loop ends; without faults a tree is archived if and only if it has at most 100,000 entries, 20 GiB and 64 levels, and good names; a finished archive has exactly the members of the recursive enumeration |
| `FolderArchive.LimitsMean` | mc_manager/folder_transfer.py:35-63 | the limits in numbers, and the names that are refused |
| `FolderArchive.OneItemPerPath` | mc_manager/folder_transfer.py:37-57 | the enumeration has exactly one member for each path that names a folder (empty ones too) or a file, and none for others |
| `FolderArchive.ArchiveHoldsTree` | mc_manager/folder_transfer.py:37-57 | so a finished archive holds for every path what the tree has there, once |
| `SoftwareChange.Host.CopyTree` | mc_manager/server_installer.py:638 | copying overwrites exactly the staged paths, but for what a server that is up writes meanwhile; a failure may leave it half done |
| `SoftwareChange.Host.Restore` | mc_manager/server_installer.py:386-419 | a restore that succeeds leaves exactly the backup; one that fails still leaves the backup in place, or the old tree in place or set aside |
| `SoftwareChange.Host.Prepare` | mc_manager/server_installer.py:622-635 | a backup is taken only of a server that is down, and holds exactly the files it left |
| `SoftwareChange.Host.Forward` | mc_manager/server_installer.py:621-679 | the forward steps: all of them with their exact result, the staged files included, or the first failure, the backup being there exactly if anything was changed |
| `SoftwareChange.Host.Undo` | mc_manager/server_installer.py:680-697 | when no call of the handler fails, the files are the backup’s and a server that was active runs again; without a backup the server is started again, and the result says whether that worked |
| `SoftwareChange.Host.ChangeSoftware` | mc_manager/server_installer.py:604-708 | success puts every staged file in place as it was staged, keeps every other file as the server left it, has the update file exactly for Paper, naming this version and server, records the software and the update action, and restarts what ran; a failure keeps the registry, and the running state if and only if no restart was needed or it worked; if nothing fails from the handler’s first call on, files, registry and running state are as before; without any fault an allowed change succeeds |
| `SoftwareChange.InstalledIsInPlace` | mc_manager/server_installer.py:638-653 | path by path what a change installs |
| `SoftwareChange.UpdatedIsOnRecord` | mc_manager/server_installer.py:655-671 | what it records, and that it leaves other servers and actions alone |
| `SoftwareChange.AllowedIsChangeable` | mc_manager/server_installer.py:583-606 | a proxy changes only to a proxy, a server only to a server, and only a registered one |
| `SoftwareChange.AlwaysConsistent` | mc_manager/server_installer.py:639-671 | over any changes, successful or undone, the update file, the update action and the Paper software type agree |
| `SoftwareChange.WorldSurvives` | mc_manager/server_installer.py:635-697 | a stopped server’s file that no staged software names comes through any changes, and every backup taken holds it |
| `PlayerMonitor.MovesWhenGone` | mc_manager/player_monitor.py:232-240 | a player seen on several servers has moved exactly when none of them is the session’s |
| `PlayerMonitor.StripMeans` | mc_manager/player_monitor.py:117 | a name is what is left when white space is taken from both ends |
| `PlayerMonitor.SightingsMean` | mc_manager/player_monitor.py:104-124 | a player is seen exactly where a server that answered lists the name, of 1 to 64 characters once stripped, in whatever case |
| `PlayerMonitor.ObservedIsSeen` | mc_manager/player_monitor.py:127-183 | what becomes of the session of a player who was seen |
| `PlayerMonitor.LeaveSentMeans` | mc_manager/player_monitor.py:186-202 | a leave edit is sent exactly for a session whose player every server says is absent, and has been for the grace |
| `PlayerMonitor.PlayerPresenceMonitor.Gather` | mc_manager/player_monitor.py:104-124 | the snapshots grouped by player, invalid names ignored, and whether all servers answered |
| `PlayerMonitor.PlayerPresenceMonitor.SelectLocation` | mc_manager/player_monitor.py:232-240 | the search loop |
| `PlayerMonitor.PlayerPresenceMonitor.SeeOne` | mc_manager/player_monitor.py:127-183 | the turn of a player who was seen: a new session, a stay, or a move to the first location, if the messenger answers |
| `PlayerMonitor.PlayerPresenceMonitor.MissOne` | mc_manager/player_monitor.py:186-214 | the turn of a player who was not: marked missing until the grace is over, then ended by the final edit or its third failure |
| `PlayerMonitor.PlayerPresenceMonitor.PollOnce` | mc_manager/player_monitor.py:98-222 | a whole poll: what it saw, by server and name, and what became of every session, also when an exception ends it early |
| `PlayerMonitor.MarkKept` | mc_manager/player_monitor.py:161-191 | missing_since survives a poll exactly when the absence was confirmed or the poll slipped, and then unchanged |
| `PlayerMonitor.SlipsOnlyOnFailedEdit` | mc_manager/player_monitor.py:159-183 | a poll leaves a player’s mark wrongly only if the edit of some player who was seen did not go through |
| `PlayerMonitor.LeaveGrace` | mc_manager/player_monitor.py:185-214 | a leave edit is sent only after the grace, counted from a poll since which each poll confirmed the absence or slipped; all of them confirmed it if and only if none slipped, and always if the join and move edits of those polls succeed |
| `PlayerMonitor.LeaveWithoutGrace` | mc_manager/player_monitor.py:161-170 | a concrete run in which a failed move edit lets a leave edit go out one second after the player was seen |
| `PlayerMonitor.ThreeAttempts` | mc_manager/player_monitor.py:202-214 | an absent player’s session counts its failed final edits and never outlives the third |

## Left out

- HTTP, redirects and content encodings, FastAPI routes, Discord, the Tk and JavaScript views, Bukkit sound, systemd and subprocesses: each call is a step that returns an allowed answer or fails.
- SHA-256, UTF-8, JSON, SQLite, ZIP and tar internals; strings in a song are byte sequences.
- Symbolic links and junctions, locks, file modes and owners, authentication and all other security code.
- Directories made during an installation and temporary files: claims are about regular files at managed paths.
- PlanTheorems.FaultlessInstallSucceeds: a folder that an earlier installation left at the path of a new file stops the installation, and is not among the obstructions but among the faults, because folders are not part of the modelled disk.
- Review.ReviewEqualsPlan: likewise, such a folder also makes the planner refuse.
- The portable-name part of `safe_path` (reserved Windows names, trailing dots, special characters) and the syntax of URLs, versions and addresses.
- Free-space checks, whose arithmetic is not modelled: they succeed or fail.
- Byte-level download progress: a body arrives whole, with any stamp.
- Other servers of one controller: the automation model follows one registered server, and a `shutdown` script counts as a stop of that server.
- How `observe_operation` classifies a request: the model starts from the operation (stop, start, maintenance, power stop); the code also treats every DELETE as a stop.
- The player warnings before a scheduled restart beyond their order and outcome, poll intervals and deadlines (a deadline may pass at any wait), `due_restart` and its time zones, and delivery of the restart notice.
- Changes of the monitoring settings during a run: the recovery-rate theorems are for fixed settings.
- The partly written file that an exception in the song writer leaves.
- LobbyRadio.NoDrift: exact arithmetic in 1/2000 of a tick; the code's binary floating point is not modelled.
- FolderArchive.BuildFolderArchive: the temporary file and the order of ZIP members are not part of the result, only which members there are and how often.
- SoftwareChange.Host.ChangeSoftware: directories, special files (which the backup leaves out) and the staging directory's removal are not modelled; a death of the process is not among its faults, since nothing would resume it; a server that is down does not start by itself.
- PlayerMonitor.PlayerPresenceMonitor.PollOnce: the order of turns matters only when an edit raises and is then any order, seen players first; the saved session file and the log's set of failed servers are not modelled, and names are folded in ASCII.
- `install_server` and `delete_managed_server`, which follow the same pattern as the software change with fewer steps.
- The composers, WAV rendering, artwork, updates of the manager itself and the discovery of servers.
