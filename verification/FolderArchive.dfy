/** Building a ZIP of a remote folder with a work list (mc_manager/folder_transfer.py), against a
    recursive enumeration of the tree. Paths are the parts between slashes. */
module FolderArchive {
  import opened Optional

  type Path = seq<string>

  datatype Body = Folder(entries: seq<Entry>) | File(size: nat) | Other

  datatype Entry = Entry(name: string, body: Body)

  /** An archive member: a folder (its name ends with a slash) or a file of some size. */
  datatype Item = FolderItem(path: Path) | FileItem(path: Path, size: nat)

  const MAX_ARCHIVE_BYTES := 20 * 1024 * 1024 * 1024
  const MAX_ARCHIVE_ENTRIES := 100_000
  const MAX_DEPTH := 64

  /** A name the loop accepts, and `normalize_path` after it. */
  predicate ValidName(name: string) {
    && name !in {"", ".", ".."} && '/' !in name && '\\' !in name
    && forall i | 0 <= i < |name| :: name[i] >= ' ' && name[i] as int != 127
  }

  // ---------------------------------------------------------------- the tree, enumerated

  /** What some part of a tree contributes: its members, entries and bytes, and whether its names
      and nesting are acceptable. */
  datatype Tally = Tally(items: multiset<Item>, count: nat, bytes: nat, fine: bool)

  const NOTHING := Tally(multiset{}, 0, 0, true)

  function Plus(a: Tally, b: Tally): Tally {
    Tally(a.items + b.items, a.count + b.count, a.bytes + b.bytes, a.fine && b.fine)
  }

  /** A folder at an archive path and depth, with everything below it. */
  function OfFolder(entries: seq<Entry>, at: Path, depth: nat): Tally
    decreases entries, 1
  {
    Plus(Tally(multiset{FolderItem(at)}, 0, 0, depth <= MAX_DEPTH), OfEntries(entries, at, depth))
  }

  function OfEntries(entries: seq<Entry>, at: Path, depth: nat): Tally
    decreases entries, 0
  {
    if entries == [] then NOTHING
    else Plus(OfEntry(entries[0], at, depth), OfEntries(entries[1..], at, depth))
  }

  function OfEntry(e: Entry, at: Path, depth: nat): Tally
    decreases e, 2
  {
    var own := Tally(multiset{}, 1, 0, ValidName(e.name));
    match e.body
    case Folder(entries) => Plus(own, OfFolder(entries, at + [e.name], depth + 1))
    case File(size) => Plus(own, Tally(multiset{FileItem(at + [e.name], size)}, 0, size, true))
    case Other => own
  }

  predicate WithinLimits(t: Tally) {
    t.count <= MAX_ARCHIVE_ENTRIES && t.bytes <= MAX_ARCHIVE_BYTES && t.fine
  }

  // ---------------------------------------------------------------- what may be archived

  /** A name without slashes, backslashes or control characters, and no step to here or up. */
  predicate GoodName(name: string) {
    && name != "" && name != "." && name != ".."
    && forall i | 0 <= i < |name| :: name[i] != '/' && name[i] != '\\' && 32 <= name[i] as int != 127
  }

  /** Every name is good, and folders are nested at most so many levels deep. */
  predicate Tidy(entries: seq<Entry>, levels: nat) {
    forall i | 0 <= i < |entries| ::
      && GoodName(entries[i].name)
      && (entries[i].body.Folder? ==> levels > 0 && Tidy(entries[i].body.entries, levels - 1))
  }

  function EntryCount(entries: seq<Entry>): nat {
    if entries == [] then 0
    else 1 + (if entries[0].body.Folder? then EntryCount(entries[0].body.entries) else 0) + EntryCount(entries[1..])
  }

  function ByteCount(entries: seq<Entry>): nat {
    if entries == [] then 0
    else
      (match entries[0].body case Folder(below) => ByteCount(below) case File(size) => size case Other => 0)
      + ByteCount(entries[1..])
  }

  /** At most 100000 entries, 20 GiB and 64 levels, and good names. */
  predicate MayBeArchived(root: seq<Entry>) {
    EntryCount(root) <= 100_000 && ByteCount(root) <= 21_474_836_480 && Tidy(root, 64)
  }

  lemma NameIsGood(name: string)
    ensures ValidName(name) <==> GoodName(name)
  {
    if ValidName(name) {
      forall i | 0 <= i < |name| ensures name[i] != '/' && name[i] != '\\' { assert name[i] in name; }
    }
  }

  lemma FirstTallied(entries: seq<Entry>, at: Path, depth: nat)
    requires entries != []
    ensures var t, rest := OfEntries(entries, at, depth), OfEntries(entries[1..], at, depth);
            match entries[0].body
            case Folder(below) =>
              var inner := OfEntries(below, at + [entries[0].name], depth + 1);
              && t.count == 1 + inner.count + rest.count && t.bytes == inner.bytes + rest.bytes
              && t.fine == (ValidName(entries[0].name) && depth + 1 <= 64 && inner.fine && rest.fine)
            case File(size) =>
              t.count == 1 + rest.count && t.bytes == size + rest.bytes
              && t.fine == (ValidName(entries[0].name) && rest.fine)
            case Other =>
              t.count == 1 + rest.count && t.bytes == rest.bytes
              && t.fine == (ValidName(entries[0].name) && rest.fine)
  {
    var own := Tally(multiset{}, 1, 0, ValidName(entries[0].name));
    match entries[0].body
    case Folder(below) =>
      assert OfEntry(entries[0], at, depth) == Plus(own, OfFolder(below, at + [entries[0].name], depth + 1));
    case _ =>
  }

  lemma {:induction false} TallyCounts(entries: seq<Entry>, at: Path, depth: nat)
    ensures var t := OfEntries(entries, at, depth);
            t.count == EntryCount(entries) && t.bytes == ByteCount(entries)
    decreases entries
  {
    if entries != [] {
      FirstTallied(entries, at, depth);
      TallyCounts(entries[1..], at, depth);
      match entries[0].body
      case Folder(below) => TallyCounts(below, at + [entries[0].name], depth + 1);
      case _ =>
    }
  }

  lemma {:induction false} TallyTidies(entries: seq<Entry>, at: Path, depth: nat)
    requires depth <= 64
    ensures OfEntries(entries, at, depth).fine == Tidy(entries, 64 - depth)
    decreases entries
  {
    if entries != [] {
      FirstTallied(entries, at, depth);
      NameIsGood(entries[0].name);
      TidyFirst(entries, 64 - depth);
      TallyTidies(entries[1..], at, depth);
      match entries[0].body
      case Folder(below) => if depth < 64 { TallyTidies(below, at + [entries[0].name], depth + 1); }
      case _ =>
    }
  }

  lemma TidyFirst(entries: seq<Entry>, levels: nat)
    requires entries != []
    ensures Tidy(entries, levels) <==>
              && GoodName(entries[0].name)
              && (entries[0].body.Folder? ==> levels > 0 && Tidy(entries[0].body.entries, levels - 1))
              && Tidy(entries[1..], levels)
  {
    assert entries == [entries[0]] + entries[1..];
  }

  /** The limits are these. */
  lemma LimitsMean(root: seq<Entry>, at: Path)
    ensures WithinLimits(OfFolder(root, at, 0)) <==> MayBeArchived(root)
  {
    TallyCounts(root, at, 0);
    TallyTidies(root, at, 0);
  }

  // ---------------------------------------------------------------- the remote file system

  /** A directory never lists a name twice. */
  predicate Distinct(entries: seq<Entry>) {
    && (forall i, j | 0 <= i < j < |entries| :: entries[i].name != entries[j].name)
    && (forall i | 0 <= i < |entries| :: entries[i].body.Folder? ==> Distinct(entries[i].body.entries))
  }

  function Named(entries: seq<Entry>, name: string): Option<Entry> {
    if entries == [] then None
    else if entries[0].name == name then Some(entries[0])
    else Named(entries[1..], name)
  }

  /** The listing the agent returns for a path below the requested folder. */
  function Listing(root: seq<Entry>, path: Path): Option<seq<Entry>>
    decreases path
  {
    if path == [] then Some(root)
    else
      var e := Named(root, path[0]);
      if e.Some? && e.value.body.Folder? then Listing(e.value.body.entries, path[1..]) else None
  }

  lemma {:induction false} NamedIsThere(entries: seq<Entry>, i: nat)
    requires i < |entries| && forall j, k | 0 <= j < k < |entries| :: entries[j].name != entries[k].name
    ensures Named(entries, entries[i].name) == Some(entries[i])
  {
    if i > 0 { NamedIsThere(entries[1..], i - 1); }
  }

  lemma {:induction false} ListingBelow(root: seq<Entry>, path: Path, name: string)
    requires Listing(root, path).Some?
    ensures var e := Named(Listing(root, path).value, name);
            Listing(root, path + [name]) == if e.Some? && e.value.body.Folder? then Some(e.value.body.entries) else None
    decreases path
  {
    if path == [] {
      assert path + [name] == [name];
    } else {
      ListingBelow(Named(root, path[0]).value.body.entries, path[1..], name);
      assert (path + [name])[1..] == path[1..] + [name];
    }
  }

  lemma ChildListing(root: seq<Entry>, path: Path, i: nat)
    requires Listing(root, path).Some? && Distinct(Listing(root, path).value)
    requires i < |Listing(root, path).value| && Listing(root, path).value[i].body.Folder?
    ensures var child := Listing(root, path).value[i];
            Listing(root, path + [child.name]) == Some(child.body.entries) && Distinct(child.body.entries)
  {
    var entries := Listing(root, path).value;
    NamedIsThere(entries, i);
    ListingBelow(root, path, entries[i].name);
  }

  // ---------------------------------------------------------------- the work list

  datatype Pending = Pending(remote: Path, archivePath: Path, depth: nat)

  ghost predicate Known(root: seq<Entry>, pending: seq<Pending>) {
    forall p | p in pending :: Listing(root, p.remote).Some? && Distinct(Listing(root, p.remote).value)
  }

  /** What is still to come from the work list. */
  ghost function OfPending(root: seq<Entry>, pending: seq<Pending>): Tally
    requires Known(root, pending)
  {
    if pending == [] then NOTHING
    else
      var p := pending[|pending| - 1];
      Plus(OfPending(root, pending[..|pending| - 1]), OfFolder(Listing(root, p.remote).value, p.archivePath, p.depth))
  }

  /** Work left, for termination: one for each folder and one for each entry. */
  ghost function Work(entries: seq<Entry>): nat {
    if entries == [] then 1
    else 1 + Work(entries[1..]) + (if entries[0].body.Folder? then Work(entries[0].body.entries) else 0)
  }

  ghost function WorkPending(root: seq<Entry>, pending: seq<Pending>): nat
    requires Known(root, pending)
  {
    if pending == [] then 0
    else WorkPending(root, pending[..|pending| - 1]) + Work(Listing(root, pending[|pending| - 1].remote).value)
  }

  lemma Pushed(root: seq<Entry>, pending: seq<Pending>, p: Pending)
    requires Known(root, pending + [p])
    ensures OfPending(root, pending + [p])
         == Plus(OfPending(root, pending), OfFolder(Listing(root, p.remote).value, p.archivePath, p.depth))
    ensures WorkPending(root, pending + [p]) == WorkPending(root, pending) + Work(Listing(root, p.remote).value)
  {
    assert (pending + [p])[..|pending|] == pending;
  }

  datatype Stop = LimitExceeded | AgentOrStorageFailed

  datatype Result = Archived(items: seq<Item>) | Stopped(why: Stop)

  /** Whether a call failed among those from the first up to the next. The calls are the agent's requests,
      the chunks of its answers, and the disk-space checks. */
  ghost predicate FaultIn(faults: nat -> bool, first: nat, next: nat) {
    exists i | first <= i < next :: faults(i)
  }

  ghost predicate NoFault(faults: nat -> bool) {
    forall i :: !faults(i)
  }

  lemma SomeFault(faults: nat -> bool, first: nat, next: nat)
    requires FaultIn(faults, first, next)
    ensures !NoFault(faults)
  {
  }

  /** The chunk loop of one download. It stops beyond the limit, and otherwise only when a call fails. */
  method StreamFile(size: nat, before: nat, faults: nat -> bool, first: nat)
    returns (stop: Option<Stop>, total: nat, next: nat)
    requires before <= MAX_ARCHIVE_BYTES
    ensures next >= first
    ensures stop.None? ==> total == before + size && total <= MAX_ARCHIVE_BYTES
    ensures stop == Some(LimitExceeded) ==> before + size > MAX_ARCHIVE_BYTES
    ensures stop == Some(AgentOrStorageFailed) ==> FaultIn(faults, first, next)
  {
    total, next := before, first;
    var left := size;
    while left > 0
      invariant 0 <= left <= size && total + left == before + size && total <= MAX_ARCHIVE_BYTES && next >= first
    {
      var chunk: nat :| 1 <= chunk <= left;
      var ok := !faults(next);
      next := next + 1;
      if !ok { return Some(AgentOrStorageFailed), total, next; }
      total := total + chunk;
      left := left - chunk;
      if total > MAX_ARCHIVE_BYTES { return Some(LimitExceeded), total, next; }
    }
    stop := None;
  }

  /** The archive, the counters and the work list. */
  datatype Progress = Progress(items: seq<Item>, count: nat, total: nat, pending: seq<Pending>)

  /** What has been archived together with what is still to come from the work list. */
  ghost function Balance(root: seq<Entry>, s: Progress): Tally
    requires Known(root, s.pending)
  {
    Plus(SoFar(s), OfPending(root, s.pending))
  }

  ghost function SoFar(s: Progress): Tally {
    Tally(multiset(s.items), s.count, s.total, true)
  }

  lemma Shuffle(t: Tally, own: Tally, pending: Tally, below: Tally)
    ensures Plus(Plus(t, own), Plus(pending, below)) == Plus(Plus(t, pending), Plus(own, below))
  {
  }

  lemma PlusMoves(a: Tally, b: Tally, c: Tally)
    ensures Plus(Plus(a, b), c) == Plus(Plus(a, c), b) == Plus(a, Plus(b, c)) == Plus(Plus(a, c), Plus(NOTHING, b))
  {
  }

  lemma LimitsGrow(a: Tally, b: Tally)
    requires WithinLimits(Plus(a, b))
    ensures WithinLimits(a) && WithinLimits(b)
  {
  }

  lemma EntryCounts(e: Entry, at: Path, depth: nat)
    ensures OfEntry(e, at, depth).count >= 1 && (OfEntry(e, at, depth).fine ==> ValidName(e.name))
    ensures e.body.File? ==> OfEntry(e, at, depth).bytes == e.body.size
  {
  }

  lemma TooMuch(t: Tally, more: Tally, count: nat, bytes: nat)
    requires count <= t.count + more.count && bytes <= t.bytes + more.bytes
    requires count > MAX_ARCHIVE_ENTRIES || bytes > MAX_ARCHIVE_BYTES || !more.fine
    ensures !WithinLimits(Plus(t, more))
  {
  }

  lemma KnownWith(root: seq<Entry>, pending: seq<Pending>, p: Pending)
    requires Known(root, pending) && Listing(root, p.remote).Some? && Distinct(Listing(root, p.remote).value)
    ensures Known(root, pending + [p])
  {
  }

  lemma FolderPushed(root: seq<Entry>, p: Pending, entries: seq<Entry>, i: nat, before: Progress, s: Progress)
    requires Known(root, before.pending)
    requires Listing(root, p.remote) == Some(entries) && Distinct(entries)
    requires i < |entries| && entries[i].body.Folder? && ValidName(entries[i].name)
    requires var e := entries[i];
             s == before.(count := before.count + 1,
                          pending := before.pending + [Pending(p.remote + [e.name], p.archivePath + [e.name],
                                                     p.depth + 1)])
    ensures Known(root, s.pending)
    ensures Balance(root, s) == Plus(Balance(root, before), OfEntry(entries[i], p.archivePath, p.depth))
    ensures WorkPending(root, s.pending) == WorkPending(root, before.pending) + Work(entries[i].body.entries)
  {
    var e := entries[i];
    var child := Pending(p.remote + [e.name], p.archivePath + [e.name], p.depth + 1);
    ChildListing(root, p.remote, i);
    assert Listing(root, child.remote) == Some(e.body.entries) && Distinct(e.body.entries);
    KnownWith(root, before.pending, child);
    FolderBalance(root, e, p, child, before, s);
  }

  lemma FolderBalance(root: seq<Entry>, e: Entry, p: Pending, child: Pending, before: Progress, s: Progress)
    requires Known(root, before.pending) && Known(root, before.pending + [child])
    requires e.body.Folder? && ValidName(e.name) && Listing(root, child.remote) == Some(e.body.entries)
    requires child.archivePath == p.archivePath + [e.name] && child.depth == p.depth + 1
    requires s == before.(count := before.count + 1, pending := before.pending + [child])
    ensures Balance(root, s) == Plus(Balance(root, before), OfEntry(e, p.archivePath, p.depth))
    ensures WorkPending(root, s.pending) == WorkPending(root, before.pending) + Work(e.body.entries)
  {
    var one, below := Tally(multiset{}, 1, 0, true), OfFolder(e.body.entries, child.archivePath, child.depth);
    var pending := OfPending(root, before.pending);
    assert OfPending(root, s.pending) == Plus(pending, below)
        && WorkPending(root, s.pending) == WorkPending(root, before.pending) + Work(e.body.entries) by {
      Pushed(root, before.pending, child);
    }
    assert SoFar(s) == Plus(SoFar(before), one);
    assert OfEntry(e, p.archivePath, p.depth) == Plus(one, below) by { FolderEntry(e, p.archivePath, p.depth); }
    Shuffle(SoFar(before), one, pending, below);
  }

  lemma FolderEntry(e: Entry, at: Path, depth: nat)
    requires e.body.Folder? && ValidName(e.name)
    ensures OfEntry(e, at, depth)
         == Plus(Tally(multiset{}, 1, 0, true), OfFolder(e.body.entries, at + [e.name], depth + 1))
  {
  }

  lemma FileWritten(root: seq<Entry>, p: Pending, e: Entry, before: Progress, s: Progress)
    requires Known(root, before.pending) && e.body.File? && ValidName(e.name)
    requires s == before.(count := before.count + 1, total := before.total + e.body.size,
                          items := before.items + [FileItem(p.archivePath + [e.name], e.body.size)])
    ensures Balance(root, s) == Plus(Balance(root, before), OfEntry(e, p.archivePath, p.depth))
  {
  }

  lemma OtherSkipped(root: seq<Entry>, p: Pending, e: Entry, before: Progress, s: Progress)
    requires Known(root, before.pending) && e.body.Other? && ValidName(e.name)
    requires s == before.(count := before.count + 1)
    ensures Balance(root, s) == Plus(Balance(root, before), OfEntry(e, p.archivePath, p.depth))
  {
  }

  /** One entry of a listing. */
  method ArchiveEntry(ghost root: seq<Entry>, p: Pending, ghost entries: seq<Entry>, ghost i: nat, e: Entry,
                      before: Progress, faults: nat -> bool, first: nat)
    returns (stop: Option<Stop>, s: Progress, next: nat)
    requires Known(root, before.pending) && before.total <= MAX_ARCHIVE_BYTES
    requires Listing(root, p.remote) == Some(entries) && Distinct(entries) && i < |entries| && e == entries[i]
    ensures stop.None? ==>
              && Known(root, s.pending) && s.count <= MAX_ARCHIVE_ENTRIES && s.total <= MAX_ARCHIVE_BYTES
              && Balance(root, s) == Plus(Balance(root, before), OfEntry(e, p.archivePath, p.depth))
              && WorkPending(root, s.pending)
                 == WorkPending(root, before.pending) + (if e.body.Folder? then Work(e.body.entries) else 0)
    ensures stop == Some(LimitExceeded) ==>
              !WithinLimits(Plus(Balance(root, before), OfEntry(e, p.archivePath, p.depth)))
    ensures next >= first && (stop == Some(AgentOrStorageFailed) ==> FaultIn(faults, first, next))
  {
    next := first;
    EntryCounts(e, p.archivePath, p.depth);
    s := before.(count := before.count + 1);
    if s.count > MAX_ARCHIVE_ENTRIES || !ValidName(e.name) {
      TooMuch(Balance(root, before), OfEntry(e, p.archivePath, p.depth), s.count, 0);
      return Some(LimitExceeded), s, next;
    }
    var destination := p.archivePath + [e.name];
    match e.body {
      case Folder(below) =>
        var child := Pending(p.remote + [e.name], destination, p.depth + 1);
        s := s.(pending := s.pending + [child]);
        FolderPushed(root, p, entries, i, before, s);
      case File(size) =>
        var ok := !faults(next);
        next := next + 1;
        if !ok { return Some(AgentOrStorageFailed), s, next; }
        var streamed, total;
        streamed, total, next := StreamFile(size, s.total, faults, next);
        if streamed.Some? {
          if streamed == Some(LimitExceeded) {
            TooMuch(Balance(root, before), OfEntry(e, p.archivePath, p.depth), 0, before.total + size);
          }
          return streamed, s, next;
        }
        s := s.(items := s.items + [FileItem(destination, size)], total := total);
        FileWritten(root, p, e, before, s);
      case Other =>
        OtherSkipped(root, p, e, before, s);
    }
    stop := None;
  }

  lemma OneEntryOff(entries: seq<Entry>, i: nat, at: Path, depth: nat)
    requires i < |entries|
    ensures OfEntries(entries[i..], at, depth)
         == Plus(OfEntry(entries[i], at, depth), OfEntries(entries[i + 1..], at, depth))
    ensures Work(entries[i..])
         == 1 + Work(entries[i + 1..]) + (if entries[i].body.Folder? then Work(entries[i].body.entries) else 0)
  {
    assert entries[i..][0] == entries[i] && entries[i..][1..] == entries[i + 1..];
  }

  /** All entries of one listing. */
  method ArchiveEntries(ghost root: seq<Entry>, p: Pending, entries: seq<Entry>, before: Progress,
                        faults: nat -> bool, first: nat)
    returns (stop: Option<Stop>, s: Progress, next: nat)
    requires Known(root, before.pending) && before.count <= MAX_ARCHIVE_ENTRIES && before.total <= MAX_ARCHIVE_BYTES
    requires Listing(root, p.remote) == Some(entries) && Distinct(entries)
    ensures stop.None? ==>
              && Known(root, s.pending) && s.count <= MAX_ARCHIVE_ENTRIES && s.total <= MAX_ARCHIVE_BYTES
              && Balance(root, s) == Plus(Balance(root, before), OfEntries(entries, p.archivePath, p.depth))
              && WorkPending(root, s.pending) < WorkPending(root, before.pending) + Work(entries)
    ensures stop == Some(LimitExceeded) ==>
              !WithinLimits(Plus(Balance(root, before), OfEntries(entries, p.archivePath, p.depth)))
    ensures next >= first && (stop == Some(AgentOrStorageFailed) ==> FaultIn(faults, first, next))
  {
    s, next := before, first;
    ghost var all := Plus(Balance(root, before), OfEntries(entries, p.archivePath, p.depth));
    for i := 0 to |entries|
      invariant Known(root, s.pending) && s.count <= MAX_ARCHIVE_ENTRIES && s.total <= MAX_ARCHIVE_BYTES
      invariant Plus(Balance(root, s), OfEntries(entries[i..], p.archivePath, p.depth)) == all
      invariant WorkPending(root, s.pending) + Work(entries[i..]) <= WorkPending(root, before.pending) + Work(entries)
      invariant next >= first
    {
      ghost var rest := OfEntries(entries[i + 1..], p.archivePath, p.depth);
      ghost var one := OfEntry(entries[i], p.archivePath, p.depth);
      ghost var former := Balance(root, s);
      OneEntryOff(entries, i, p.archivePath, p.depth);
      PlusMoves(former, one, rest);
      stop, s, next := ArchiveEntry(root, p, entries, i, entries[i], s, faults, next);
      if stop.Some? {
        if WithinLimits(all) { LimitsGrow(Plus(former, one), rest); }
        return;
      }
    }
    assert entries[|entries|..] == [];
    stop := None;
  }

  /** `build_folder_archive`. It stops for a limit only when the tree exceeds one, and otherwise only when
      a call fails; so without faults a tree is archived if and only if it is within the limits. When it
      ends, the archive has one member for each folder, empty ones included, and one for each file, at its
      path below the root's name, and nothing else. */
  method BuildFolderArchive(root: seq<Entry>, name: string, faults: nat -> bool) returns (r: Result)
    requires Distinct(root)
    ensures r.Archived? ==> MayBeArchived(root) && multiset(r.items) == OfFolder(root, [name], 0).items
    ensures r == Stopped(LimitExceeded) ==> !MayBeArchived(root)
    ensures NoFault(faults) ==> (r.Archived? <==> MayBeArchived(root))
  {
    LimitsMean(root, [name]);
    ghost var whole := OfFolder(root, [name], 0);
    if faults(0) { return Stopped(AgentOrStorageFailed); }
    var s, next := Begun(name), 1;
    BegunBalance(root, name);
    while s.pending != []
      invariant Known(root, s.pending)
      invariant s.count <= MAX_ARCHIVE_ENTRIES && s.total <= MAX_ARCHIVE_BYTES
      invariant Balance(root, s) == whole
      decreases WorkPending(root, s.pending)
    {
      ghost var first := next;
      var stop;
      stop, s, next := ArchiveFolder(root, s, faults, next);
      if stop.Some? {
        if stop.value.AgentOrStorageFailed? { SomeFault(faults, first, next); }
        return Stopped(stop.value);
      }
    }
    NothingPending(root, s);
    r := Archived(s.items);
  }

  /** The folder on top of the work list: its own member, and its entries. */
  method ArchiveFolder(root: seq<Entry>, before: Progress, faults: nat -> bool, first: nat)
    returns (stop: Option<Stop>, s: Progress, next: nat)
    requires Known(root, before.pending) && before.pending != []
    requires before.count <= MAX_ARCHIVE_ENTRIES && before.total <= MAX_ARCHIVE_BYTES
    ensures stop.None? ==>
              && Known(root, s.pending) && s.count <= MAX_ARCHIVE_ENTRIES && s.total <= MAX_ARCHIVE_BYTES
              && Balance(root, s) == Balance(root, before)
              && WorkPending(root, s.pending) < WorkPending(root, before.pending)
    ensures stop == Some(LimitExceeded) ==> !WithinLimits(Balance(root, before))
    ensures next >= first && (stop == Some(AgentOrStorageFailed) ==> FaultIn(faults, first, next))
  {
    var p := before.pending[|before.pending| - 1];
    var popped := before.(pending := before.pending[..|before.pending| - 1]);
    assert before.pending == popped.pending + [p];
    FolderPopped(root, before, popped, p);
    if p.depth > MAX_DEPTH { return Some(LimitExceeded), before, first; }
    next := first + 1;
    if faults(first) { return Some(AgentOrStorageFailed), before, next; }
    var listing := Listing(root, p.remote).value;
    popped := popped.(items := popped.items + [FolderItem(p.archivePath)]);
    stop, s, next := ArchiveEntries(root, p, listing, popped, faults, next);
  }

  lemma NothingPending(root: seq<Entry>, s: Progress)
    requires s.pending == []
    ensures Balance(root, s) == SoFar(s)
  {
  }

  function Begun(name: string): Progress {
    Progress([], 0, 0, [Pending([], [name], 0)])
  }

  lemma BegunBalance(root: seq<Entry>, name: string)
    requires Distinct(root)
    ensures Known(root, Begun(name).pending) && Balance(root, Begun(name)) == OfFolder(root, [name], 0)
  {
    Pushed(root, [], Begun(name).pending[0]);
    assert [] + Begun(name).pending == Begun(name).pending;
  }

  /** Taking a folder off the work list and writing its own member. */
  lemma FolderPopped(root: seq<Entry>, s: Progress, popped: Progress, p: Pending)
    requires Known(root, s.pending) && s == popped.(pending := popped.pending + [p])
    ensures Known(root, popped.pending) && Listing(root, p.remote).Some? && Distinct(Listing(root, p.remote).value)
    ensures p.depth > MAX_DEPTH ==> !WithinLimits(Balance(root, s))
    ensures p.depth <= MAX_DEPTH ==>
              Balance(root, s)
              == Plus(Balance(root, popped.(items := popped.items + [FolderItem(p.archivePath)])),
                      OfEntries(Listing(root, p.remote).value, p.archivePath, p.depth))
    ensures WorkPending(root, s.pending) == WorkPending(root, popped.pending) + Work(Listing(root, p.remote).value)
  {
    assert p in s.pending;
    Pushed(root, popped.pending, p);
    var entries := Listing(root, p.remote).value;
    var own := Tally(multiset{FolderItem(p.archivePath)}, 0, 0, true);
    assert SoFar(popped.(items := popped.items + [FolderItem(p.archivePath)])) == Plus(SoFar(popped), own);
    FolderLast(SoFar(popped), own, OfPending(root, popped.pending), OfEntries(entries, p.archivePath, p.depth));
  }

  lemma FolderLast(t: Tally, own: Tally, pending: Tally, below: Tally)
    ensures Plus(t, Plus(pending, Plus(own, below))) == Plus(Plus(Plus(t, own), pending), below)
  {
  }

  // ---------------------------------------------------------------- the enumeration, path by path

  /** The archive member for a path below a folder, if the path names a folder or a file. */
  function ItemAt(root: seq<Entry>, q: Path, at: Path): Option<Item>
    decreases q
  {
    if q == [] then Some(FolderItem(at))
    else
      var e := Named(root, q[0]);
      if e.None? then None
      else match e.value.body
        case Folder(entries) => ItemAt(entries, q[1..], at + [q[0]])
        case File(size) => if |q| == 1 then Some(FileItem(at + q, size)) else None
        case Other => None
  }

  lemma {:induction false} EntriesBelow(entries: seq<Entry>, at: Path, depth: nat, x: Item)
    requires x in OfEntries(entries, at, depth).items
    ensures |x.path| > |at| && x.path[..|at|] == at
    ensures exists e | e in entries :: x.path[|at|] == e.name && x in OfEntry(e, at, depth).items
    decreases entries, 0
  {
    if x in OfEntry(entries[0], at, depth).items {
      EntryBelow(entries[0], at, depth, x);
    } else {
      EntriesBelow(entries[1..], at, depth, x);
    }
  }

  lemma PrefixOfPrefix(path: Path, at: Path, name: string)
    requires |path| > |at| && path[..|at| + 1] == at + [name]
    ensures path[..|at|] == at && path[|at|] == name
  {
    assert path[..|at|] == path[..|at| + 1][..|at|] && path[|at|] == path[..|at| + 1][|at|];
  }

  lemma {:induction false} EntryBelow(e: Entry, at: Path, depth: nat, x: Item)
    requires x in OfEntry(e, at, depth).items
    ensures |x.path| > |at| && x.path[..|at|] == at && x.path[|at|] == e.name
    decreases e, 2
  {
    if e.body.Folder? && x != FolderItem(at + [e.name]) {
      EntriesBelow(e.body.entries, at + [e.name], depth + 1, x);
      PrefixOfPrefix(x.path, at, e.name);
    }
  }

  /** Of the entries of a folder, only the one with the right name can contribute a given path. */
  lemma {:induction false} OnlyNamed(entries: seq<Entry>, at: Path, depth: nat, x: Item)
    requires forall i, j | 0 <= i < j < |entries| :: entries[i].name != entries[j].name
    requires |x.path| > |at|
    ensures var e := Named(entries, x.path[|at|]);
            OfEntries(entries, at, depth).items[x] == if e.None? then 0 else OfEntry(e.value, at, depth).items[x]
    decreases entries
  {
    if entries != [] {
      var name, first, rest := x.path[|at|], entries[0], entries[1..];
      OnlyNamed(rest, at, depth, x);
      if first.name == name {
        if Named(rest, name).Some? { NamedIsIn(rest, name); }
      } else if x in OfEntry(first, at, depth).items {
        EntryBelow(first, at, depth, x);
      }
    }
  }

  lemma {:induction false} NamedIsIn(entries: seq<Entry>, name: string)
    requires Named(entries, name).Some?
    ensures exists i | 0 <= i < |entries| :: entries[i] == Named(entries, name).value && entries[i].name == name
  {
    if entries[0].name != name {
      NamedIsIn(entries[1..], name);
      var i :| 0 <= i < |entries[1..]| && entries[1..][i] == Named(entries, name).value && entries[1..][i].name == name;
      assert entries[i + 1] == Named(entries, name).value;
    }
  }

  lemma OwnItem(root: seq<Entry>, at: Path, depth: nat, x: Item)
    requires x.path == at
    ensures OfFolder(root, at, depth).items[x] == if x == FolderItem(at) then 1 else 0
  {
    if x in OfEntries(root, at, depth).items { EntriesBelow(root, at, depth, x); }
  }

  /** The enumeration has exactly one member for every path that names a folder or a file, of the
      right kind and size, and none for any other path. */
  lemma {:induction false} OneItemPerPath(root: seq<Entry>, at: Path, depth: nat, q: Path, x: Item)
    requires Distinct(root) && x.path == at + q
    ensures OfFolder(root, at, depth).items[x] == if ItemAt(root, q, at) == Some(x) then 1 else 0
    decreases q
  {
    if q == [] {
      assert x.path == at;
      OwnItem(root, at, depth, x);
    } else {
      ItemByName(root, at, depth, q, x);
      var e := Named(root, q[0]);
      if e.Some? {
        NamedIsIn(root, q[0]);
        if e.value.body.Folder? {
          assert at + q == at + [q[0]] + q[1..];
          OneItemPerPath(e.value.body.entries, at + [q[0]], depth + 1, q[1..], x);
        } else {
          LeafItem(e.value, at, depth, q, x);
        }
      }
    }
  }

  lemma ItemByName(root: seq<Entry>, at: Path, depth: nat, q: Path, x: Item)
    requires Distinct(root) && q != [] && x.path == at + q
    ensures var e := Named(root, q[0]);
            OfFolder(root, at, depth).items[x] == if e.None? then 0 else OfEntry(e.value, at, depth).items[x]
  {
    OnlyNamed(root, at, depth, x);
  }

  lemma LeafItem(e: Entry, at: Path, depth: nat, q: Path, x: Item)
    requires !e.body.Folder? && q != [] && q[0] == e.name && x.path == at + q
    ensures OfEntry(e, at, depth).items[x]
         == if e.body.File? && |q| == 1 && x == FileItem(at + q, e.body.size) then 1 else 0
  {
    if |q| == 1 { assert q == [q[0]]; }
  }

  /** So a finished archive holds, for every path, what the tree has there, once. */
  lemma ArchiveHoldsTree(root: seq<Entry>, name: string, items: seq<Item>, q: Path, x: Item)
    requires Distinct(root) && multiset(items) == OfFolder(root, [name], 0).items && x.path == [name] + q
    ensures multiset(items)[x] == if ItemAt(root, q, [name]) == Some(x) then 1 else 0
  {
    OneItemPerPath(root, [name], 0, q, x);
  }
}
