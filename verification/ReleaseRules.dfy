/** The rules every release obeys, written out with their names and numbers, whatever functions the store and
    the launcher decide them with. */
module ReleaseRules {
  import opened Optional
  import opened PackModels

  /** A file of a pack lies in one of six folders, and its path goes neither nowhere nor up. */
  predicate ManagedPath(p: Path) {
    && |p| >= 2
    && (|| p[0] == "mods" || p[0] == "config" || p[0] == "defaultconfigs" || p[0] == "resourcepacks"
        || p[0] == "shaderpacks" || p[0] == "kubejs")
    && forall i | 0 <= i < |p| :: p[i] != "" && p[i] != "." && p[i] != ".."
  }

  lemma SafeIsManaged(p: Path)
    ensures SafePath(p) <==> ManagedPath(p)
  {
  }

  // ---------------------------------------------------------------- paths that differ only in case

  predicate SameLetter(a: char, b: char) {
    || a == b
    || ('A' <= a <= 'Z' && b as int == a as int + 32)
    || ('A' <= b <= 'Z' && a as int == b as int + 32)
  }

  predicate SameName(a: string, b: string) {
    |a| == |b| && forall i | 0 <= i < |a| :: SameLetter(a[i], b[i])
  }

  /** The same path, for a file system that ignores case. */
  predicate SamePath(p: Path, q: Path) {
    |p| == |q| && forall i | 0 <= i < |p| :: SameName(p[i], q[i])
  }

  /** p is a folder above q, for such a file system. */
  predicate Above(p: Path, q: Path) {
    |p| < |q| && SamePath(p, q[..|p|])
  }

  lemma LettersFold(a: char, b: char)
    ensures FoldChar(a) == FoldChar(b) <==> SameLetter(a, b)
  {
  }

  lemma NamesFold(a: string, b: string)
    ensures FoldPart(a) == FoldPart(b) <==> SameName(a, b)
  {
    if |a| == |b| {
      forall i | 0 <= i < |a| ensures FoldPart(a)[i] == FoldPart(b)[i] <==> SameLetter(a[i], b[i]) {
        LettersFold(a[i], b[i]);
      }
    }
  }

  lemma PathsFold(p: Path, q: Path)
    ensures Fold(p) == Fold(q) <==> SamePath(p, q)
  {
    if |p| == |q| {
      forall i | 0 <= i < |p| ensures Fold(p)[i] == Fold(q)[i] <==> SameName(p[i], q[i]) {
        NamesFold(p[i], q[i]);
      }
    }
  }

  lemma AboveFolds(p: Path, q: Path)
    ensures Fold(p) < Fold(q) <==> Above(p, q)
  {
    if |p| < |q| {
      assert Fold(q)[..|p|] == Fold(q[..|p|]);
      PathsFold(p, q[..|p|]);
    }
  }

  /** Whether the other release has this file's path, in whatever case. */
  ghost predicate Listed(files: seq<PackFile>, p: Path) {
    exists g | g in files :: SamePath(g.path, p)
  }

  lemma EntryListed(files: seq<PackFile>, p: Path)
    ensures Entry(files, Fold(p)).Some? <==> Listed(files, p)
    ensures Entry(files, Fold(p)).Some? ==> SamePath(Entry(files, Fold(p)).value.path, p)
  {
    forall g | g in files ensures Fold(g.path) == Fold(p) <==> SamePath(g.path, p) {
      PathsFold(g.path, p);
    }
  }

  // ---------------------------------------------------------------- a release

  /** The sizes of a release's files add up, file by file, from the end. */
  lemma {:induction false} BytesAddUp(files: seq<PackFile>)
    ensures TotalBytes(files) == if files == [] then 0
                                 else TotalBytes(files[..|files| - 1]) + files[|files| - 1].stamp.size
  {
    if |files| > 1 {
      BytesAddUp(files[1..]);
      assert files[1..][..|files| - 2] == files[..|files| - 1][1..];
      assert TotalBytes(files[..|files| - 1]) == files[0].stamp.size + TotalBytes(files[..|files| - 1][1..]);
    } else if |files| == 1 {
      assert files[..0] == [] && TotalBytes(files) == files[0].stamp.size + TotalBytes(files[1..]);
    }
  }

  /** At most 4096 files of at most 2 GiB each and 32 GiB together, Java 8 to 99 and 512 MiB to 64 GiB of
      memory; every file in a managed folder, no two the same and none a folder of another, whatever the
      case; and no mods without a mod loader. */
  ghost predicate GoodRelease(m: Manifest) {
    && |m.files| <= 4096 && 8 <= m.runtime.javaMajor <= 99 && 512 <= m.memoryMb <= 65536
    && TotalBytes(m.files) <= 34_359_738_368
    && (forall f | f in m.files :: ManagedPath(f.path) && f.stamp.size <= 2_147_483_648)
    && (forall i, j | 0 <= i < j < |m.files| :: !SamePath(m.files[i].path, m.files[j].path))
    && (forall f, g | f in m.files && g in m.files :: !Above(f.path, g.path))
    && (m.runtime.loader == "vanilla" ==> forall f | f in m.files :: f.path[0] != "mods")
  }

  lemma PathsApart(files: seq<PackFile>)
    ensures Compatible(PathsOf(files)) <==>
              && (forall f | f in files :: ManagedPath(f.path))
              && (forall i, j | 0 <= i < j < |files| :: !SamePath(files[i].path, files[j].path))
              && (forall f, g | f in files && g in files :: !Above(f.path, g.path))
  {
    var paths := PathsOf(files);
    forall i | 0 <= i < |files| ensures SafePath(paths[i]) <==> ManagedPath(files[i].path) {
      SafeIsManaged(paths[i]);
    }
    forall i, j | 0 <= i < |files| && 0 <= j < |files|
      ensures Fold(paths[i]) == Fold(paths[j]) <==> SamePath(files[i].path, files[j].path)
      ensures Fold(paths[i]) < Fold(paths[j]) <==> Above(files[i].path, files[j].path)
    {
      PathsFold(paths[i], paths[j]);
      AboveFolds(paths[i], paths[j]);
    }
  }

  /** The contract accepts exactly the releases that obey these rules. */
  lemma ValidIsGood(m: Manifest)
    ensures ValidManifest(m) <==> GoodRelease(m)
  {
    PathsApart(m.files);
  }
}
