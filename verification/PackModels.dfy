/** Values shared by the publishing store and the launcher: stamped files, releases and
    the contract every release satisfies (mc_manager/launcher/models.py). */
module PackModels {
  import opened Optional

  /** A relative path, as the parts between its slashes. */
  type Path = seq<string>

  /** What the launcher knows of a file's contents: its size and SHA-256. */
  datatype Stamp = Stamp(size: nat, sha256: string)

  datatype PackFile = PackFile(path: Path, url: string, stamp: Stamp)

  datatype Runtime = Runtime(minecraftVersion: string, loader: string, javaMajor: nat)

  datatype Manifest = Manifest(profileId: string, version: string, runtime: Runtime, memoryMb: nat,
                               serverAddress: Option<string>, changelog: string, files: seq<PackFile>)

  const MANAGED_DIRECTORIES := {"mods", "config", "defaultconfigs", "resourcepacks", "shaderpacks", "kubejs"}
  const MAX_FILES := 4096
  const MAX_FILE_BYTES := 2 * 1024 * 1024 * 1024
  const MAX_RELEASE_BYTES := 32 * 1024 * 1024 * 1024

  function FoldChar(c: char): char {
    if 'A' <= c <= 'Z' then (c as int + 32) as char else c
  }

  function FoldPart(s: string): string {
    seq(|s|, i requires 0 <= i < |s| => FoldChar(s[i]))
  }

  /** The case-insensitive key of a path. The proofs use only that it is a function. */
  function Fold(p: Path): Path {
    seq(|p|, i requires 0 <= i < |p| => FoldPart(p[i]))
  }

  lemma FoldPrefix(p: Path, q: Path)
    requires p < q
    ensures Fold(p) < Fold(q)
  {
    assert Fold(q)[..|p|] == Fold(p);
  }

  predicate SafePath(p: Path) {
    |p| >= 2 && p[0] in MANAGED_DIRECTORIES && forall i | 0 <= i < |p| :: p[i] !in {"", ".", ".."}
  }

  /** Paths that name different files, even on Windows, none of which is a folder of another. */
  predicate Compatible(paths: seq<Path>) {
    && (forall i | 0 <= i < |paths| :: SafePath(paths[i]))
    && (forall i, j | 0 <= i < j < |paths| :: Fold(paths[i]) != Fold(paths[j]))
    && (forall i, j | 0 <= i < |paths| && 0 <= j < |paths| :: !(Fold(paths[i]) < Fold(paths[j])))
  }

  function PathsOf(files: seq<PackFile>): (paths: seq<Path>)
    ensures |paths| == |files|
  {
    seq(|files|, i requires 0 <= i < |files| => files[i].path)
  }

  lemma PathListed(files: seq<PackFile>, f: PackFile)
    requires f in files
    ensures f.path in PathsOf(files)
  {
    var k :| 0 <= k < |files| && files[k] == f;
    assert PathsOf(files)[k] == f.path;
  }

  lemma ListedPath(files: seq<PackFile>, p: Path)
    requires p in PathsOf(files)
    ensures exists f | f in files :: f.path == p
  {
    var k :| 0 <= k < |files| && PathsOf(files)[k] == p;
    assert files[k] in files;
  }

  function TotalBytes(files: seq<PackFile>): nat {
    if files == [] then 0 else files[0].stamp.size + TotalBytes(files[1..])
  }

  predicate ValidManifest(m: Manifest) {
    && |m.files| <= MAX_FILES && 8 <= m.runtime.javaMajor <= 99 && 512 <= m.memoryMb <= 65536
    && Compatible(PathsOf(m.files))
    && (forall f | f in m.files :: f.stamp.size <= MAX_FILE_BYTES)
    && (m.runtime.loader == "vanilla" ==> forall f | f in m.files && f.path != [] :: f.path[0] != "mods")
    && TotalBytes(m.files) <= MAX_RELEASE_BYTES
  }

  /** The entry of a manifest with the given case-insensitive key. */
  function Entry(files: seq<PackFile>, key: Path): (r: Option<PackFile>)
    ensures r.Some? ==> r.value in files && Fold(r.value.path) == key
    ensures r.None? ==> forall f | f in files :: Fold(f.path) != key
  {
    if files == [] then None
    else if Fold(files[0].path) == key then Some(files[0])
    else Entry(files[1..], key)
  }

  lemma EntryIsUnique(files: seq<PackFile>, f: PackFile)
    requires Compatible(PathsOf(files)) && f in files
    ensures Entry(files, Fold(f.path)) == Some(f)
  {
    var g := Entry(files, Fold(f.path)).value;
    var i :| 0 <= i < |files| && files[i] == f;
    var j :| 0 <= j < |files| && files[j] == g;
    assert PathsOf(files)[i] == f.path && PathsOf(files)[j] == g.path;
  }

  // ---------------------------------------------------------------- managed files on disk

  type Files = map<Path, Stamp>

  function At(files: Files, p: Path): Option<Stamp> {
    if p in files then Some(files[p]) else None
  }

  /** A regular file can stand at p: no file is a folder of it, and it is a folder of no file. */
  predicate Usable(files: Files, p: Path) {
    forall q | q in files :: !(q < p) && !(p < q)
  }

  /** The files after one replace (a stamp) or unlink (no stamp). */
  function Put(files: Files, p: Path, s: Option<Stamp>): (r: Files)
    ensures forall q :: At(r, q) == if q == p then s else At(files, q)
  {
    match s
    case Some(v) => files[p := v]
    case None => files - {p}
  }

  lemma SameEverywhere(f: Files, g: Files)
    requires forall q :: At(f, q) == At(g, q)
    ensures f == g
  {
    forall q
      ensures q in f <==> q in g
      ensures q in f ==> f[q] == g[q]
    {
      assert At(f, q) == At(g, q);
    }
  }
}
