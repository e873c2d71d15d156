/** The publishing store: immutable releases, an active-version pointer, revision checks and a
    storage budget (mc_manager/launcher/store.py). Every method is one serialised transaction. */
module Store {
  import opened Optional
  import opened PackModels
  import opened ReleaseRules
  import opened Budget

  datatype Profile = Profile(settings: string, revision: nat, active: Option<string>)

  datatype Release = Release(manifest: Manifest, createdAt: nat, createdBy: string, publishedAt: Option<nat>)

  type Releases = map<(string, string), Release>

  /** The two tables. */
  datatype Tables = Tables(profiles: map<string, Profile>, releases: Releases)

  const MAX_PROFILES := 1000

  datatype Request =
    | NewProfile(id: string, settings: string)
    | SaveProfile(id: string, settings: string, expected: nat)
    | NewRelease(manifest: Manifest, actor: string, at: nat)
    | Publish(id: string, version: Option<string>, expected: nat, at: nat)

  datatype Status = Ok | NotFound | Conflict | Invalid

  function FilesOf(releases: Releases): set<PackFile> {
    set k, f | k in releases && f in releases[k].manifest.files :: f
  }

  ghost function RetainedBytes(t: Tables): nat {
    Sum(Largest(FilesOf(t.releases)))
  }

  ghost predicate RowsFit(t: Tables) {
    && (forall k | k in t.releases ::
          && k.0 in t.profiles && ValidManifest(t.releases[k].manifest)
          && t.releases[k].manifest.profileId == k.0 && t.releases[k].manifest.version == k.1)
    && (forall id | id in t.profiles :: PointerFits(t, id))
  }

  ghost predicate PointerFits(t: Tables, id: string)
    requires id in t.profiles
  {
    t.profiles[id].active.Some? ==>
      && (id, t.profiles[id].active.value) in t.releases
      && t.releases[(id, t.profiles[id].active.value)].publishedAt.Some?
  }

  ghost predicate Valid(t: Tables) {
    |t.profiles| <= MAX_PROFILES && RetainedBytes(t) <= PACK_FILE_BUDGET_BYTES && RowsFit(t)
  }

  function Published(r: Release, at: nat): Release {
    r.(publishedAt := if r.publishedAt.Some? then r.publishedAt else Some(at))
  }

  /** One request: its status, and the tables it leaves. Any status but Ok leaves them alone. */
  ghost predicate Next(t: Tables, q: Request, status: Status, t': Tables) {
    && (status != Ok ==> t' == t)
    && match q
       case NewProfile(id, settings) =>
         && (status == Ok <==> id !in t.profiles && |t.profiles| < MAX_PROFILES)
         && (status == Ok ==> t' == t.(profiles := t.profiles[id := Profile(settings, 1, None)]))
       case SaveProfile(id, settings, expected) =>
         && (status == Ok <==> id in t.profiles && t.profiles[id].revision == expected)
         && (status == Ok ==>
               t' == t.(profiles := t.profiles[id := t.profiles[id].(settings := settings, revision := expected + 1)]))
       case NewRelease(m, actor, at) =>
         var added := t.(releases := t.releases[(m.profileId, m.version) := Release(m, at, actor, None)]);
         && (status == Ok <==>
               && ValidManifest(m) && m.profileId in t.profiles && (m.profileId, m.version) !in t.releases
               && RetainedBytes(added) <= PACK_FILE_BUDGET_BYTES)
         && (status == Ok ==> t' == added)
       case Publish(id, version, expected, at) =>
         && (status == Ok <==>
               && id in t.profiles && t.profiles[id].revision == expected
               && (version.Some? ==> (id, version.value) in t.releases))
         && (status == Ok ==>
               && t'.profiles == t.profiles[id := t.profiles[id].(active := version, revision := expected + 1)]
               && t'.releases == if version.None? then t.releases
                                 else t.releases[(id, version.value) := Published(t.releases[(id, version.value)], at)])
  }

  /** The retained bytes with one more release. */
  ghost function BytesWith(releases: Releases, m: Manifest): nat {
    Sum(Largest(FilesOf(releases) + SetOf(m.files)))
  }

  lemma SameBytesWith(t: Tables, m: Manifest, at: nat, actor: string)
    ensures (m.profileId, m.version) !in t.releases ==>
              var added := t.(releases := t.releases[(m.profileId, m.version) := Release(m, at, actor, None)]);
              RetainedBytes(added) == BytesWith(t.releases, m)
  {
    if (m.profileId, m.version) !in t.releases {
      FilesOfAdded(t.releases, (m.profileId, m.version), Release(m, at, actor, None));
    }
  }

  /** For every URL and hash that some release lists, the largest size that any of them gives it. */
  ghost predicate HoldsLargest(objects: Objects, releases: Releases) {
    && (forall k, f | k in releases && f in releases[k].manifest.files ::
          (f.url, f.stamp.sha256) in objects && f.stamp.size <= objects[(f.url, f.stamp.sha256)])
    && (forall key | key in objects ::
          exists k, f | k in releases && f in releases[k].manifest.files ::
            f.url == key.0 && f.stamp.sha256 == key.1 && f.stamp.size == objects[key])
  }

  lemma LargestHolds(objects: Objects, releases: Releases)
    requires objects == Largest(FilesOf(releases))
    ensures HoldsLargest(objects, releases)
  {
    forall k, f | k in releases && f in releases[k].manifest.files
      ensures (f.url, f.stamp.sha256) in objects && f.stamp.size <= objects[(f.url, f.stamp.sha256)]
    {
      assert f in FilesOf(releases);
      assert KeyOf(f) == (f.url, f.stamp.sha256);
    }
    forall key | key in objects
      ensures exists k, f | k in releases && f in releases[k].manifest.files ::
                f.url == key.0 && f.stamp.sha256 == key.1 && f.stamp.size == objects[key]
    {
      LargestIsSomewhere(objects, releases, key);
    }
  }

  lemma LargestIsSomewhere(objects: Objects, releases: Releases, key: Key)
    requires IsLargest(objects, FilesOf(releases)) && key in objects
    ensures exists k, f | k in releases && f in releases[k].manifest.files ::
              f.url == key.0 && f.stamp.sha256 == key.1 && f.stamp.size == objects[key]
  {
    var f :| f in FilesOf(releases) && KeyOf(f) == key && f.stamp.size == objects[key];
    var k :| k in releases && f in releases[k].manifest.files;
    assert f.url == key.0 && f.stamp.sha256 == key.1;
  }

  class LauncherStore {
    var profiles: map<string, Profile>
    var releases: Releases

    ghost function Rows(): Tables
      reads this
    {
      Tables(profiles, releases)
    }

    method CreateProfile(id: string, settings: string) returns (status: Status)
      modifies this
      ensures Next(old(Rows()), NewProfile(id, settings), status, Rows())
      ensures status == if id in old(profiles) || |old(profiles)| >= 1000 then Conflict else Ok
      ensures releases == old(releases)
      ensures profiles == if status == Ok then old(profiles)[id := Profile(settings, 1, None)] else old(profiles)
    {
      if id in profiles { return Conflict; }
      if |profiles| >= MAX_PROFILES { return Conflict; }
      profiles := profiles[id := Profile(settings, 1, None)];
      return Ok;
    }

    method UpdateProfile(id: string, settings: string, expected: nat) returns (status: Status)
      modifies this
      ensures Next(old(Rows()), SaveProfile(id, settings, expected), status, Rows())
      ensures status == if id !in old(profiles) then NotFound
                        else if old(profiles)[id].revision != expected then Conflict else Ok
      ensures releases == old(releases)
      ensures profiles == if status == Ok
                          then old(profiles)[id := Profile(settings, expected + 1, old(profiles)[id].active)]
                          else old(profiles)
    {
      if id !in profiles { return NotFound; }
      var row := profiles[id];
      if row.revision != expected { return Conflict; }
      profiles := profiles[id := row.(settings := settings, revision := row.revision + 1)];
      return Ok;
    }

    /** `_retained_objects`: the rows come in any order. Each URL and hash has the largest size that any
        release gives them. */
    method RetainedObjects() returns (objects: Objects)
      ensures objects == Largest(FilesOf(releases))
      ensures HoldsLargest(objects, releases)
    {
      objects := map[];
      var keys := releases.Keys;
      ghost var seen: set<PackFile> := {};
      while keys != {}
        invariant keys <= releases.Keys
        invariant IsLargest(objects, seen)
        invariant seen == set k, f | k in releases.Keys - keys && f in releases[k].manifest.files :: f
        decreases |keys|
      {
        var k :| k in keys;
        var files := releases[k].manifest.files;
        objects := AddFiles(objects, files, seen);
        seen := seen + SetOf(files);
        keys := keys - {k};
      }
      LargestIsUnique(objects, FilesOf(releases));
      LargestHolds(objects, releases);
    }

    /** The retained bytes if the release were added. */
    method TotalWith(m: Manifest) returns (total: nat)
      ensures total == BytesWith(releases, m)
    {
      var objects := RetainedObjects();
      objects := AddFiles(objects, m.files, FilesOf(releases));
      LargestIsUnique(objects, FilesOf(releases) + SetOf(m.files));
      total := SumValues(objects);
    }

    /** A release that breaks a rule is refused, whatever else; releases are immutable, and none is saved
        that would take the retained files over 8 GB. */
    method CreateRelease(m: Manifest, actor: string, at: nat) returns (status: Status)
      modifies this
      ensures Next(old(Rows()), NewRelease(m, actor, at), status, Rows())
      ensures status == Invalid <==> !GoodRelease(m)
      ensures status == NotFound <==> GoodRelease(m) && m.profileId !in old(profiles)
      ensures status == Conflict <==>
                && GoodRelease(m) && m.profileId in old(profiles)
                && (|| (m.profileId, m.version) in old(releases)
                    || BytesWith(old(releases), m) > 8_000_000_000)
      ensures profiles == old(profiles)
      ensures releases == if status == Ok
                          then old(releases)[(m.profileId, m.version) := Release(m, at, actor, None)]
                          else old(releases)
    {
      ValidIsGood(m);
      SameBytesWith(Rows(), m, at, actor);
      if !ValidManifest(m) { return Invalid; }
      if m.profileId !in profiles { return NotFound; }
      var key := (m.profileId, m.version);
      if key in releases { return Conflict; }
      var total := TotalWith(m);
      if total > PACK_FILE_BUDGET_BYTES { return Conflict; }
      releases := releases[key := Release(m, at, actor, None)];
      return Ok;
    }

    method PublishVersion(id: string, version: Option<string>, expected: nat, at: nat) returns (status: Status)
      modifies this
      ensures Next(old(Rows()), Publish(id, version, expected, at), status, Rows())
      ensures status == if id !in old(profiles) then NotFound
                        else if old(profiles)[id].revision != expected then Conflict
                        else if version.Some? && (id, version.value) !in old(releases) then NotFound else Ok
      ensures profiles == if status == Ok
                          then old(profiles)[id := Profile(old(profiles)[id].settings, expected + 1, version)]
                          else old(profiles)
      ensures status != Ok || version.None? ==> releases == old(releases)
      ensures status == Ok && version.Some? ==>
                var key := (id, version.value);
                var row := old(releases)[key];
                && releases == old(releases)[key := Release(row.manifest, row.createdAt, row.createdBy,
                                                            releases[key].publishedAt)]
                && releases[key].publishedAt == if row.publishedAt.Some? then row.publishedAt else Some(at)
    {
      if id !in profiles { return NotFound; }
      var row := profiles[id];
      if row.revision != expected { return Conflict; }
      if version.Some? {
        var key := (id, version.value);
        if key !in releases { return NotFound; }
        var release := releases[key];
        releases := releases[key := release.(publishedAt :=
                    if release.publishedAt.Some? then release.publishedAt else Some(at))];
      }
      profiles := profiles[id := row.(active := version, revision := row.revision + 1)];
      return Ok;
    }
  }

  lemma FilesOfAdded(releases: Releases, key: (string, string), r: Release)
    requires key !in releases
    ensures FilesOf(releases[key := r]) == FilesOf(releases) + SetOf(r.manifest.files)
  {
    var added := releases[key := r];
    forall f | f in FilesOf(releases) ensures f in FilesOf(added) {
      var k :| k in releases && f in releases[k].manifest.files;
      assert k in added && added[k] == releases[k];
    }
    forall f | f in r.manifest.files ensures f in FilesOf(added) {
      assert key in added && f in added[key].manifest.files;
    }
  }

  /** Adding a release's files to the retained objects one by one, in whatever order, gives the
      objects recomputed from all rows. */
  lemma IncrementalIsRecomputed(releases: Releases, key: (string, string), r: Release, order: seq<PackFile>)
    requires key !in releases && multiset(order) == multiset(r.manifest.files)
    ensures Added(Largest(FilesOf(releases)), order) == Largest(FilesOf(releases[key := r]))
  {
    FilesOfAdded(releases, key, r);
    forall f ensures f in order <==> f in r.manifest.files {
      assert f in order <==> f in multiset(order);
    }
    AddedIsLargest(Largest(FilesOf(releases)), order, FilesOf(releases));
    assert FilesOf(releases) + SetOf(order) == FilesOf(releases[key := r]);
    LargestIsUnique(Added(Largest(FilesOf(releases)), order), FilesOf(releases[key := r]));
  }

  // ---------------------------------------------------------------- runs

  lemma NextKeepsRows(t: Tables, q: Request, status: Status, t': Tables)
    requires RowsFit(t) && Next(t, q, status, t')
    ensures RowsFit(t')
  {
    if status == Ok {
      forall id | id in t'.profiles ensures PointerFits(t', id) {
        if id in t.profiles { assert PointerFits(t, id); }
      }
      forall k | k in t'.releases
        ensures k.0 in t'.profiles && ValidManifest(t'.releases[k].manifest)
        ensures t'.releases[k].manifest.profileId == k.0 && t'.releases[k].manifest.version == k.1
      {
        if k in t.releases { assert t'.releases[k].manifest == t.releases[k].manifest; }
      }
    }
  }

  lemma NextKeepsLimits(t: Tables, q: Request, status: Status, t': Tables)
    requires |t.profiles| <= MAX_PROFILES && RetainedBytes(t) <= PACK_FILE_BUDGET_BYTES && Next(t, q, status, t')
    ensures |t'.profiles| <= MAX_PROFILES && RetainedBytes(t') <= PACK_FILE_BUDGET_BYTES
  {
    if status == Ok {
      match q
      case NewProfile(id, settings) => OneMoreProfile(t, id, settings, t');
      case SaveProfile(id, settings, expected) => assert t'.profiles.Keys == t.profiles.Keys;
      case NewRelease(m, actor, at) =>
      case Publish(id, version, expected, at) =>
        PublishKeepsLimits(t, id, version, expected, at, t');
    }
  }

  lemma OneMoreProfile(t: Tables, id: string, settings: string, t': Tables)
    requires Next(t, NewProfile(id, settings), Ok, t')
    ensures |t'.profiles| == |t.profiles| + 1 && t'.releases == t.releases
  {
    assert t'.profiles.Keys == t.profiles.Keys + {id};
  }

  lemma PublishKeepsLimits(t: Tables, id: string, version: Option<string>, expected: nat, at: nat, t': Tables)
    requires Next(t, Publish(id, version, expected, at), Ok, t')
    ensures |t'.profiles| == |t.profiles| && RetainedBytes(t') == RetainedBytes(t)
  {
    assert t'.profiles.Keys == t.profiles.Keys;
    SameFiles(t.releases, t'.releases);
  }

  /** A new store is valid, so every reachable one is. */
  lemma EmptyIsValid()
    ensures Valid(Tables(map[], map[]))
  {
    LargestIsUnique(map[], FilesOf(map[]));
  }

  lemma NextKeepsValid(t: Tables, q: Request, status: Status, t': Tables)
    requires Valid(t) && Next(t, q, status, t')
    ensures Valid(t')
  {
    NextKeepsRows(t, q, status, t');
    NextKeepsLimits(t, q, status, t');
  }

  lemma NextExtends(t: Tables, q: Request, status: Status, t': Tables)
    requires Next(t, q, status, t')
    ensures Extends(t, t')
  {
  }

  lemma ExtendsSelf(t: Tables)
    ensures Extends(t, t)
  {
  }

  lemma ExtendsTransitive(a: Tables, b: Tables, c: Tables)
    requires Extends(a, b) && Extends(b, c)
    ensures Extends(a, c)
  {
  }

  lemma SameFiles(a: Releases, b: Releases)
    requires a.Keys == b.Keys && forall k | k in a :: a[k].manifest == b[k].manifest
    ensures FilesOf(a) == FilesOf(b)
  {
    forall f ensures f in FilesOf(a) <==> f in FilesOf(b) {
      if f in FilesOf(a) {
        var k :| k in a && f in a[k].manifest.files;
        assert k in b && f in b[k].manifest.files;
      }
      if f in FilesOf(b) {
        var k :| k in b && f in b[k].manifest.files;
        assert k in a && f in a[k].manifest.files;
      }
    }
  }

  /** What later tables keep of earlier ones. */
  ghost predicate Extends(t: Tables, t': Tables) {
    && (forall k | k in t.releases ::
          && k in t'.releases && t'.releases[k].(publishedAt := None) == t.releases[k].(publishedAt := None)
          && (t.releases[k].publishedAt.Some? ==> t'.releases[k].publishedAt == t.releases[k].publishedAt))
    && (forall id | id in t.profiles :: id in t'.profiles && t.profiles[id].revision <= t'.profiles[id].revision)
  }

  ghost predicate Run(tables: seq<Tables>, requests: seq<Request>, statuses: seq<Status>) {
    && |tables| == |requests| + 1 == |statuses| + 1
    && forall i | 0 <= i < |requests| :: Step(tables, requests, statuses, i)
  }

  ghost predicate Step(tables: seq<Tables>, requests: seq<Request>, statuses: seq<Status>, i: nat)
    requires |tables| == |requests| + 1 == |statuses| + 1 && i < |requests|
  {
    Next(tables[i], requests[i], statuses[i], tables[i + 1])
  }

  /** What every request keeps holds throughout a run. */
  lemma {:induction false} Throughout(tables: seq<Tables>, requests: seq<Request>, statuses: seq<Status>,
                                      inv: Tables -> bool, j: nat)
    requires Run(tables, requests, statuses) && inv(tables[0]) && j < |tables|
    requires forall t, q, status, t' | inv(t) && Next(t, q, status, t') :: inv(t')
    ensures inv(tables[j])
    decreases j
  {
    if j > 0 {
      Throughout(tables, requests, statuses, inv, j - 1);
      assert Step(tables, requests, statuses, j - 1);
    }
  }

  lemma {:induction false} RunExtends(tables: seq<Tables>, requests: seq<Request>,
                                    statuses: seq<Status>, i: nat, j: nat)
    requires Run(tables, requests, statuses) && i <= j < |tables|
    ensures Extends(tables[i], tables[j])
    decreases j
  {
    if i == j {
      ExtendsSelf(tables[j]);
    } else {
      RunExtends(tables, requests, statuses, i, j - 1);
      assert Step(tables, requests, statuses, j - 1);
      NextExtends(tables[j - 1], requests[j - 1], statuses[j - 1], tables[j]);
      ExtendsTransitive(tables[i], tables[j - 1], tables[j]);
    }
  }

  /** Over any run of serialised requests the tables stay valid (so every active version is a
      published release of its own profile, and the retained bytes stay within the budget);
      releases never change or disappear, a publication time once set stays, and revisions
      only grow. */
  lemma RunKeepsReleases(tables: seq<Tables>, requests: seq<Request>, statuses: seq<Status>, i: nat, j: nat)
    requires Run(tables, requests, statuses) && Valid(tables[0]) && i <= j < |tables|
    ensures Valid(tables[j]) && Extends(tables[i], tables[j])
    ensures |tables[j].profiles| <= 1000 && RetainedBytes(tables[j]) <= 8_000_000_000
  {
    forall t, q, status, t' | Valid(t) && Next(t, q, status, t') ensures Valid(t') {
      NextKeepsValid(t, q, status, t');
    }
    Throughout(tables, requests, statuses, t => Valid(t), j);
    RunExtends(tables, requests, statuses, i, j);
  }

  function Edits(q: Request): Option<(string, nat)> {
    match q
    case SaveProfile(id, _, expected) => Some((id, expected))
    case Publish(id, _, expected, _) => Some((id, expected))
    case _ => None
  }

  /** A successful edit applies to exactly the revision its caller named, and raises it by one. */
  lemma EditRaisesRevision(t: Tables, q: Request, t': Tables, id: string, expected: nat)
    requires Next(t, q, Ok, t') && Edits(q) == Some((id, expected))
    ensures id in t.profiles && t.profiles[id].revision == expected
    ensures id in t'.profiles && t'.profiles[id].revision == expected + 1
    ensures forall other | other in t.profiles && other != id ::
              other in t'.profiles && t'.profiles[other] == t.profiles[other]
  {
  }

  /** Two edits that name the same revision of the same profile never both succeed. */
  lemma OneWinnerPerRevision(tables: seq<Tables>, requests: seq<Request>, statuses: seq<Status>, i: nat, j: nat,
                             id: string, revision: nat)
    requires Run(tables, requests, statuses) && i < j < |requests|
    requires Edits(requests[i]) == Some((id, revision)) == Edits(requests[j])
    ensures statuses[i] != Ok || statuses[j] != Ok
  {
    if statuses[i] == Ok && statuses[j] == Ok {
      assert Step(tables, requests, statuses, i) && Step(tables, requests, statuses, j);
      EditRaisesRevision(tables[i], requests[i], tables[i + 1], id, revision);
      EditRaisesRevision(tables[j], requests[j], tables[j + 1], id, revision);
      RunExtends(tables, requests, statuses, i + 1, j);
    }
  }

  // ---------------------------------------------------------------- the player catalog

  /** Profiles joined with the published release their pointer names. */
  function Catalog(t: Tables): map<string, (string, Manifest)> {
    map id | id in t.profiles && t.profiles[id].active.Some? && (id, t.profiles[id].active.value) in t.releases
             && t.releases[(id, t.profiles[id].active.value)].publishedAt.Some?
      :: (t.profiles[id].settings, t.releases[(id, t.profiles[id].active.value)].manifest)
  }

  /** In every reachable store the catalog lists exactly the profiles with an active version,
      each with a valid release of its own. */
  lemma CatalogIsActive(t: Tables, id: string)
    requires Valid(t)
    ensures id in Catalog(t) <==> id in t.profiles && t.profiles[id].active.Some?
    ensures id in Catalog(t) ==>
              var m := Catalog(t)[id].1;
              ValidManifest(m) && m.profileId == id && Some(m.version) == t.profiles[id].active
  {
    if id in t.profiles && t.profiles[id].active.Some? {
      assert PointerFits(t, id);
      var k := (id, t.profiles[id].active.value);
      assert k in t.releases && k.0 == id;
    }
  }
}
