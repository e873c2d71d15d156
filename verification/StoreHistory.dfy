/** What a store holds is what its administrators sent: over every run from an empty store, each release,
    profile and catalog entry goes back to a request that succeeded. */
module StoreHistory {
  import opened Optional
  import opened PackModels
  import opened ReleaseRules
  import opened Store

  /** The settings of a profile by the last request that set them, if any did. */
  function SettingsSent(requests: seq<Request>, statuses: seq<Status>, id: string): Option<string>
    requires |requests| == |statuses|
    decreases |requests|
  {
    if requests == [] then None
    else
      var n := |requests| - 1;
      var before := SettingsSent(requests[..n], statuses[..n], id);
      if statuses[n] != Ok then before
      else match requests[n]
        case NewProfile(i, settings) => if i == id then Some(settings) else before
        case SaveProfile(i, settings, _) => if i == id then Some(settings) else before
        case _ => before
  }

  /** The version published last, unless it was withdrawn. */
  function VersionSent(requests: seq<Request>, statuses: seq<Status>, id: string): Option<string>
    requires |requests| == |statuses|
    decreases |requests|
  {
    if requests == [] then None
    else
      var n := |requests| - 1;
      var before := VersionSent(requests[..n], statuses[..n], id);
      if statuses[n] == Ok && requests[n].Publish? && requests[n].id == id then requests[n].version else before
  }

  /** Request i brought this release. */
  predicate Brought(requests: seq<Request>, statuses: seq<Status>, i: int, m: Manifest)
    requires |requests| == |statuses|
  {
    0 <= i < |requests| && statuses[i] == Ok && requests[i].NewRelease? && requests[i].manifest == m
  }

  lemma RunPrefix(tables: seq<Tables>, requests: seq<Request>, statuses: seq<Status>)
    requires Run(tables, requests, statuses) && requests != []
    ensures var n := |requests| - 1;
            Run(tables[..n + 1], requests[..n], statuses[..n])
            && Next(tables[n], requests[n], statuses[n], tables[n + 1])
  {
    var n := |requests| - 1;
    var fewer, asked, answered := tables[..n + 1], requests[..n], statuses[..n];
    assert Step(tables, requests, statuses, n);
    forall i | 0 <= i < |asked| ensures Step(fewer, asked, answered, i) {
      assert Step(tables, requests, statuses, i);
    }
  }

  /** A profile is there once it was created; its settings and its pointer are those last sent. */
  lemma {:induction false} ProfileTells(tables: seq<Tables>, requests: seq<Request>, statuses: seq<Status>, id: string)
    requires Run(tables, requests, statuses) && tables[0].profiles == map[]
    ensures var last, sent := tables[|requests|], SettingsSent(requests, statuses, id);
            && (id in last.profiles <==> sent.Some?)
            && (id in last.profiles ==>
                  && last.profiles[id].settings == sent.value
                  && last.profiles[id].active == VersionSent(requests, statuses, id))
            && (id !in last.profiles ==> VersionSent(requests, statuses, id) == None)
    decreases |requests|
  {
    if requests != [] {
      var n := |requests| - 1;
      RunPrefix(tables, requests, statuses);
      ProfileTells(tables[..n + 1], requests[..n], statuses[..n], id);
      assert tables[..n + 1][n] == tables[n];
    }
  }

  /** Every stored release is, field for field, one that was sent under its profile and version. */
  lemma {:induction false} ReleaseTells(tables: seq<Tables>, requests: seq<Request>, statuses: seq<Status>,
                                        key: (string, string)) returns (i: int)
    requires Run(tables, requests, statuses) && tables[0].releases == map[]
    requires key in tables[|requests|].releases
    ensures Brought(requests, statuses, i, tables[|requests|].releases[key].manifest)
    ensures (requests[i].manifest.profileId, requests[i].manifest.version) == key
    decreases |requests|
  {
    var n := |requests| - 1;
    RunPrefix(tables, requests, statuses);
    assert tables[..n + 1][n] == tables[n];
    if key in tables[n].releases {
      i := ReleaseTells(tables[..n + 1], requests[..n], statuses[..n], key);
      assert requests[..n][i] == requests[i] && statuses[..n][i] == statuses[i];
    } else {
      i := n;
    }
  }

  lemma FromEmpty(tables: seq<Tables>, requests: seq<Request>, statuses: seq<Status>)
    requires Run(tables, requests, statuses) && tables[0] == Tables(map[], map[])
    ensures Valid(tables[|requests|])
  {
    EmptyIsValid();
    RunKeepsReleases(tables, requests, statuses, 0, |requests|);
  }

  /** Every release a store ever holds obeys the rules, and so does every path it lists. */
  lemma StoredIsGood(tables: seq<Tables>, requests: seq<Request>, statuses: seq<Status>, key: (string, string))
    requires Run(tables, requests, statuses) && tables[0] == Tables(map[], map[])
    requires key in tables[|requests|].releases
    ensures var m := tables[|requests|].releases[key].manifest;
            GoodRelease(m) && forall f | f in m.files :: ManagedPath(f.path)
  {
    FromEmpty(tables, requests, statuses);
    ValidIsGood(tables[|requests|].releases[key].manifest);
  }

  // ---------------------------------------------------------------- the player catalog

  /** An entry is exactly the profile's settings and the stored manifest of the published release that its
      pointer names. */
  lemma CatalogServes(t: Tables, id: string, settings: string, m: Manifest)
    ensures id in Catalog(t) && Catalog(t)[id] == (settings, m) <==>
              && id in t.profiles && t.profiles[id].settings == settings
              && t.profiles[id].active.Some? && (id, t.profiles[id].active.value) in t.releases
              && t.releases[(id, t.profiles[id].active.value)].publishedAt.Some?
              && t.releases[(id, t.profiles[id].active.value)].manifest == m
  {
  }

  /** The catalog players see, over any run: it lists exactly the profiles whose last publication was not a
      withdrawal, each with the settings last saved and with the very release that was sent under that
      version. */
  lemma CatalogTells(tables: seq<Tables>, requests: seq<Request>, statuses: seq<Status>, id: string) returns (i: int)
    requires Run(tables, requests, statuses) && tables[0] == Tables(map[], map[])
    ensures var catalog, version := Catalog(tables[|requests|]), VersionSent(requests, statuses, id);
            && (id in catalog <==> version.Some?)
            && (id in catalog ==>
                  && Some(catalog[id].0) == SettingsSent(requests, statuses, id)
                  && Brought(requests, statuses, i, catalog[id].1)
                  && catalog[id].1.profileId == id && catalog[id].1.version == version.value)
  {
    var last := tables[|requests|];
    i := 0;
    FromEmpty(tables, requests, statuses);
    ProfileTells(tables, requests, statuses, id);
    CatalogIsActive(last, id);
    if id in Catalog(last) {
      var key := (id, last.profiles[id].active.value);
      CatalogServes(last, id, Catalog(last)[id].0, Catalog(last)[id].1);
      i := ReleaseTells(tables, requests, statuses, key);
    }
  }

  /** Once a release is stored under a key, none is accepted under it again: the one that was sent is the
      only one. */
  lemma SentOnce(tables: seq<Tables>, requests: seq<Request>, statuses: seq<Status>, i: int, j: int)
    requires Run(tables, requests, statuses) && 0 <= i < j < |requests|
    requires requests[i].NewRelease? && requests[j].NewRelease? && statuses[i] == Ok
    requires requests[i].manifest.profileId == requests[j].manifest.profileId
    requires requests[i].manifest.version == requests[j].manifest.version
    ensures statuses[j] != Ok
  {
    var key := (requests[i].manifest.profileId, requests[i].manifest.version);
    assert Step(tables, requests, statuses, i);
    assert key in tables[i + 1].releases;
    RunExtends(tables, requests, statuses, i + 1, j);
    assert key in tables[j].releases;
    assert Step(tables, requests, statuses, j);
  }
}
