/** Retained objects: for every distinct (URL, SHA-256), the largest size any release declares
    (mc_manager/launcher/store.py). */
module Budget {
  import opened PackModels

  type Key = (string, string)

  type Objects = map<Key, nat>

  const PACK_FILE_BUDGET_BYTES := 8_000_000_000

  function KeyOf(f: PackFile): Key {
    (f.url, f.stamp.sha256)
  }

  function Add(objects: Objects, f: PackFile): Objects {
    var known := if KeyOf(f) in objects then objects[KeyOf(f)] else 0;
    objects[KeyOf(f) := if f.stamp.size > known then f.stamp.size else known]
  }

  function Added(objects: Objects, files: seq<PackFile>): Objects {
    if files == [] then objects else Add(Added(objects, files[..|files| - 1]), files[|files| - 1])
  }

  /** The keys of some files, each with the largest size among them. */
  ghost predicate IsLargest(objects: Objects, files: set<PackFile>) {
    && (forall f | f in files :: KeyOf(f) in objects && f.stamp.size <= objects[KeyOf(f)])
    && (forall k | k in objects :: exists f | f in files :: KeyOf(f) == k && f.stamp.size == objects[k])
  }

  ghost function Largest(files: set<PackFile>): (objects: Objects)
    ensures IsLargest(objects, files)
  {
    if files == {} then map[] else
      var f :| f in files;
      AddKeepsLargest(Largest(files - {f}), files - {f}, f);
      assert files - {f} + {f} == files;
      Add(Largest(files - {f}), f)
  }

  lemma AddKeepsLargest(objects: Objects, files: set<PackFile>, f: PackFile)
    requires IsLargest(objects, files)
    ensures IsLargest(Add(objects, f), files + {f})
  {
    var more := Add(objects, f);
    forall k | k in more ensures exists g | g in files + {f} :: KeyOf(g) == k && g.stamp.size == more[k] {
      if k in objects && more[k] == objects[k] {
        var g :| g in files && KeyOf(g) == k && g.stamp.size == objects[k];
        assert g in files + {f};
      } else {
        assert f in files + {f};
      }
    }
  }

  lemma LargestIsUnique(objects: Objects, files: set<PackFile>)
    requires IsLargest(objects, files)
    ensures objects == Largest(files)
  {
    var same := Largest(files);
    forall k ensures k in objects <==> k in same {
    }
    forall k | k in objects ensures objects[k] == same[k] {
      var f :| f in files && KeyOf(f) == k && f.stamp.size == objects[k];
      var g :| g in files && KeyOf(g) == k && g.stamp.size == same[k];
    }
  }

  function SetOf(files: seq<PackFile>): set<PackFile> {
    set f | f in files
  }

  lemma SetOfInit(files: seq<PackFile>)
    requires files != []
    ensures SetOf(files) == SetOf(files[..|files| - 1]) + {files[|files| - 1]}
  {
    assert files == files[..|files| - 1] + [files[|files| - 1]];
  }

  lemma {:induction false} AddedIsLargest(objects: Objects, files: seq<PackFile>, known: set<PackFile>)
    requires IsLargest(objects, known)
    ensures IsLargest(Added(objects, files), known + SetOf(files))
  {
    if files == [] {
      assert known + SetOf(files) == known;
    } else {
      var init, f := files[..|files| - 1], files[|files| - 1];
      AddedIsLargest(objects, init, known);
      AddKeepsLargest(Added(objects, init), known + SetOf(init), f);
      SetOfInit(files);
      assert known + SetOf(init) + {f} == known + SetOf(files);
    }
  }

  /** The loop `objects[key] = max(objects.get(key, 0), item.size)`. */
  method AddFiles(before: Objects, files: seq<PackFile>, ghost known: set<PackFile>) returns (objects: Objects)
    requires IsLargest(before, known)
    ensures IsLargest(objects, known + SetOf(files))
  {
    objects := before;
    for i := 0 to |files|
      invariant objects == Added(before, files[..i])
    {
      assert files[..i + 1][..i] == files[..i];
      var key := (files[i].url, files[i].stamp.sha256);
      var largest := if key in objects then objects[key] else 0;
      if files[i].stamp.size > largest { largest := files[i].stamp.size; }
      objects := objects[key := largest];
    }
    assert files[..|files|] == files;
    AddedIsLargest(before, files, known);
  }

  // ---------------------------------------------------------------- sums

  ghost function Sum(m: Objects): nat {
    if m == map[] then 0 else
      var k :| k in m;
      m[k] + Sum(m - {k})
  }

  /** The sum does not depend on the order in which the values are taken. */
  lemma {:induction false} SumTakesAny(m: Objects, k: Key)
    requires k in m
    ensures Sum(m) == m[k] + Sum(m - {k})
    decreases |m|
  {
    var first :| first in m && Sum(m) == m[first] + Sum(m - {first});
    if first != k {
      SumTakesAny(m - {first}, k);
      SumTakesAny(m - {k}, first);
      assert m - {first} - {k} == m - {k} - {first};
    }
  }

  method SumValues(m: Objects) returns (total: nat)
    ensures total == Sum(m) && (m == map[] ==> total == 0)
  {
    total := 0;
    var rest := m;
    while rest != map[]
      invariant total + Sum(rest) == Sum(m)
      decreases |rest|
    {
      var k :| k in rest;
      SumTakesAny(rest, k);
      total := total + rest[k];
      rest := rest - {k};
    }
  }
}
