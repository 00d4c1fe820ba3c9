/** pymods/MaskFillCaching.py: the mask-grid cache policy, the mask id, the
    cache file of a mask, and reading and writing the cache.

    The HDF5 mask id of pymods/H5MaskFill.py is defined here as well: the two
    Python modules import each other, and the id is the one piece of
    H5MaskFill this module calls. */
module MaskFillCaching {
  import opened Wrappers
  import opened Strings
  import opened Hdf
  import opened Foreign
  import opened FileSystem
  import Geometry
  import H5 = H5GridProjectionInfo

  /** The six recognised values of MASK_GRID_CACHE. */
  const MASK_GRID_CACHE_VALUES: seq<string> :=
    ["ignore_and_delete", "ignore_and_save", "use_cache", "use_and_save", "use_cache_delete", "maskgrid_only"]

  /** A policy under which a cached mask file is read. */
  predicate UsesCache(policy: string) {
    Contains(policy, "use")
  }

  /** The save rule of `cache_mask_array` (and of the top-level H5MaskFill). */
  predicate SavesMasks(policy: string) {
    Contains(policy, "save") || policy == "maskgrid_only"
  }

  /** The save rule of `cache_mask_arrays`: everything not marked for deletion. */
  predicate KeepsMasks(policy: string) {
    !Contains(policy, "delete")
  }

  /** The policy table the substring tests produce on the six recognised
      values: three of them read the cache, and the two save rules differ on
      exactly one of them, `use_cache`. */
  lemma PolicyTable()
    ensures forall p :: p in MASK_GRID_CACHE_VALUES ==>
              (UsesCache(p) <==> p == "use_cache" || p == "use_and_save" || p == "use_cache_delete")
    ensures forall p :: p in MASK_GRID_CACHE_VALUES ==>
              (SavesMasks(p) <==> p == "ignore_and_save" || p == "use_and_save" || p == "maskgrid_only")
    ensures forall p :: p in MASK_GRID_CACHE_VALUES ==>
              (KeepsMasks(p) <==> SavesMasks(p) || p == "use_cache")
  {
    forall p | p in MASK_GRID_CACHE_VALUES
      ensures UsesCache(p) <==> p == "use_cache" || p == "use_and_save" || p == "use_cache_delete"
      ensures SavesMasks(p) <==> p == "ignore_and_save" || p == "use_and_save" || p == "maskgrid_only"
      ensures KeepsMasks(p) <==> SavesMasks(p) || p == "use_cache"
    {
      if p == "ignore_and_delete" {
        IgnoreAndDeleteFlags();
      } else if p == "ignore_and_save" {
        IgnoreAndSaveFlags();
      } else if p == "use_cache" {
        UseCacheFlags();
      } else if p == "use_and_save" {
        UseAndSaveFlags();
      } else if p == "use_cache_delete" {
        UseCacheDeleteFlags();
      } else {
        MaskgridOnlyFlags();
      }
    }
  }

  // The substring tests on each recognised policy.

  lemma IgnoreAndDeleteFlags()
    ensures !Contains("ignore_and_delete", "use") && !Contains("ignore_and_delete", "save") && Contains("ignore_and_delete", "delete")
  {
    ContainsFromIsWindow("ignore_and_delete", "delete", 0);
    assert WindowAt("ignore_and_delete", "delete", 11);
    MissingCharNotContained("ignore_and_delete", "use", 0, 0);
    MissingCharNotContained("ignore_and_delete", "save", 0, 0);
  }
  lemma IgnoreAndSaveFlags()
    ensures !Contains("ignore_and_save", "use") && Contains("ignore_and_save", "save") && !Contains("ignore_and_save", "delete")
  {
    ContainsFromIsWindow("ignore_and_save", "save", 0);
    assert WindowAt("ignore_and_save", "save", 11);
    MissingCharNotContained("ignore_and_save", "use", 0, 0);
    MissingCharNotContained("ignore_and_save", "delete", 0, 2);
  }
  lemma UseCacheFlags()
    ensures Contains("use_cache", "use") && !Contains("use_cache", "save") && !Contains("use_cache", "delete")
  {
    ContainsFromIsWindow("use_cache", "use", 0);
    assert WindowAt("use_cache", "use", 0);
    MissingCharNotContained("use_cache", "save", 0, 2);
    MissingCharNotContained("use_cache", "delete", 0, 0);
  }
  lemma UseAndSaveFlags()
    ensures Contains("use_and_save", "use") && Contains("use_and_save", "save") && !Contains("use_and_save", "delete")
  {
    ContainsFromIsWindow("use_and_save", "use", 0);
    assert WindowAt("use_and_save", "use", 0);
    ContainsFromIsWindow("use_and_save", "save", 0);
    assert WindowAt("use_and_save", "save", 8);
    MissingCharNotContained("use_and_save", "delete", 0, 2);
  }
  lemma UseCacheDeleteFlags()
    ensures Contains("use_cache_delete", "use") && !Contains("use_cache_delete", "save") && Contains("use_cache_delete", "delete")
  {
    ContainsFromIsWindow("use_cache_delete", "use", 0);
    assert WindowAt("use_cache_delete", "use", 0);
    ContainsFromIsWindow("use_cache_delete", "delete", 0);
    assert WindowAt("use_cache_delete", "delete", 10);
    MissingCharNotContained("use_cache_delete", "save", 0, 2);
  }
  lemma MaskgridOnlyFlags()
    ensures !Contains("maskgrid_only", "use") && !Contains("maskgrid_only", "save") && !Contains("maskgrid_only", "delete")
  {
    MissingCharNotContained("maskgrid_only", "use", 0, 0);
    MissingCharNotContained("maskgrid_only", "save", 0, 2);
    MissingCharNotContained("maskgrid_only", "delete", 0, 4);
  }

  /** The text hashed into a mask id: the projection, the transform and the
      dataset shape as Python prints them, then the shapefile path. */
  function MaskIdText(projString: string, transform: Geometry.Affine, shape: seq<nat>, shapePath: string,
                      calls: Calls): (s: string)
    ensures StartsWith(s, projString) && EndsWith(s, shapePath)
  {
    assert (projString + calls.showTransform(transform) + calls.showShape(shape) + shapePath)[..|projString|] == projString;
    projString + calls.showTransform(transform) + calls.showShape(shape) + shapePath
  }

  /** `create_mask_array_id`: the SHA-224 hex digest of the id text. */
  function CreateMaskArrayId(projString: string, transform: Geometry.Affine, shape: seq<nat>, shapePath: string,
                             calls: Calls): HexDigest
  {
    calls.sha224Hex(MaskIdText(projString, transform, shape, shapePath, calls))
  }

  /** `get_mask_array_path_from_id`: `<cache_dir>/<id>.npy`. */
  function MaskArrayPathFromId(id: HexDigest, cacheDir: string): string {
    PathJoin(cacheDir, id + ".npy")
  }

  /** The cache file of a mask lies in the cache directory and is named
      after its id. */
  lemma MaskArrayPathShape(id: HexDigest, cacheDir: string)
    ensures MaskArrayPathFromId(id, cacheDir) == JoinPrefix(cacheDir) + id + ".npy"
    ensures StartsWith(MaskArrayPathFromId(id, cacheDir), cacheDir)
    ensures EndsWith(MaskArrayPathFromId(id, cacheDir), id + ".npy")
  {
    assert (id + ".npy")[0] == id[0];
  }

  /** The id a cache file of `cacheDir` is named after. */
  function IdOfMaskArrayPath(path: string, cacheDir: string): string {
    var n := |JoinPrefix(cacheDir)|;
    if n + 4 <= |path| then path[n..|path| - 4] else ""
  }

  /** The cache file name gives back the id: distinct ids have distinct
      cache files within one cache directory. */
  lemma MaskArrayPathsInjective(cacheDir: string)
    ensures forall id: HexDigest {:trigger MaskArrayPathFromId(id, cacheDir)} ::
              IdOfMaskArrayPath(MaskArrayPathFromId(id, cacheDir), cacheDir) == id
  {
    forall id: HexDigest
      ensures IdOfMaskArrayPath(MaskArrayPathFromId(id, cacheDir), cacheDir) == id
    {
      MaskArrayPathShape(id, cacheDir);
      var p := MaskArrayPathFromId(id, cacheDir);
      assert p[|JoinPrefix(cacheDir)|..|p| - 4] == id;
    }
  }

  /** pymods/H5MaskFill.py `get_mask_array_id`: the id of the mask for an
      HDF5 dataset, from its proj4 string, its transform and its shape. */
  function H5MaskArrayId(objects: map<string, Dataset>, key: string, shapePath: string, calls: Calls)
    : (r: Result<HexDigest, Failure>)
    requires key in objects
    ensures r.Success? <==> H5.GetHdfProj4(objects, key, calls).Success? && H5.GetTransform(objects, key).Success?
    ensures r.Success? ==> r.value == CreateMaskArrayId(H5.GetHdfProj4(objects, key, calls).value,
                                                         H5.GetTransform(objects, key).value,
                                                         objects[key].shape, shapePath, calls)
  {
    var projString :- H5.GetHdfProj4(objects, key, calls);
    var transform :- H5.GetTransform(objects, key);
    Success(CreateMaskArrayId(projString, transform, objects[key].shape, shapePath, calls))
  }

  /** What `get_mask_array_id` is given: a path string or an HDF5 dataset. */
  datatype MaskSource = PathString(path: string) | H5Dataset(objects: map<string, Dataset>, key: string)

  predicate ValidSource(data: MaskSource) {
    data.H5Dataset? ==> data.key in data.objects
  }

  /** `get_mask_array_id`: a string ending in `.tif` in any case goes to the
      GeoTIFF id; everything else to the HDF5 id, which fails on a string. */
  function GetMaskArrayId(data: MaskSource, shapePath: string, calls: Calls): (r: Result<string, Failure>)
    requires ValidSource(data)
    ensures data.PathString? && EndsWith(Lower(data.path), ".tif") ==> r == Lift(calls.geotiffMaskId(data.path, shapePath))
    ensures data.PathString? && !EndsWith(Lower(data.path), ".tif") ==> r.Failure?
    ensures data.H5Dataset? ==> r.Success? == H5MaskArrayId(data.objects, data.key, shapePath, calls).Success?
    ensures data.H5Dataset? && r.Success? ==> r.value == H5MaskArrayId(data.objects, data.key, shapePath, calls).value
  {
    match data
    case PathString(path) =>
      if EndsWith(Lower(path), ".tif") then Lift(calls.geotiffMaskId(path, shapePath))
      else Failure(PythonError("AttributeError", "'str' object has no attribute 'file'"))
    case H5Dataset(objects, key) =>
      var id :- H5MaskArrayId(objects, key, shapePath, calls);
      Success(id)
  }

  /** `get_mask_array_path` for an HDF5 dataset, whose id is a digest. */
  function GetMaskArrayPath(objects: map<string, Dataset>, key: string, shapePath: string, cacheDir: string,
                            calls: Calls): (r: Result<string, Failure>)
    requires key in objects
    ensures r.Success? <==> H5MaskArrayId(objects, key, shapePath, calls).Success?
    ensures r.Success? ==> r.value == MaskArrayPathFromId(H5MaskArrayId(objects, key, shapePath, calls).value, cacheDir)
  {
    var id :- H5MaskArrayId(objects, key, shapePath, calls);
    Success(MaskArrayPathFromId(id, cacheDir))
  }

  /** `get_cached_mask_array` for an HDF5 dataset: the mask in the cache
      file, when the policy reads the cache and the file exists. */
  function GetCachedMaskArray(objects: map<string, Dataset>, key: string, shapePath: string, cacheDir: string,
                              policy: string, npy: map<string, Mask>, calls: Calls): (r: Result<Option<Mask>, Failure>)
    requires key in objects
    ensures r.Success? <==> H5MaskArrayId(objects, key, shapePath, calls).Success?
    ensures r.Success? && r.value.Some? <==>
              r.Success? && UsesCache(policy) && GetMaskArrayPath(objects, key, shapePath, cacheDir, calls).value in npy
    ensures r.Success? && r.value.Some? ==> r.value.value == npy[GetMaskArrayPath(objects, key, shapePath, cacheDir, calls).value]
  {
    var path :- GetMaskArrayPath(objects, key, shapePath, cacheDir, calls);
    if UsesCache(policy) && path in npy then Success(Some(npy[path])) else Success(None)
  }

  /** `cache_mask_array`: saves one mask to its cache file when the policy
      saves masks. */
  method CacheMaskArray(mask: Mask, objects: map<string, Dataset>, key: string, shapePath: string, cacheDir: string,
                        policy: string, calls: Calls, disk: Disk) returns (err: Option<Failure>)
    requires key in objects
    modifies disk
    ensures disk.h5 == old(disk.h5) && disk.others == old(disk.others)
    ensures !SavesMasks(policy) ==> err.None? && disk.npy == old(disk.npy)
    ensures SavesMasks(policy) && GetMaskArrayPath(objects, key, shapePath, cacheDir, calls).Success? ==>
              err.None? && disk.npy == old(disk.npy)[GetMaskArrayPath(objects, key, shapePath, cacheDir, calls).value := mask]
    ensures SavesMasks(policy) && GetMaskArrayPath(objects, key, shapePath, cacheDir, calls).Failure? ==>
              err == Some(GetMaskArrayPath(objects, key, shapePath, cacheDir, calls).error) && disk.npy == old(disk.npy)
  {
    if SavesMasks(policy) {
      var path := GetMaskArrayPath(objects, key, shapePath, cacheDir, calls);
      if path.Failure? {
        return Some(path.error);
      }
      disk.SaveMask(path.value, mask);
    }
    return None;
  }

  /** The cache files of the masks in a memo. */
  function CachePaths(saved: map<HexDigest, Mask>, cacheDir: string): set<string> {
    set id | id in saved :: MaskArrayPathFromId(id, cacheDir)
  }

  /** The cache files after every memo entry is saved to its cache file:
      `np.save` overwrites a file at that path and creates it otherwise. */
  function Written(npy: map<string, Mask>, saved: map<HexDigest, Mask>, cacheDir: string): map<string, Mask> {
    MaskArrayPathsInjective(cacheDir);
    map p | p in npy.Keys + CachePaths(saved, cacheDir) ::
      if p in CachePaths(saved, cacheDir) then saved[IdOfMaskArrayPath(p, cacheDir)] else npy[p]
  }

  /** After the masks are saved, every memo entry is at its cache file,
      every other file is unchanged, and no other file appears. */
  lemma WrittenFiles(npy: map<string, Mask>, saved: map<HexDigest, Mask>, cacheDir: string)
    ensures Written(npy, saved, cacheDir).Keys == npy.Keys + CachePaths(saved, cacheDir)
    ensures forall id :: id in saved ==> Written(npy, saved, cacheDir)[MaskArrayPathFromId(id, cacheDir)] == saved[id]
    ensures forall p :: p in npy && p !in CachePaths(saved, cacheDir) ==> Written(npy, saved, cacheDir)[p] == npy[p]
  {
    MaskArrayPathsInjective(cacheDir);
  }

  /** The memo entries whose ids are in `ids`. */
  function Restrict(saved: map<HexDigest, Mask>, ids: set<HexDigest>): (r: map<HexDigest, Mask>)
    ensures r.Keys == saved.Keys * ids
    ensures forall id :: id in r ==> r[id] == saved[id]
  {
    map id | id in saved && id in ids :: saved[id]
  }

  /** A memo entry added or replaced adds its cache file to the memo's. */
  lemma CachePathsUpdate(m: map<HexDigest, Mask>, id: HexDigest, mask: Mask, cacheDir: string)
    ensures CachePaths(m[id := mask], cacheDir) == CachePaths(m, cacheDir) + {MaskArrayPathFromId(id, cacheDir)}
  {
  }

  /** Saving one more memo entry writes one more cache file. */
  lemma WrittenUpdate(npy: map<string, Mask>, m: map<HexDigest, Mask>, id: HexDigest, mask: Mask, cacheDir: string)
    ensures Written(npy, m[id := mask], cacheDir) == Written(npy, m, cacheDir)[MaskArrayPathFromId(id, cacheDir) := mask]
  {
    var q := MaskArrayPathFromId(id, cacheDir);
    var after := Written(npy, m[id := mask], cacheDir);
    var expected := Written(npy, m, cacheDir)[q := mask];
    WrittenUpdateKeys(npy, m, id, mask, cacheDir);
    forall p | p in after.Keys
      ensures after[p] == expected[p]
    {
      WrittenUpdateAt(npy, m, id, mask, cacheDir, p);
    }
    assert after == expected;
  }

  /** `WrittenUpdate` on the set of files: the new entry's file is added. */
  lemma WrittenUpdateKeys(npy: map<string, Mask>, m: map<HexDigest, Mask>, id: HexDigest, mask: Mask, cacheDir: string)
    ensures Written(npy, m[id := mask], cacheDir).Keys == Written(npy, m, cacheDir).Keys + {MaskArrayPathFromId(id, cacheDir)}
  {
    CachePathsUpdate(m, id, mask, cacheDir);
    WrittenFiles(npy, m, cacheDir);
    WrittenFiles(npy, m[id := mask], cacheDir);
  }

  /** `WrittenUpdate` at one path: the new entry's file holds its mask, and
      every other file is as the old memo left it. */
  lemma WrittenUpdateAt(npy: map<string, Mask>, m: map<HexDigest, Mask>, id: HexDigest, mask: Mask, cacheDir: string,
                        p: string)
    requires p in Written(npy, m[id := mask], cacheDir)
    ensures var q := MaskArrayPathFromId(id, cacheDir);
            p == q || p in Written(npy, m, cacheDir)
    ensures var q := MaskArrayPathFromId(id, cacheDir);
            Written(npy, m[id := mask], cacheDir)[p] == Written(npy, m, cacheDir)[q := mask][p]
  {
    var q := MaskArrayPathFromId(id, cacheDir);
    var before := Written(npy, m, cacheDir);
    var after := Written(npy, m[id := mask], cacheDir);
    CachePathsUpdate(m, id, mask, cacheDir);
    WrittenFiles(npy, m, cacheDir);
    WrittenFiles(npy, m[id := mask], cacheDir);
    if p == q {
      assert id in m[id := mask];
    } else if p in CachePaths(m, cacheDir) {
      var j :| j in m && p == MaskArrayPathFromId(j, cacheDir);
      assert j in m[id := mask] && j != id;
      assert after[p] == m[j] == before[p];
    } else {
      assert p in npy && p !in CachePaths(m[id := mask], cacheDir);
      assert after[p] == npy[p] == before[p];
    }
  }

  /** The loop `for mask_id, mask_array in ...items(): np.save(path, mask_array)`
      shared by `cache_mask_arrays` and the top-level `produce_masked_hdf`:
      every memo entry saved to its cache file, one entry at a time. */
  method SaveMaskArrays(saved: map<HexDigest, Mask>, cacheDir: string, disk: Disk)
    modifies disk
    ensures disk.npy == Written(old(disk.npy), saved, cacheDir)
    ensures disk.h5 == old(disk.h5) && disk.others == old(disk.others)
  {
    var todo := saved.Keys;
    ghost var done: set<HexDigest> := {};
    assert Restrict(saved, done) == map[];
    assert Written(disk.npy, map[], cacheDir) == disk.npy;
    while todo != {}
      invariant todo + done == saved.Keys && todo !! done
      invariant disk.npy == Written(old(disk.npy), Restrict(saved, done), cacheDir)
      invariant disk.h5 == old(disk.h5) && disk.others == old(disk.others)
      decreases todo
    {
      var id :| id in todo;
      var path := MaskArrayPathFromId(id, cacheDir);
      assert Restrict(saved, done + {id}) == Restrict(saved, done)[id := saved[id]];
      WrittenUpdate(old(disk.npy), Restrict(saved, done), id, saved[id], cacheDir);
      disk.SaveMask(path, saved[id]);
      todo := todo - {id};
      done := done + {id};
    }
    assert Restrict(saved, done) == saved;
  }

  /** `cache_mask_arrays`: unless the policy asks for deletion, saves every
      memo entry to its cache file. */
  method CacheMaskArrays(saved: map<HexDigest, Mask>, cacheDir: string, policy: string, disk: Disk)
    modifies disk
    ensures KeepsMasks(policy) ==> disk.npy == Written(old(disk.npy), saved, cacheDir)
    ensures !KeepsMasks(policy) ==> disk.npy == old(disk.npy)
    ensures disk.h5 == old(disk.h5) && disk.others == old(disk.others)
  {
    if !Contains(policy, "delete") {
      SaveMaskArrays(saved, cacheDir, disk);
    }
  }
}
