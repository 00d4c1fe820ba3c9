/** `produce_masked_hdf` of the top-level H5MaskFill.py, the one the
    utility calls: the cache directory is the output directory, masks come
    from the older GridProjectionInfo helpers, and the memo is saved by its
    own rule, a policy containing "save" or `maskgrid_only`. */
module H5MaskFill {
  import opened Wrappers
  import opened Strings
  import opened Hdf
  import opened Foreign
  import opened FileSystem
  import opened H5Processing
  import Caching = MaskFillCaching

  /** The settings every `mask_fill` call of one run receives. */
  function RunSettings(shapePath: string, outputDir: string, policy: string, defaultFill: real, calls: Calls): Settings {
    Settings(TopLevel, shapePath, outputDir, policy, defaultFill, calls)
  }

  /** The run of this module's `produce_masked_hdf` on the files `h5` and
      `npy`: the policy lower-cased, the output directory as cache directory,
      and the memo saved by this module's own rule. */
  function MaskedHdf(hdfPath: string, shapePath: string, outputDir: string, maskGridCache: string,
                     defaultFill: real, calls: Calls, h5: map<string, H5Content>, npy: map<string, Mask>): Run
    requires hdfPath in h5 ==> WellFormed(h5[hdfPath])
  {
    var policy := Lower(maskGridCache);
    Produce(RunSettings(shapePath, outputDir, policy, defaultFill, calls), hdfPath, outputDir,
            Caching.SavesMasks(policy), h5, npy)
  }

  /** No run of this module raises a CF-compliance error: the copy and the
      open raise Python errors, and the walk consults GridProjectionInfo only. */
  lemma MaskedHdfNeverCompliance(hdfPath: string, shapePath: string, outputDir: string, maskGridCache: string,
                                 defaultFill: real, calls: Calls, h5: map<string, H5Content>, npy: map<string, Mask>)
    requires hdfPath in h5 ==> WellFormed(h5[hdfPath])
    ensures var run := MaskedHdf(hdfPath, shapePath, outputDir, maskGridCache, defaultFill, calls, h5, npy);
            run.result.Failure? ==> !run.result.error.CFComplianceError?
  {
    if hdfPath in h5 {
      var s := RunSettings(shapePath, outputDir, Lower(maskGridCache), defaultFill, calls);
      TopLevelWalkNeverCompliance(s, Datasets(h5[hdfPath].root), State(h5[hdfPath].objects, map[]), npy);
    }
  }

  method ProduceMaskedHdf(hdfPath: string, shapePath: string, outputDir: string, maskGridCache: string,
                          defaultFill: real, calls: Calls, disk: Disk)
    returns (r: Result<Option<string>, Failure>)
    requires hdfPath in disk.h5 ==> WellFormed(disk.h5[hdfPath])
    modifies disk
    ensures var run := MaskedHdf(hdfPath, shapePath, outputDir, maskGridCache, defaultFill, calls, old(disk.h5), old(disk.npy));
            r == run.result && disk.h5 == run.h5 && disk.npy == run.npy
    ensures disk.others == old(disk.others)
    ensures r.Failure? ==> !r.error.CFComplianceError?
  {
    var policy := Lower(maskGridCache);
    var cacheDir := outputDir;
    var memo := new MaskMemo();
    var s := RunSettings(shapePath, cacheDir, policy, defaultFill, calls);
    MaskedHdfNeverCompliance(hdfPath, shapePath, outputDir, maskGridCache, defaultFill, calls, disk.h5, disk.npy);
    ProduceKeeps(s, hdfPath, outputDir, disk.h5, disk.npy);
    var err := CopyAndProcess(s, hdfPath, outputDir, disk, memo);
    if err.Some? {
      return Failure(err.value);
    }
    if Contains(policy, "save") || policy == "maskgrid_only" {
      Caching.SaveMaskArrays(memo.saved, cacheDir, disk);
    }
    if policy == "maskgrid_only" {
      return Success(None);
    }
    return Success(Some(calls.maskedFilePath(hdfPath, outputDir)));
  }

  /** The two save rules side by side: on the six recognised policies the
      top-level module saves the memo exactly where `cache_mask_arrays`
      does, except under `use_cache`, which only the pymods version saves. */
  lemma SaveRulesDiffer()
    ensures forall p :: p in Caching.MASK_GRID_CACHE_VALUES ==>
              (Caching.SavesMasks(p) ==> Caching.KeepsMasks(p))
    ensures forall p :: p in Caching.MASK_GRID_CACHE_VALUES ==>
              (Caching.KeepsMasks(p) && !Caching.SavesMasks(p) <==> p == "use_cache")
  {
    Caching.PolicyTable();
  }
}
