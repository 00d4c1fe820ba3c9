/** `produce_masked_hdf` of pymods/H5MaskFill.py: mask fills a copy of the
    input file in the output directory (or, for `maskgrid_only`, only builds
    the masks from the input file), then hands the memo of masks to
    `cache_mask_arrays`. */
module PymodsH5MaskFill {
  import opened Wrappers
  import opened Strings
  import opened Hdf
  import opened Foreign
  import opened FileSystem
  import opened H5Processing
  import Caching = MaskFillCaching

  /** The run of this module's `produce_masked_hdf` on the files `h5` and
      `npy`: the policy lower-cased, and the memo handed to
      `cache_mask_arrays`, which keeps it unless the policy deletes. */
  function MaskedHdf(hdfPath: string, shapePath: string, outputDir: string, cacheDir: string, maskGridCache: string,
                     defaultFill: real, calls: Calls, h5: map<string, H5Content>, npy: map<string, Mask>): Run
    requires hdfPath in h5 ==> WellFormed(h5[hdfPath])
  {
    var policy := Lower(maskGridCache);
    Produce(Settings(Pymods, shapePath, cacheDir, policy, defaultFill, calls), hdfPath, outputDir,
            Caching.KeepsMasks(policy), h5, npy)
  }

  method ProduceMaskedHdf(hdfPath: string, shapePath: string, outputDir: string, cacheDir: string,
                          maskGridCache: string, defaultFill: real, calls: Calls, disk: Disk)
    returns (r: Result<Option<string>, Failure>)
    requires hdfPath in disk.h5 ==> WellFormed(disk.h5[hdfPath])
    modifies disk
    ensures var run := MaskedHdf(hdfPath, shapePath, outputDir, cacheDir, maskGridCache, defaultFill, calls,
                                 old(disk.h5), old(disk.npy));
            r == run.result && disk.h5 == run.h5 && disk.npy == run.npy
    ensures disk.others == old(disk.others)
  {
    var policy := Lower(maskGridCache);
    var memo := new MaskMemo();
    var s := Settings(Pymods, shapePath, cacheDir, policy, defaultFill, calls);
    ProduceKeeps(s, hdfPath, outputDir, disk.h5, disk.npy);
    var err := CopyAndProcess(s, hdfPath, outputDir, disk, memo);
    if err.Some? {
      return Failure(err.value);
    }
    Caching.CacheMaskArrays(memo.saved, cacheDir, policy, disk);
    if policy != "maskgrid_only" {
      return Success(Some(calls.maskedFilePath(hdfPath, outputDir)));
    }
    return Success(None);
  }
}
