/** The file system the utility reads and writes, reduced to what the code
    does with it: HDF5 files (by content), `.npy` mask files written by
    `np.save`, and other paths (directories, shapefiles, GeoTIFFs) known
    only to exist. */
module FileSystem {
  import opened Wrappers
  import opened Hdf
  import opened Foreign

  /** The exception `shutil.copy(src, dst)` raises on the HDF5 files `h5`:
      a missing source, or a destination that is the source itself. */
  function CopyError(src: string, dst: string, h5: map<string, H5Content>): Option<Failure> {
    if src !in h5 then Some(PythonError("FileNotFoundError", "No such file or directory: '" + src + "'"))
    else if src == dst then Some(PythonError("SameFileError", "'" + src + "' and '" + dst + "' are the same file"))
    else None
  }

  class Disk {
    var h5: map<string, H5Content>
    var npy: map<string, Mask>
    var others: set<string>

    constructor (h5: map<string, H5Content>, npy: map<string, Mask>, others: set<string>)
      ensures this.h5 == h5 && this.npy == npy && this.others == others
    {
      this.h5 := h5;
      this.npy := npy;
      this.others := others;
    }

    /** `os.path.exists`. */
    predicate Exists(path: string)
      reads this
    {
      path in h5 || path in npy || path in others
    }

    /** `np.save(path, mask)` on a path that already ends in `.npy`. */
    method SaveMask(path: string, mask: Mask)
      modifies this
      ensures npy == old(npy)[path := mask]
      ensures h5 == old(h5) && others == old(others)
    {
      npy := npy[path := mask];
    }

    /** A file written by code outside this model (the GeoTIFF producer's
        `rasterio.open(path, "w")`), known only to exist afterwards. */
    method WriteOther(path: string)
      modifies this
      ensures others == old(others) + {path}
      ensures h5 == old(h5) && npy == old(npy)
    {
      others := others + {path};
    }

    /** `shutil.copy(src, dst)` of an HDF5 file to a file path. */
    method CopyH5(src: string, dst: string) returns (err: Option<Failure>)
      modifies this
      ensures err == CopyError(src, dst, old(h5))
      ensures err.None? <==> src in old(h5) && src != dst
      ensures err.Some? ==> err.value.PythonError?
      ensures err.None? ==> h5 == old(h5)[dst := old(h5)[src]]
      ensures err.Some? ==> h5 == old(h5)
      ensures npy == old(npy) && others == old(others)
    {
      if src !in h5 {
        return Some(PythonError("FileNotFoundError", "No such file or directory: '" + src + "'"));
      }
      if src == dst {
        return Some(PythonError("SameFileError", "'" + src + "' and '" + dst + "' are the same file"));
      }
      h5 := h5[dst := h5[src]];
      return None;
    }
  }
}
