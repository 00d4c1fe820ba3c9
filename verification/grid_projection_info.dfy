/** The earlier projection helpers (GridProjectionInfo.py), which the
    top-level H5MaskFill.py still uses: the same computations as
    H5GridProjectionInfo without its CF-compliance checks, so a missing
    attribute surfaces as whatever Python error the access raises. */
module GridProjectionInfo {
  import opened Wrappers
  import opened Strings
  import opened Hdf
  import opened Foreign
  import Geometry
  import H5 = H5GridProjectionInfo

  /** `get_dimension_datasets`: `None` for a dataset without a
      DIMENSION_LIST, otherwise the result of the loop. */
  function DimensionDatasets(file: map<string, Dataset>, key: string): (r: Result<Option<(string, string)>, Failure>)
    requires key in file
    ensures "DIMENSION_LIST" !in file[key].attrs <==> r == Success(None)
    ensures r.Failure? ==> r.error.PythonError?
    ensures r.Success? && r.value.Some? ==>
              r.value.value.0 in file && r.value.value.1 in file && |file[key].shape| >= 2
              && |file[r.value.value.0].data| == file[key].shape[1]
              && |file[r.value.value.1].data| == file[key].shape[0]
  {
    var ds := file[key];
    if "DIMENSION_LIST" !in ds.attrs then Success(None)
    else
      match ds.attrs["DIMENSION_LIST"]
      case References(refs) =>
        var dims :- DimensionsFromList(file, refs, ds.shape);
        Success(Some(dims))
      case _ => Failure(PythonError("TypeError", "DIMENSION_LIST does not hold object references"))
  }

  method GetDimensionDatasets(file: map<string, Dataset>, key: string) returns (r: Result<Option<(string, string)>, Failure>)
    requires key in file
    ensures r == DimensionDatasets(file, key)
  {
    var ds := file[key];
    if "DIMENSION_LIST" !in ds.attrs {
      return Success(None);
    }
    var dimList := ds.attrs["DIMENSION_LIST"];
    if !dimList.References? {
      return Failure(PythonError("TypeError", "DIMENSION_LIST does not hold object references"));
    }
    var dims := SelectDimensions(file, dimList.refs, ds.shape);
    if dims.Failure? {
      return Failure(dims.error);
    }
    return Success(Some(dims.value));
  }

  /** `get_dimension_arrays`: unpacking `None` raises TypeError. */
  function DimensionArrays(file: map<string, Dataset>, key: string): (r: Result<(seq<real>, seq<real>), Failure>)
    requires key in file
    ensures r.Failure? ==> r.error.PythonError?
    ensures r.Success? <==> DimensionDatasets(file, key).Success? && DimensionDatasets(file, key).value.Some?
    ensures r.Success? ==> r.value == (file[DimensionDatasets(file, key).value.value.0].data,
                                       file[DimensionDatasets(file, key).value.value.1].data)
  {
    var dims :- DimensionDatasets(file, key);
    if dims.None? then Failure(PythonError("TypeError", "cannot unpack non-iterable NoneType object"))
    else Success((file[dims.value.0].data, file[dims.value.1].data))
  }

  function GetCellSize(file: map<string, Dataset>, key: string): (r: Result<(real, real), Failure>)
    requires key in file
    ensures r.Failure? ==> r.error.PythonError?
    ensures r.Success? <==> DimensionArrays(file, key).Success?
                            && Geometry.Gridded(DimensionArrays(file, key).value.0, DimensionArrays(file, key).value.1)
    ensures r.Success? ==> r.value == Geometry.CellSize(DimensionArrays(file, key).value.0, DimensionArrays(file, key).value.1)
  {
    var (x, y) :- DimensionArrays(file, key);
    if !Geometry.Gridded(x, y) then Failure(PythonError("IndexError", "index 1 is out of bounds for axis 0"))
    else Success(Geometry.CellSize(x, y))
  }

  function GetCornerPoints(file: map<string, Dataset>, key: string): (r: Result<Geometry.Corners, Failure>)
    requires key in file
    ensures r.Success? <==> GetCellSize(file, key).Success?
    ensures r.Success? ==> r.value == Geometry.CornerPoints(DimensionArrays(file, key).value.0, DimensionArrays(file, key).value.1)
  {
    var (x, y) :- DimensionArrays(file, key);
    var _ :- GetCellSize(file, key);
    Success(Geometry.CornerPoints(x, y))
  }

  function GetTransform(file: map<string, Dataset>, key: string): (r: Result<Geometry.Affine, Failure>)
    requires key in file
    ensures r.Failure? ==> r.error.PythonError?
    ensures r.Success? <==> GetCellSize(file, key).Success?
    ensures r.Success? ==> r.value == Geometry.GridTransform(DimensionArrays(file, key).value.0, DimensionArrays(file, key).value.1)
  {
    var (w, h) :- GetCellSize(file, key);
    var c := GetCornerPoints(file, key).value;
    Success(Geometry.Affine(w, 0.0, c.xMin, 0.0, h, c.yMax))
  }

  /** `get_proj4`: `lat_ts` is always set from the CF `standard_parallel`,
      so a grid mapping without one raises KeyError. */
  function GetProj4(gridMapping: Dataset, calls: Calls): (r: Result<string, Failure>)
    ensures r.Failure? ==> !r.error.CFComplianceError?
    ensures calls.cfToCrsDict(Decoded(gridMapping.attrs, calls.utf8)).Success?
            && "standard_parallel" !in gridMapping.attrs
            ==> r == Failure(PythonError("KeyError", "standard_parallel"))
    ensures var cf := Decoded(gridMapping.attrs, calls.utf8);
            calls.cfToCrsDict(cf).Failure? ==> r == Failure(Lift(calls.cfToCrsDict(cf)).error)
    ensures var cf := Decoded(gridMapping.attrs, calls.utf8);
            calls.cfToCrsDict(cf).Success? && "standard_parallel" in cf
            ==> r == Lift(calls.crsDictToProj4(calls.cfToCrsDict(cf).value["lat_ts" := cf["standard_parallel"]]))
  {
    var cf := Decoded(gridMapping.attrs, calls.utf8);
    var d :- Lift(calls.cfToCrsDict(cf));
    if "standard_parallel" !in cf then Failure(PythonError("KeyError", "standard_parallel"))
    else Lift(calls.crsDictToProj4(d["lat_ts" := cf["standard_parallel"]]))
  }

  /** `get_hdf_proj4` without the compliance checks: `units` and
      `grid_mapping` are read unconditionally. */
  function GetHdfProj4(file: map<string, Dataset>, key: string, calls: Calls): (r: Result<string, Failure>)
    requires key in file
    ensures r.Failure? ==> !r.error.CFComplianceError?
  {
    var dims :- DimensionDatasets(file, key);
    if dims.None? then Failure(PythonError("TypeError", "'NoneType' object is not subscriptable"))
    else
      var xAttrs := file[dims.value.0].attrs;
      if "units" !in xAttrs then Failure(PythonError("KeyError", "units"))
      else if !xAttrs["units"].Bytes? then
        Failure(PythonError("AttributeError", "'str' object has no attribute 'decode'"))
      else if Contains(calls.utf8(xAttrs["units"].bytes), "degrees") then
        Success(GEOGRAPHIC_PROJ4)
      else if "grid_mapping" !in file[key].attrs then Failure(PythonError("KeyError", "grid_mapping"))
      else
        var name :- H5.AttrName(file[key].attrs["grid_mapping"], calls);
        if name !in file then Failure(PythonError("KeyError", "Unable to open object " + name))
        else GetProj4(file[name], calls)
  }

  /** Where the CF-checking module reports a compliance error, this module
      fails too, with a plain Python error in place of the compliance error. */
  lemma ComplianceErrorsBecomePythonErrors(file: map<string, Dataset>, key: string, calls: Calls)
    requires key in file
    requires H5.GetHdfProj4(file, key, calls).Failure? && H5.GetHdfProj4(file, key, calls).error.CFComplianceError?
    ensures GetHdfProj4(file, key, calls).Failure? && GetHdfProj4(file, key, calls).error.PythonError?
  {
    if "DIMENSION_LIST" in file[key].attrs {
      SameDimensions(file, key);
    }
  }

  /** On a dataset with a DIMENSION_LIST both modules select the same scales
      and fail the same way. */
  lemma SameDimensions(file: map<string, Dataset>, key: string)
    requires key in file && "DIMENSION_LIST" in file[key].attrs
    ensures H5.DimensionDatasets(file, key).Success? <==> DimensionDatasets(file, key).Success?
    ensures H5.DimensionDatasets(file, key).Success? ==> DimensionDatasets(file, key) == Success(Some(H5.DimensionDatasets(file, key).value))
    ensures H5.DimensionDatasets(file, key).Failure? ==> DimensionDatasets(file, key).error == H5.DimensionDatasets(file, key).error
  {
  }

  /** Both modules compute the same transform whenever either does; only the
      CF-checking one fails without a DIMENSION_LIST with a compliance error. */
  lemma SameTransform(file: map<string, Dataset>, key: string)
    requires key in file
    ensures GetTransform(file, key).Success? <==> H5.GetTransform(file, key).Success?
    ensures GetTransform(file, key).Success? ==> GetTransform(file, key) == H5.GetTransform(file, key)
  {
    if "DIMENSION_LIST" in file[key].attrs {
      SameDimensions(file, key);
    }
  }

  /** When both modules produce a proj4 string for a grid mapping whose CRS
      dictionary carries a standard parallel, they produce the same one. */
  lemma SameProj4WithStandardParallel(gridMapping: Dataset, calls: Calls)
    requires var cf := Decoded(gridMapping.attrs, calls.utf8);
             calls.cfToCrsDict(cf).Success? && "standard_parallel" in calls.cfToCrsDict(cf).value
    ensures GetProj4(gridMapping, calls) == H5.GetProj4(gridMapping, calls)
  {
  }

  /** Where the two modules part: a CRS dictionary without a standard
      parallel. This module still sets `lat_ts` from the CF attributes, or
      raises KeyError without them; the CF-checking module converts the
      dictionary as it is. */
  lemma Proj4WithoutCrsStandardParallel(gridMapping: Dataset, calls: Calls)
    requires var cf := Decoded(gridMapping.attrs, calls.utf8);
             calls.cfToCrsDict(cf).Success? && "standard_parallel" !in calls.cfToCrsDict(cf).value
    ensures var cf := Decoded(gridMapping.attrs, calls.utf8);
            var d := calls.cfToCrsDict(cf).value;
            && H5.GetProj4(gridMapping, calls) == Lift(calls.crsDictToProj4(d))
            && ("standard_parallel" in cf ==>
                  GetProj4(gridMapping, calls) == Lift(calls.crsDictToProj4(d["lat_ts" := cf["standard_parallel"]])))
            && ("standard_parallel" !in cf ==>
                  GetProj4(gridMapping, calls) == Failure(PythonError("KeyError", "standard_parallel")))
  {
  }

  /** Where the CF-checking module finds the x units in degrees, this module
      gives the same geographic proj4 string. */
  lemma SameGeographicProj4(file: map<string, Dataset>, key: string, calls: Calls)
    requires key in file
    requires H5.XUnits(file, key).Some? && H5.InDegrees(H5.XUnits(file, key).value, calls)
    ensures GetHdfProj4(file, key, calls) == H5.GetHdfProj4(file, key, calls) == Success(GEOGRAPHIC_PROJ4)
  {
    SameDimensions(file, key);
  }
}
