/** The CF-checking projection helpers (H5GridProjectionInfo.py): where the
    grid of an HDF5 dataset lies, read from its dimension scales and its
    grid mapping, with CFComplianceError for the conventions it relies on.

    A dataset is named by its key in the file's object store `file`. */
module H5GridProjectionInfo {
  import opened Wrappers
  import opened Strings
  import opened Hdf
  import opened Foreign
  import Geometry

  /** The (x, y) dimension scales of the dataset: x the last listed scale as
      long as a row, y the last as long as a column. A dataset without a
      DIMENSION_LIST is not CF compliant. */
  function DimensionDatasets(file: map<string, Dataset>, key: string): (r: Result<(string, string), Failure>)
    requires key in file
    ensures r.Failure? && r.error.CFComplianceError? <==> "DIMENSION_LIST" !in file[key].attrs
    ensures r.Success? ==> r.value.0 in file && r.value.1 in file && |file[key].shape| >= 2
                           && |file[r.value.0].data| == file[key].shape[1]
                           && |file[r.value.1].data| == file[key].shape[0]
  {
    var ds := file[key];
    if "DIMENSION_LIST" !in ds.attrs then
      Failure(CFComplianceError("The dataset " + key + " does not have a DIMENSION_LIST attribute"))
    else
      match ds.attrs["DIMENSION_LIST"]
      case References(refs) => DimensionsFromList(file, refs, ds.shape)
      case _ => Failure(PythonError("TypeError", "DIMENSION_LIST does not hold object references"))
  }

  /** `get_dimension_datasets`: the DIMENSION_LIST check, then the loop. */
  method GetDimensionDatasets(file: map<string, Dataset>, key: string) returns (r: Result<(string, string), Failure>)
    requires key in file
    ensures r == DimensionDatasets(file, key)
  {
    var ds := file[key];
    if "DIMENSION_LIST" !in ds.attrs {
      return Failure(CFComplianceError("The dataset " + key + " does not have a DIMENSION_LIST attribute"));
    }
    var dimList := ds.attrs["DIMENSION_LIST"];
    if !dimList.References? {
      return Failure(PythonError("TypeError", "DIMENSION_LIST does not hold object references"));
    }
    r := SelectDimensions(file, dimList.refs, ds.shape);
  }

  /** `get_dimension_arrays`: the coordinate values of the x and y scales. */
  function DimensionArrays(file: map<string, Dataset>, key: string): (r: Result<(seq<real>, seq<real>), Failure>)
    requires key in file
    ensures r.Success? <==> DimensionDatasets(file, key).Success?
    ensures r.Success? ==> r.value == (file[DimensionDatasets(file, key).value.0].data,
                                       file[DimensionDatasets(file, key).value.1].data)
  {
    var (xKey, yKey) :- DimensionDatasets(file, key);
    Success((file[xKey].data, file[yKey].data))
  }

  /** `get_cell_size`: the steps between the first two coordinates; an axis
      with fewer than two coordinates raises IndexError. */
  function GetCellSize(file: map<string, Dataset>, key: string): (r: Result<(real, real), Failure>)
    requires key in file
    ensures r.Success? <==> DimensionArrays(file, key).Success?
                            && Geometry.Gridded(DimensionArrays(file, key).value.0, DimensionArrays(file, key).value.1)
    ensures r.Success? ==> r.value == Geometry.CellSize(DimensionArrays(file, key).value.0, DimensionArrays(file, key).value.1)
  {
    var (x, y) :- DimensionArrays(file, key);
    if !Geometry.Gridded(x, y) then Failure(PythonError("IndexError", "index 1 is out of bounds for axis 0"))
    else Success(Geometry.CellSize(x, y))
  }

  /** `get_corner_points`: the grid edges half a cell beyond the outermost
      coordinates. */
  function GetCornerPoints(file: map<string, Dataset>, key: string): (r: Result<Geometry.Corners, Failure>)
    requires key in file
    ensures r.Success? <==> GetCellSize(file, key).Success?
    ensures r.Success? ==> r.value == Geometry.CornerPoints(DimensionArrays(file, key).value.0, DimensionArrays(file, key).value.1)
  {
    var (x, y) :- DimensionArrays(file, key);
    var _ :- GetCellSize(file, key);
    Success(Geometry.CornerPoints(x, y))
  }

  /** `get_transform`: `Affine(w, 0, x_min, 0, h, y_max)`. */
  function GetTransform(file: map<string, Dataset>, key: string): (r: Result<Geometry.Affine, Failure>)
    requires key in file
    ensures r.Success? <==> GetCellSize(file, key).Success?
    ensures r.Success? ==> r.value == Geometry.GridTransform(DimensionArrays(file, key).value.0, DimensionArrays(file, key).value.1)
  {
    var (w, h) :- GetCellSize(file, key);
    var c := GetCornerPoints(file, key).value;
    Success(Geometry.Affine(w, 0.0, c.xMin, 0.0, h, c.yMax))
  }

  /** An attribute naming another object: text as it is, bytes decoded. */
  function AttrName(v: AttrValue, calls: Calls): (r: Result<string, Failure>)
    ensures r.Failure? ==> r.error.PythonError?
  {
    match v
    case Text(s) => Success(s)
    case Bytes(b) => Success(calls.utf8(b))
    case _ => Failure(PythonError("TypeError", "grid_mapping does not name an object"))
  }

  /** `get_proj4`: the decoded CF parameters of the grid mapping go through
      the CRS library; when the library's dictionary has a standard
      parallel, `lat_ts` is set from the CF parameter of that name. The
      CRS library is a parameter, so a failure here is never a
      CF-compliance error. */
  function GetProj4(gridMapping: Dataset, calls: Calls): (r: Result<string, Failure>)
    ensures r.Failure? ==> !r.error.CFComplianceError?
    ensures var cf := Decoded(gridMapping.attrs, calls.utf8);
            calls.cfToCrsDict(cf).Success? && "standard_parallel" !in calls.cfToCrsDict(cf).value
            ==> r == Lift(calls.crsDictToProj4(calls.cfToCrsDict(cf).value))
    ensures var cf := Decoded(gridMapping.attrs, calls.utf8);
            calls.cfToCrsDict(cf).Success? && "standard_parallel" in calls.cfToCrsDict(cf).value
            && "standard_parallel" in cf
            ==> r == Lift(calls.crsDictToProj4(calls.cfToCrsDict(cf).value["lat_ts" := cf["standard_parallel"]]))
  {
    var cf := Decoded(gridMapping.attrs, calls.utf8);
    var d :- Lift(calls.cfToCrsDict(cf));
    if "standard_parallel" in d then
      if "standard_parallel" in cf then Lift(calls.crsDictToProj4(d["lat_ts" := cf["standard_parallel"]]))
      else Failure(PythonError("KeyError", "standard_parallel"))
    else Lift(calls.crsDictToProj4(d))
  }

  /** The `units` attribute of the x dimension scale, once the scales resolve. */
  function XUnits(file: map<string, Dataset>, key: string): Option<AttrValue>
    requires key in file
  {
    match DimensionDatasets(file, key)
    case Success((xKey, _)) => if "units" in file[xKey].attrs then Some(file[xKey].attrs["units"]) else None
    case Failure(_) => None
  }

  /** Whether the x units, decoded, mention degrees. */
  predicate InDegrees(units: AttrValue, calls: Calls) {
    units.Bytes? && Contains(calls.utf8(units.bytes), "degrees")
  }

  /** `get_hdf_proj4`: units of the x scale in degrees give the geographic
      string; otherwise the dataset's grid mapping decides. A CF-compliance
      error is raised exactly when the dataset has no DIMENSION_LIST, its x
      scale has no `units`, or a grid not in degrees has no `grid_mapping`. */
  function GetHdfProj4(file: map<string, Dataset>, key: string, calls: Calls): (r: Result<string, Failure>)
    requires key in file
    ensures XUnits(file, key).Some? && InDegrees(XUnits(file, key).value, calls) ==> r == Success(GEOGRAPHIC_PROJ4)
    ensures (r.Failure? && r.error.CFComplianceError?) <==>
            ("DIMENSION_LIST" !in file[key].attrs
             || (DimensionDatasets(file, key).Success? && XUnits(file, key).None?)
             || (XUnits(file, key).Some? && XUnits(file, key).value.Bytes?
                 && !InDegrees(XUnits(file, key).value, calls) && "grid_mapping" !in file[key].attrs))
  {
    var (xKey, _) :- DimensionDatasets(file, key);
    var xAttrs := file[xKey].attrs;
    if "units" !in xAttrs then
      Failure(CFComplianceError("The dataset " + key + " does not have a units attribute"))
    else if !xAttrs["units"].Bytes? then
      Failure(PythonError("AttributeError", "'str' object has no attribute 'decode'"))
    else if Contains(calls.utf8(xAttrs["units"].bytes), "degrees") then
      Success(GEOGRAPHIC_PROJ4)
    else if "grid_mapping" !in file[key].attrs then
      Failure(CFComplianceError("The dataset is not geographically gridded and does not have a grid mapping attribute"))
    else
      var name :- AttrName(file[key].attrs["grid_mapping"], calls);
      if name !in file then Failure(PythonError("KeyError", "Unable to open object " + name))
      else GetProj4(file[name], calls)
  }
}
