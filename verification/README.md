# Mask-Fill, modelled in Dafny

Mask-Fill is a command-line utility. It takes a gridded data file and an ESRI
shapefile and writes a copy of the data in which every pixel outside the
shapes holds a fill value. This model covers the HDF5 path, from the
`mask_fill` entry point down to the per-dataset rewrite:

- **Parameters.** Command-line options, their defaults and
  `validate_input_parameters` (`mask_fill_utility.dfy`).
- **Responses.** The ESI XML success and exception responses, modelled as a
  `Response` datatype, and the `try`/`except` that picks one
  (`mask_fill_utility.dfy`).
- **HDF5 processing, two versions.** `produce_masked_hdf` exists twice:
  - the top-level H5MaskFill.py, which the utility calls
    (`h5_mask_fill.dfy`);
  - pymods/H5MaskFill.py (`pymods_h5_mask_fill.dfy`).
- **Shared walk.** Both versions share `h5_processing.dfy`:
  - the recursive `process_file` walk over the groups of an HDF5 file;
  - `mask_fill` of one dataset, with its statistics update;
  - the memo of mask grids (`saved_mask_arrays`) and `get_mask_array`.

  One `Settings.variant` field says which projection module and which cache
  rules are in force.
- **Caching.** pymods/MaskFillCaching.py (`mask_fill_caching.dfy`):
  - the six MASK_GRID_CACHE policies;
  - the SHA-224 mask id and the `<cache_dir>/<id>.npy` cache file name;
  - reading and writing cached mask grids.
- **Projection helpers, two versions.** Both read the grid's CF metadata:
  - H5GridProjectionInfo.py (`h5_grid_projection_info.dfy`) raises
    `CFComplianceError`;
  - the older GridProjectionInfo.py (`grid_projection_info.dfy`) never does.

  Both use the grid geometry in `geometry.dfy` (cell size, corner points,
  affine transform) and the dimension-scale lookup in `hdf.dfy`.

**State and foreign calls.**

- The file system is a `Disk` object (`filesystem.dfy`). It holds HDF5
  contents by path, saved `.npy` mask grids by path, and the other existing
  paths.
- An opened HDF5 file is an `H5File` object whose dataset map the walk
  rewrites in place.
- The memo is a `MaskMemo` object shared by every `mask_fill` of a run.
- Code outside the model is a set of function-valued parameters
  (`Foreign.Calls`): hashing, pyproj, the MaskFill module, NumPy's mean,
  `str` of an affine transform or a shape, and the GeoTIFF branch. A
  failing call raises an exception, modelled as `Raised(repr)`.

**Main proved properties.**

- Cache policies:
  - The table of the six policies (`PolicyTable`).
  - The two save rules differ exactly on `use_cache` (`SaveRulesDiffer`).
  - Distinct mask ids get distinct cache files (`MaskArrayPathsInjective`).
- Grid geometry:
  - The transform maps every pixel centre onto its own coordinates
    (`CentresAreCoordinates`).
  - The corner points span whole cells (`ExtentIsWholeCells`).
- The walk:
  - It visits exactly the datasets reachable from the root
    (`WalkVisitsReachableDatasets`).
  - The looping, in-place `ProcessChildren` agrees with the functional
    `Walk`.
  - A dataset that is not walked is untouched (`WalkFrame`).
  - The memo only grows (`WalkMemoGrows`).
  - `maskgrid_only` leaves the modelled datasets and links of the input
    file unchanged, though h5py opens it for update (`MaskgridOnlyKeepsInput`).
  - After a walk without an exception, every two-dimensional dataset it
    visited has its mask in the memo (`WalkStoresMasks`), so a
    `maskgrid_only` run caches a mask file for each of them
    (`MaskgridOnlyCachesEveryGrid`).
  - Datasets on the same grid share one mask id and one memo entry
    (`SameGridSharesMask`).
- Whole runs:
  - Each `produce_masked_hdf` leaves exactly the files and result of a
    function of the disk (`Produce`). It succeeds exactly when the input
    exists, the copy succeeds and the walk raises nothing. It never alters
    the input, and it leaves the mask files alone after an exception
    (`ProduceOutcomes`). This holds on a disk without directories; see
    "Left out" for the failures a missing directory adds.
  - The utility's `mask_fill` is specified case by case: each validation
    response, the GeoTIFF producer's result and the file it writes, and
    the HDF5 run (`MaskFillUtility.MaskFill`, `HdfResponses`).
- The two module versions:
  - They compute the same dimension scales (`SameDimensions`) and transform
    (`SameTransform`).
  - They compute the same proj4 string whenever the CRS has a standard
    parallel (`SameProj4WithStandardParallel`). Where the CRS has none, the
    top-level module still sets `lat_ts` from the CF attributes, or raises
    KeyError without them. The CF-checking module converts the CRS as it
    is (`Proj4WithoutCrsStandardParallel`).
- Cache files: `SaveMaskArrays` leaves exactly the memo's masks in the cache
  directory and changes no other file (`WrittenFiles`).

**The CF-compliance response cannot occur for HDF5 input.** The HDF5 branch
of the utility never produces the "does not follow CF conventions" response:

- The utility calls the top-level H5MaskFill.py (MaskFillUtility.py:61-63).
- That module consults only GridProjectionInfo.py, which raises
  `KeyError`/`TypeError` where the pymods version raises `CFComplianceError`.
- `TopLevelWalkNeverCompliance` proves this for the walk,
  `MaskedHdfNeverCompliance` for the whole run, and `HdfResponses` for the
  utility's response.

So the `except CFComplianceError` branch (MaskFillUtility.py:66-68) is dead
in the code modelled here:

- The utility imports only the top-level H5MaskFill (MaskFillUtility.py:7,
  61-63), and GeotiffMaskFill.py does not import the projection module.
- Only the pymods version can raise a compliance error. For example, it
  reports a two-dimensional dataset without `DIMENSION_LIST`
  (`PymodsReportsMissingDimensionList`).
- Even there the class differs: pymods/H5MaskFill.py:4 imports
  `pymods.H5GridProjectionInfo`, while the utility catches the class of the
  top-level H5GridProjectionInfo (MaskFillUtility.py:8).

## Model

| member | source | states |
|---|---|---|
| Strings.Lower | MaskFillUtility.py:56 | `str.lower()` keeps the length and lowers each character (ASCII letters) |
| Strings.MatchesAtIsSlice | pymods/MaskFillCaching.py:22 | the character-by-character match used for `in` is the comparison of the slice of `s` from `i+j` to the end of the window with the rest of `sub` |
| Strings.ContainsFromIsWindow | pymods/MaskFillCaching.py:81 | Python's `sub in s` holds iff `sub` occurs as a contiguous window of `s`, both directions |
| Strings.MissingCharNotContained | pymods/MaskFillCaching.py:81 | a policy string lacking one character of a word does not contain the word, so the substring test is false |
| Strings.PathJoin | pymods/MaskFillCaching.py:69-70 | `os.path.join(dir, name)` ends with `name`; an absolute name replaces the directory; otherwise the result is the directory, a separator when needed, then the name |
| Hdf.DatasetsOfFirstMembers | pymods/H5MaskFill.py:48-55 | a dataset is among those listed below a group's first `i` links iff one of those links leads to it |
| Hdf.DatasetsAreReachable | pymods/H5MaskFill.py:48-55 | the walk order lists exactly the datasets reachable from the group by some path of links |
| Hdf.Decoded | H5GridProjectionInfo.py:83-85 | after `decode_bytes` the keys are unchanged, no value is `bytes`, each `bytes` value became its decoded text, and every other value is unchanged |
| Hdf.DecodedIdempotent | H5GridProjectionInfo.py:83-85 | decoding an already decoded dictionary changes nothing |
| Hdf.AttrDict.constructor | H5GridProjectionInfo.py:69 | `dict(grid_mapping.attrs)` holds exactly the attributes |
| Hdf.AttrDict.DecodeBytes | GridProjectionInfo.py:71-73 | the in-place loop over the keys leaves the dictionary equal to `Decoded` of its old contents |
| Hdf.FirstUnresolved | H5GridProjectionInfo.py:53-54 | none iff every DIMENSION_LIST reference resolves; otherwise the first reference that does not, with all before it resolving |
| Hdf.LastWithLength | H5GridProjectionInfo.py:55-56 | none iff no scale has the given length; otherwise the last one that has it, the value a reassigned loop variable ends with |
| Hdf.DimensionsFromList | H5GridProjectionInfo.py:52-57 | on success the shape has rank at least 2 and x and y are listed, resolving scales whose lengths are the column and row counts; every failure is an ordinary Python exception (KeyError, IndexError, UnboundLocalError) |
| Hdf.SelectDimensions | GridProjectionInfo.py:41-45 | the loop over DIMENSION_LIST returns exactly `DimensionsFromList` |
| Hdf.FirstUnresolvedAt | H5GridProjectionInfo.py:53-54 | a reference that fails to resolve after resolving ones is the first unresolved one |
| Hdf.SquareGridSharesScale | H5GridProjectionInfo.py:55-56 | on a square grid the same scale is chosen for x and y |
| Hdf.FillValue | H5MaskFill.py:177-179 | the dataset's numeric `_FillValue` when present, else the default; also models `get_fill_value` of H5GridProjectionInfo.py:159-163, the same function |
| Geometry.CornerPoints | H5GridProjectionInfo.py:126-133 | the x extent is the coordinate span plus one cell width; the y extent is the span minus one cell height |
| Geometry.GridTransform | H5GridProjectionInfo.py:97-100 | no rotation or shear, scale equal to the cell size, and image origin (0,0) at (x_min, y_max) |
| Geometry.PixelCentre | H5GridProjectionInfo.py:97-100 | the centre of pixel (col,row) lands at the first coordinate plus col (row) cell steps |
| Geometry.CentresAreCoordinates | H5GridProjectionInfo.py:112-133 | on evenly spaced scales every pixel centre maps to its own dimension coordinates |
| Geometry.ExtentIsWholeCells | H5GridProjectionInfo.py:126-133 | on evenly spaced scales the corner points span exactly the number of cells, and the far image corner maps to (x_max, y_min) |
| Foreign.Lift | pymods/H5MaskFill.py:157-161 | a foreign call's exception becomes a raised failure carrying its repr; a result passes through |
| FileSystem.Disk.constructor | MaskFillUtility.py:119-121 | the disk holds the given files |
| FileSystem.Disk.SaveMask | pymods/MaskFillCaching.py:76 | `np.save` writes the mask at the path and changes no other file |
| FileSystem.Disk.CopyH5 | pymods/H5MaskFill.py:31 | the error is `CopyError` of the old files; on a disk without directories, `shutil.copy` succeeds iff the source exists and its path differs from the destination's (FileNotFoundError, SameFileError otherwise); on success the destination holds the source's contents, on failure nothing changes |
| FileSystem.Disk.WriteOther | GeotiffMaskFill.py:36-37 | the file `rasterio.open(path, "w")` writes is added to the other paths, and no HDF5 or mask file changes |
| H5GridProjectionInfo.DimensionDatasets | H5GridProjectionInfo.py:47-57 | a CF-compliance error iff there is no DIMENSION_LIST; on success both scales exist and the dataset has rank at least 2 |
| H5GridProjectionInfo.GetDimensionDatasets | H5GridProjectionInfo.py:47-57 | the method's result is `DimensionDatasets` |
| H5GridProjectionInfo.DimensionArrays | H5GridProjectionInfo.py:144-146 | succeeds iff the scales are found, and then gives the x and y scale values |
| H5GridProjectionInfo.GetCellSize | H5GridProjectionInfo.py:112-115 | succeeds iff both scales have two values, and then is the step between the first two coordinates |
| H5GridProjectionInfo.GetCornerPoints | H5GridProjectionInfo.py:126-133 | succeeds iff the cell size does, and then is `CornerPoints` of the scales |
| H5GridProjectionInfo.GetTransform | H5GridProjectionInfo.py:97-100 | succeeds iff the cell size does, and then is `GridTransform` of the scales |
| H5GridProjectionInfo.AttrName | H5GridProjectionInfo.py:33-34 | an attribute naming an object fails only with an ordinary Python exception |
| H5GridProjectionInfo.GetProj4 | H5GridProjectionInfo.py:68-75 | never a compliance error; the CRS dictionary of the decoded CF parameters gets `lat_ts` from `standard_parallel` only when it has a `standard_parallel` key |
| H5GridProjectionInfo.GetHdfProj4 | H5GridProjectionInfo.py:19-35 | x units mentioning degrees give the geographic proj4 string; a compliance error iff DIMENSION_LIST is missing, or the x scale has no `units`, or the units are not in degrees and there is no `grid_mapping` |
| GridProjectionInfo.DimensionDatasets | GridProjectionInfo.py:35-45 | `None` iff there is no DIMENSION_LIST; failures are ordinary Python exceptions; when found, both scales exist |
| GridProjectionInfo.GetDimensionDatasets | GridProjectionInfo.py:35-45 | the method's result is `DimensionDatasets` |
| GridProjectionInfo.DimensionArrays | GridProjectionInfo.py:132-134 | unpacking a missing result raises; succeeds iff scales were found, and then gives their values |
| GridProjectionInfo.GetCellSize | GridProjectionInfo.py:100-103 | succeeds iff both scales have two values; then it is the first step of each axis; failures are ordinary exceptions |
| GridProjectionInfo.GetCornerPoints | GridProjectionInfo.py:114-121 | succeeds iff the cell size does, and then is `CornerPoints` of the scales |
| GridProjectionInfo.GetTransform | GridProjectionInfo.py:85-88 | succeeds iff the cell size does, and then is `GridTransform`; failures are ordinary exceptions |
| GridProjectionInfo.GetProj4 | GridProjectionInfo.py:56-63 | never a compliance error; a failing CRS conversion is raised; a grid mapping without a `standard_parallel` attribute raises KeyError once its CRS is built, since `lat_ts` is set unconditionally; otherwise the proj4 string of the CRS dictionary with `lat_ts` set to the decoded `standard_parallel` |
| GridProjectionInfo.GetHdfProj4 | GridProjectionInfo.py:13-23 | never a compliance error |
| GridProjectionInfo.ComplianceErrorsBecomePythonErrors | GridProjectionInfo.py:13-23 | wherever the CF-checking module raises a compliance error, this one raises an ordinary Python exception |
| GridProjectionInfo.SameDimensions | GridProjectionInfo.py:38-45 | with a DIMENSION_LIST both modules succeed together, choose the same scales and fail with the same error |
| GridProjectionInfo.SameTransform | GridProjectionInfo.py:85-88 | both modules compute a transform together, and the same one |
| GridProjectionInfo.SameProj4WithStandardParallel | GridProjectionInfo.py:56-63 | for a CRS with `standard_parallel` both modules give the same proj4 result |
| GridProjectionInfo.Proj4WithoutCrsStandardParallel | GridProjectionInfo.py:56-63 | for a CRS without `standard_parallel`, the CF-checking module (H5GridProjectionInfo.py:68-75) converts the CRS unchanged, while this module adds `lat_ts` from the CF attributes or raises KeyError when they lack it |
| GridProjectionInfo.SameGeographicProj4 | GridProjectionInfo.py:13-19 | where the CF-checking module finds x units in degrees, both modules return the geographic proj4 string |
| MaskFillCaching.PolicyTable | pymods/MaskFillCaching.py:8-13 | on the six values: cache read for the three `use` policies; saved by `cache_mask_array` for ignore_and_save, use_and_save, maskgrid_only; kept by `cache_mask_arrays` for those and use_cache |
| MaskFillCaching.IgnoreAndDeleteFlags | pymods/MaskFillCaching.py:8 | `ignore_and_delete` contains `delete` only |
| MaskFillCaching.IgnoreAndSaveFlags | pymods/MaskFillCaching.py:9 | `ignore_and_save` contains `save` only |
| MaskFillCaching.UseCacheFlags | pymods/MaskFillCaching.py:10 | `use_cache` contains `use` only |
| MaskFillCaching.UseAndSaveFlags | pymods/MaskFillCaching.py:11 | `use_and_save` contains `use` and `save` |
| MaskFillCaching.UseCacheDeleteFlags | pymods/MaskFillCaching.py:12 | `use_cache_delete` contains `use` and `delete` |
| MaskFillCaching.MaskgridOnlyFlags | pymods/MaskFillCaching.py:13 | `maskgrid_only` contains none of the three words |
| MaskFillCaching.MaskIdText | pymods/MaskFillCaching.py:47 | the id text starts with the proj4 string and ends with the shapefile path |
| MaskFillCaching.MaskArrayPathShape | pymods/MaskFillCaching.py:69-70 | the cache file is `<cache_dir>/<id>.npy`: it starts with the cache directory and ends with the id and `.npy` (the top-level module's `get_mask_array_path`, H5MaskFill.py:145-146, builds the same name) |
| MaskFillCaching.MaskArrayPathsInjective | pymods/MaskFillCaching.py:69-70 | the id can be read back from its cache file name, so distinct ids never share a file |
| MaskFillCaching.H5MaskArrayId | pymods/H5MaskFill.py:136-143 | succeeds iff the proj4 string and transform do, and is then `create_mask_array_id` of them, the data shape and the shapefile |
| MaskFillCaching.GetMaskArrayId | pymods/MaskFillCaching.py:27-33 | a string ending in `.tif` in any case goes to the GeoTIFF id; any other string fails; a dataset gets the HDF5 id |
| MaskFillCaching.GetMaskArrayPath | pymods/MaskFillCaching.py:54-57 | succeeds iff the id does, and is then the id's cache file |
| MaskFillCaching.GetCachedMaskArray | pymods/MaskFillCaching.py:18-24 | a mask iff the policy contains `use` and the cache file exists, and then the file's contents; fails iff the id does |
| MaskFillCaching.CacheMaskArray | pymods/MaskFillCaching.py:73-76 | under a saving policy the mask is written to its cache file (or the id's failure is returned); otherwise nothing changes |
| MaskFillCaching.WrittenFiles | pymods/MaskFillCaching.py:82-84 | after saving, the cache files are the old ones plus one per memo entry, each holding its mask, and every other file is unchanged |
| MaskFillCaching.Restrict | pymods/MaskFillCaching.py:82 | the memo entries whose ids were already saved, with their masks |
| MaskFillCaching.WrittenUpdate | pymods/MaskFillCaching.py:82-84 | saving one more memo entry writes exactly one more cache file |
| MaskFillCaching.SaveMaskArrays | pymods/MaskFillCaching.py:82-84 | the save loop leaves the cache files equal to `Written` of the memo, whatever the iteration order, and changes no HDF5 or other file |
| MaskFillCaching.CacheMaskArrays | pymods/MaskFillCaching.py:79-85 | a policy without `delete` saves every memo entry; one with it changes nothing |
| H5Processing.Transform | H5MaskFill.py:129 | either module's transform, when it succeeds, is the CF-checking module's transform |
| H5Processing.MaskArrayId | H5MaskFill.py:127-133 | succeeds iff the variant's proj4 string and transform do, and is then the SHA-224 digest of the id text |
| H5Processing.CreateMaskArray | pymods/H5MaskFill.py:155-161 | a mask is made only when proj4 and transform succeed, and it is the MaskFill module's mask for them, the shapefile and the data shape |
| H5Processing.GetMaskArrayCases | pymods/H5MaskFill.py:107-123 | the id's failure first; then the memo entry; then the cache file if the policy reads it; else a new mask; a found mask is stored under its id and nothing else in the memo changes |
| H5Processing.SameGridSharesMask | pymods/H5MaskFill.py:107-123 | two datasets with equal proj4 string, transform and shape get one mask id (pymods/MaskFillCaching.py:46-51); once the first has its mask, the second gets the same mask from the memo, which stays as it is |
| H5Processing.PymodsCacheLookup | pymods/H5MaskFill.py:116 | `get_cached_mask_array`, which recomputes the id, finds the same cache file |
| H5Processing.Unfilled | pymods/H5MaskFill.py:87 | holds exactly the values other than the fill value |
| H5Processing.Max | pymods/H5MaskFill.py:90 | Python's `max` is an element at least every element |
| H5Processing.Min | pymods/H5MaskFill.py:91 | Python's `min` is an element at most every element |
| H5Processing.UpdatedStatistics | pymods/H5MaskFill.py:89-92 | only existing `observed_*` attributes change, to the max, min and mean of the unfilled values; an empty selection with max or min present raises ValueError and changes nothing |
| H5Processing.Filled | H5MaskFill.py:91-104 | the filled dataset keeps its shape and attribute names |
| H5Processing.MaskFillStep | pymods/H5MaskFill.py:70-92 | only the dataset `key` changes; rank other than 2 is skipped; `maskgrid_only` writes no dataset; the shape is kept |
| H5Processing.MaskFillStepMask | pymods/H5MaskFill.py:72-77 | for a 2-D dataset a `get_mask_array` failure is raised with nothing changed; otherwise the memo becomes the one `get_mask_array` leaves |
| H5Processing.MaskFillWrites | pymods/H5MaskFill.py:81-92 | a successful fill writes MaskFill's data for the memo's mask and the fill value, and the written max/min bound every unfilled value |
| H5Processing.Walk | pymods/H5MaskFill.py:48-55 | the walk keeps the set of datasets |
| H5Processing.WalkAppend | pymods/H5MaskFill.py:49 | walking two lists is walking the first, then the second unless an exception stopped the first |
| H5Processing.WalkErrorPrefix | pymods/H5MaskFill.py:49 | an exception while walking the first list ends the walk of both lists there |
| H5Processing.WalkFrame | pymods/H5MaskFill.py:48-55 | a dataset the walk does not visit is unchanged |
| H5Processing.WalkMaskgridOnly | pymods/H5MaskFill.py:81 | under `maskgrid_only` the walk writes no dataset |
| H5Processing.StepMemoGrows | pymods/H5MaskFill.py:112-122 | one `mask_fill` keeps every memo entry |
| H5Processing.WalkMemoGrows | pymods/H5MaskFill.py:112-122 | the memo only grows over a walk: every stored mask stays |
| H5Processing.StepStoresMask | pymods/H5MaskFill.py:72-77 | a `mask_fill` of a 2-D dataset that raises nothing leaves the dataset's mask id in the memo |
| H5Processing.WalkStoresMasks | pymods/H5MaskFill.py:107-123 | after a walk without an exception, each visited two-dimensional dataset's mask id, computed on the file as the walk found it, is in the memo |
| H5Processing.TopLevelStepNeverCompliance | H5MaskFill.py:127-133 | a top-level `mask_fill` never raises a compliance error |
| H5Processing.TopLevelWalkNeverCompliance | H5MaskFill.py:62-72 | a top-level walk never ends with a compliance error |
| H5Processing.PymodsReportsMissingDimensionList | H5GridProjectionInfo.py:49-50 | a 2-D dataset without DIMENSION_LIST makes the pymods `mask_fill` raise the compliance error naming it, with nothing changed |
| H5Processing.H5File.constructor | pymods/H5MaskFill.py:57 | an opened file holds the file's links and datasets |
| H5Processing.MaskMemo.constructor | pymods/H5MaskFill.py:25 | the memo starts empty |
| H5Processing.GetMaskArrayInto | pymods/H5MaskFill.py:107-123 | the memo and the returned mask are those of `GetMaskArray` |
| H5Processing.MaskFill | pymods/H5MaskFill.py:70-92 | the in-place rewrite yields the state and error of `MaskFillStep` |
| H5Processing.ProcessChild | pymods/H5MaskFill.py:50-55 | a group is walked recursively, a dataset mask filled, anything else skipped, as `Walk` says |
| H5Processing.ProcessChildren | pymods/H5MaskFill.py:48-55 | the loop over a group's links yields the state and error of `Walk` over its datasets |
| H5Processing.WalkNextChild | pymods/H5MaskFill.py:49 | walking the first `i+1` links is walking the `i+1`-th link after the first `i` |
| H5Processing.WalkOne | pymods/H5MaskFill.py:55 | walking one dataset is one `mask_fill` |
| H5Processing.LinkedPrefix | pymods/H5MaskFill.py:49 | the links of a well-formed group resolve |
| H5Processing.WalkStopsAtError | pymods/H5MaskFill.py:48-55 | once an exception stops a prefix of the links, the whole walk ends the same way |
| H5Processing.ProcessFile | pymods/H5MaskFill.py:47-58 | a missing file raises the OSError of `OpenError` and changes nothing; otherwise the file holds the walk's datasets, including writes made before an exception |
| H5Processing.MaskgridOnlyKeepsInput | pymods/H5MaskFill.py:27-28 | under `maskgrid_only` the input file comes out unchanged |
| H5Processing.WalkVisitsReachableDatasets | H5MaskFill.py:62-72 | a dataset is walked iff some path of links reaches it |
| H5Processing.CopyAndProcess | pymods/H5MaskFill.py:27-33 | the copy (skipped for `maskgrid_only`) and `process_file` leave the HDF5 files and exception of `Produce` and change no mask file; without an exception the memo is the walk's (the top-level H5MaskFill.py:39-44 does the same) |
| H5Processing.ProduceKeeps | pymods/H5MaskFill.py:35 | saving the memo or not changes only the mask files, and only after a run without an exception, to `Written` of the walk's memo |
| H5Processing.ProduceOutcomes | pymods/H5MaskFill.py:23-37 | a run succeeds iff the input exists, the copy succeeds and the walk raises nothing; then it returns the masked path, or None for `maskgrid_only`; an exception leaves the mask files unchanged; the input file is never altered; no HDF5 file but the processed one changes; missing directories are not modelled (see Left out) |
| H5Processing.MaskgridOnlyWalkStores | pymods/H5MaskFill.py:107-123 | a `maskgrid_only` walk of a whole file that raises nothing has a mask id for every two-dimensional dataset of the file, and that id is in the memo |
| H5Processing.MaskgridOnlyCachesEveryGrid | pymods/H5MaskFill.py:27-35 | a successful `maskgrid_only` run that keeps its memo leaves a cache file for every two-dimensional dataset of the input, holding the memo's mask for its grid |
| PymodsH5MaskFill.ProduceMaskedHdf | pymods/H5MaskFill.py:23-37 | the result and the HDF5 and mask files are those of `Produce` with the lower-cased policy, the memo saved to the cache directory unless the policy contains `delete`; other paths are unchanged |
| H5MaskFill.MaskedHdfNeverCompliance | H5MaskFill.py:34-52 | no run of the top-level module ends with a compliance error |
| H5MaskFill.ProduceMaskedHdf | H5MaskFill.py:34-52 | the result and the HDF5 and mask files are those of `Produce` with the output directory as cache and masks saved only under a `save` policy or `maskgrid_only`; no failure is a compliance error |
| H5MaskFill.SaveRulesDiffer | H5MaskFill.py:46 | on the six policies the top-level save rule implies `cache_mask_arrays`'s, and they differ exactly on `use_cache` |
| MaskFillUtility.GetXmlErrorResponse | MaskFillUtility.py:152-164 | statuses 1, 2 and 3 pick their code and default message; any other status becomes None with the given code; a given message is kept |
| MaskFillUtility.CodeAndStatusAgree | MaskFillUtility.py:152-162 | with the default code, the response's code determines its exit status |
| MaskFillUtility.GetXmlSuccessResponse | MaskFillUtility.py:197-214 | the response names the input, the shapefile and the output, `None` when there is no output |
| MaskFillUtility.Params.constructor | MaskFillUtility.py:79-92 | an absent output directory, cache policy or fill value takes its default |
| MaskFillUtility.NameCheck | MaskFillUtility.py:103-116 | passes iff both files are given with valid extensions; each of the four failures gets its own response: missing input or shapefile MissingParameter with exit 2, bad input or shapefile extension InvalidParameter with exit 1, each with its message |
| MaskFillUtility.ValidateInputParameters | MaskFillUtility.py:101-131 | name failures are returned first; then a missing path is reported; then a non-numeric fill value; otherwise None, with the fill value converted |
| MaskFillUtility.ResponseFor | MaskFillUtility.py:65-70 | success gives the success response; a compliance error gives the exit-1 CF response, and only it does; any other exception gives InternalError with its repr |
| MaskFillUtility.HdfResponses | MaskFillUtility.py:61-70 | for HDF5 input the response is a success iff the input exists, the copy succeeds and the walk raises nothing, naming the masked file or None; otherwise InternalError with the exception's repr and no exit status; never the CF response |
| MaskFillUtility.TifIsNotH5 | MaskFillUtility.py:55-63 | a name ending in `.tif` does not end in `.h5`, so at most one branch runs |
| MaskFillUtility.Validate | MaskFillUtility.py:50-52 | the name failure, then some missing path's exit-2 response, then the non-numeric fill value's exit-1 response; no response iff the parameters are accepted, and then the parameters hold the options with their defaults and the converted fill value |
| MaskFillUtility.Dispatch | MaskFillUtility.py:53-70 | `.tif` gives the response for the GeoTIFF producer's result, adds the GeoTIFF it returns (if any) to the other paths and changes no HDF5 or mask file; `.h5` gives the response for the top-level run and leaves its files; any other name meets the unbound `output_file` |
| MaskFillUtility.MaskFill | MaskFillUtility.py:49-70 | name failures are returned as such; a missing path gives some missing path's exit-2 response; a non-numeric fill value its exit-1 response; all with no file changed; valid `.tif` input gives the GeoTIFF producer's response and adds its output file; valid `.h5` input gives the top-level run's response and files; only a GeoTIFF run adds another path |

## Left out

- File I/O is modelled by the `Disk` object rather than real files: h5py,
  `shutil.copy`, `np.save`/`np.load` and `os.path.exists`. The HDF5, `.npy`
  and other name spaces of `Disk` are assumed disjoint. A copy into a
  directory (rather than to a file path) is not modelled.
- FileSystem.Disk.CopyH5: the disk has no directories, so a destination
  whose directory does not exist cannot fail the copy. Python's
  `shutil.copy` raises FileNotFoundError there. Also, SameFileError is
  decided by comparing path strings, while `shutil.copy` uses
  `os.path.samefile`, so `./a.h5` and `a.h5` are one file to Python but
  two to the model. `ProduceOutcomes` inherits both gaps.
- FileSystem.Disk.SaveMask: `np.save` into a cache directory that does not
  exist raises FileNotFoundError (pymods/MaskFillCaching.py:76,
  H5MaskFill.py:49-50). The model cannot fail there. In pymods
  `produce_masked_hdf` the cache directory is never validated
  (pymods/H5MaskFill.py:23-35), so Python raises after the masked copy is
  written where the model reports success. Through the utility's
  `mask_fill` the top-level module caches in the output directory, which
  validation checks exists (MaskFillUtility.py:119-121), so that path is
  unaffected as long as the existing path is a directory.
- HDF5 files are taken to be well formed (`WellFormed`): every dataset link
  resolves in the object store.
- The group tree is a finite `Node` value, so a group that links back to
  itself or to an ancestor is not modelled (Python would recurse until
  `RecursionError`).
- Writing through the file: the model rewrites the modelled datasets and
  keeps the links. It does not model other bytes h5py may change when it
  opens a file for update.
- The cache file test of `get_mask_array` looks the path up among the `.npy`
  files, not through `Disk.Exists`: the name spaces are disjoint, so a
  non-mask file at that path is not modelled.
- FileSystem.Disk.CopyH5: a `.h5` path that exists only as an `others` path
  is reported as FileNotFoundError with nothing written. Python copies it,
  then h5py raises OSError on opening the copy, which stays behind.
- `from pymods import H5GridProjectionInfo` (pymods/H5MaskFill.py:4) is
  taken to be H5GridProjectionInfo.py; the pymods copy of that module is not
  part of this model.
- The MaskFill module is not part of this model; `get_masked_file_path`,
  `mask_fill_array`, `get_projected_shapes` and `get_mask_array` are
  function parameters. The last two are one parameter, since they are
  always called together.
- GeotiffMaskFill.py and pymods/GeotiffMaskFill.py are not part of this
  model. The GeoTIFF branch of `mask_fill` and the GeoTIFF mask id are
  function parameters. The masked GeoTIFF the branch writes is recorded only
  as a path that exists afterwards (`Disk.WriteOther`), not by its contents.
- SHA-224 is a parameter. Its digests have the 56-hex-character shape, but
  their collision resistance is not modelled. pyproj's CF/CRS conversions,
  `str` of an affine transform and of a shape, and UTF-8 decoding are
  parameters too.
- Floating point is modelled as exact reals, so NaN and rounding are not
  modelled; `np.mean` is a parameter.
- `rasterio.plot.show`, logging, timing and the final `print` are side
  effects with no bearing on the result and are left out.
- The XML text of the responses is modelled as the `Response` datatype
  (code, message, exit status; input, shapefile, output).
- Strings.Lower: lowers ASCII letters only. Python's `str.lower` also
  folds non-ASCII letters.
- Hdf.FillValue: a `_FillValue` that is not a number is treated as absent.
  Python returns any attribute value.
- Dictionary iteration order is not modelled:
  - The memo is a map, so `SaveMaskArrays` is proved for every order.
  - `ValidateInputParameters` may report any missing path of the set, as
    Python's set order leaves open.
- Failure messages:
  - The `UnboundLocalError` of `get_dimension_datasets`, raised when no scale
    matches, is an ordinary Python error carrying its message.
  - The `repr` of an exception is a function of the failure, not Python's
    exact text.
- `decode_bytes` appears in both projection modules and is modelled once
  (`Hdf.Decoded`, `Hdf.AttrDict.DecodeBytes`).
- `get_input_parameters` parses nothing itself. The options arrive already
  split (`Args`), and `float()` on text is a parameter.
