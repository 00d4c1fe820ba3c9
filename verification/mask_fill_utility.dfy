/** The command-line entry point (MaskFillUtility.py): reads the request
    parameters, validates them in a fixed order, dispatches on the input
    file's extension, and turns the outcome into an ESI response. Responses
    are records of what the XML carries. */
module MaskFillUtility {
  import opened Wrappers
  import opened Strings
  import opened Hdf
  import opened FileSystem
  import Foreign
  import H5Processing
  import H5MaskFill
  import Caching = MaskFillCaching

  const DEFAULT_FILL_VALUE: real := -9999.0
  const DEFAULT_MASK_GRID_CACHE := "ignore_and_delete"

  /** An ESI response: the exception response (code, message and exit
      status) or the success response (input, shapefile and output file, the
      output written as Python's `str`). */
  datatype Response =
    | ErrorXml(code: string, message: string, exitStatus: Option<int>)
    | SuccessXml(inputFile: string, shapeFile: string, outputFile: string)

  const INVALID_PARAMETER := "InvalidParameterValue"
  const MISSING_PARAMETER := "MissingParameterValue"
  const NO_MATCHING_DATA := "NoMatchingData"
  const INTERNAL_ERROR := "InternalError"

  /** The exit status an ESI error code stands for. */
  function StatusOfCode(code: string): Option<int> {
    if code == INVALID_PARAMETER then Some(1)
    else if code == MISSING_PARAMETER then Some(2)
    else if code == NO_MATCHING_DATA then Some(3)
    else None
  }

  /** `get_xml_error_response`: exit statuses 1, 2 and 3 choose their code
      and default message; any other status is dropped and the caller's code
      kept; a missing message becomes the internal-error message. */
  function GetXmlErrorResponse(exitStatus: Option<int>, errorMessage: Option<string>, code: string := INTERNAL_ERROR)
    : (r: Response)
    ensures r.ErrorXml?
    ensures exitStatus == Some(1) ==> r.code == INVALID_PARAMETER && r.exitStatus == Some(1)
    ensures exitStatus == Some(2) ==> r.code == MISSING_PARAMETER && r.exitStatus == Some(2)
    ensures exitStatus == Some(3) ==> r.code == NO_MATCHING_DATA && r.exitStatus == Some(3)
    ensures exitStatus !in {Some(1), Some(2), Some(3)} ==> r.code == code && r.exitStatus == None
    ensures errorMessage.Some? ==> r.message == errorMessage.value
    ensures errorMessage.None? && exitStatus == Some(1) ==> r.message == "Incorrect parameter specified for given dataset(s)."
    ensures errorMessage.None? && exitStatus == Some(2) ==> r.message == "No parameter value(s) specified for given dataset(s)."
    ensures errorMessage.None? && exitStatus == Some(3) ==> r.message == "No data found that matched the subset constraints."
    ensures errorMessage.None? && exitStatus !in {Some(1), Some(2), Some(3)} ==> r.message == "An internal error occurred."
  {
    if exitStatus == Some(1) then
      ErrorXml(INVALID_PARAMETER, errorMessage.GetOr("Incorrect parameter specified for given dataset(s)."), exitStatus)
    else if exitStatus == Some(2) then
      ErrorXml(MISSING_PARAMETER, errorMessage.GetOr("No parameter value(s) specified for given dataset(s)."), exitStatus)
    else if exitStatus == Some(3) then
      ErrorXml(NO_MATCHING_DATA, errorMessage.GetOr("No data found that matched the subset constraints."), exitStatus)
    else
      ErrorXml(code, errorMessage.GetOr("An internal error occurred."), None)
  }

  /** With the default code the response's code and exit status determine
      each other: the status read back from the code is the status kept. */
  lemma CodeAndStatusAgree(exitStatus: Option<int>, errorMessage: Option<string>)
    ensures StatusOfCode(GetXmlErrorResponse(exitStatus, errorMessage).code) == GetXmlErrorResponse(exitStatus, errorMessage).exitStatus
  {
  }

  /** Python's `str` of the returned output path (`None` for `maskgrid_only`). */
  function PyStr(output: Option<string>): string {
    if output.Some? then output.value else "None"
  }

  /** `get_xml_success_response`. */
  function GetXmlSuccessResponse(inputFile: string, shapeFile: string, output: Option<string>): (r: Response)
    ensures r.SuccessXml? && r.inputFile == inputFile && r.shapeFile == shapeFile
    ensures output.Some? ==> r.outputFile == output.value
    ensures output.None? ==> r.outputFile == "None"
  {
    SuccessXml(inputFile, shapeFile, PyStr(output))
  }

  // ---------------------------------------------------------------------
  // Parameters

  /** The command-line options as given; an absent option is `None`. */
  datatype Args = Args(
    fileUrls: Option<string>,
    shapefile: Option<string>,
    outputDir: Option<string>,
    maskGridCache: Option<string>,
    defaultFill: Option<string>)

  /** The fill value: the text given on the command line, or a number (the
      default, or the value validation converted it to). */
  datatype FillArg = FillText(text: string) | FillNumber(number: real)

  /** The fill value `get_input_parameters` hands on: the option's text, or
      the default number. */
  function ArgFill(args: Args): FillArg {
    if args.defaultFill.Some? then FillText(args.defaultFill.value) else FillNumber(DEFAULT_FILL_VALUE)
  }

  /** The parsed parameters; validation replaces the fill value by its float
      in place. */
  class Params {
    var inputFile: Option<string>
    var shapeFile: Option<string>
    var outputDir: string
    var maskGridCache: string
    var fillValue: FillArg

    /** `get_input_parameters`: the options, with the output directory
        defaulting to the working directory, the policy to
        `ignore_and_delete` and the fill value to -9999. */
    constructor (args: Args, cwd: string)
      ensures inputFile == args.fileUrls && shapeFile == args.shapefile
      ensures outputDir == args.outputDir.GetOr(cwd)
      ensures maskGridCache == args.maskGridCache.GetOr(DEFAULT_MASK_GRID_CACHE)
      ensures fillValue == ArgFill(args)
    {
      inputFile := args.fileUrls;
      shapeFile := args.shapefile;
      outputDir := args.outputDir.GetOr(cwd);
      maskGridCache := args.maskGridCache.GetOr(DEFAULT_MASK_GRID_CACHE);
      fillValue := ArgFill(args);
    }
  }

  /** Python's `float(x)`: numbers as they are, text through the parser
      (None where `float` raises ValueError). */
  function ToFloat(f: FillArg, parseFloat: string -> Option<real>): Option<real> {
    match f
    case FillNumber(x) => Some(x)
    case FillText(t) => parseFloat(t)
  }

  /** The checks of `validate_input_parameters` that look at the names only,
      in source order: both files given, then their extensions
      (case-sensitive). */
  function NameCheck(inputFile: Option<string>, shapeFile: Option<string>): (r: Option<Response>)
    ensures r.None? <==> inputFile.Some? && shapeFile.Some?
                         && (EndsWith(inputFile.value, ".tif") || EndsWith(inputFile.value, ".h5"))
                         && EndsWith(shapeFile.value, ".shp")
    ensures inputFile.None? ==>
              r == Some(ErrorXml(MISSING_PARAMETER, "An input data file is required for the mask fill utility", Some(2)))
    ensures inputFile.Some? && shapeFile.None? ==>
              r == Some(ErrorXml(MISSING_PARAMETER, "A shapefile is required for the mask fill utility", Some(2)))
    ensures inputFile.Some? && shapeFile.Some? && !EndsWith(inputFile.value, ".tif") && !EndsWith(inputFile.value, ".h5") ==>
              r == Some(ErrorXml(INVALID_PARAMETER, "The input data file must be a GeoTIFF or HDF5 file type", Some(1)))
    ensures inputFile.Some? && shapeFile.Some? && (EndsWith(inputFile.value, ".tif") || EndsWith(inputFile.value, ".h5"))
            && !EndsWith(shapeFile.value, ".shp") ==>
              r == Some(ErrorXml(INVALID_PARAMETER, "The input shapefile must be a .shp file type", Some(1)))
  {
    if inputFile.None? then
      Some(GetXmlErrorResponse(Some(2), Some("An input data file is required for the mask fill utility")))
    else if shapeFile.None? then
      Some(GetXmlErrorResponse(Some(2), Some("A shapefile is required for the mask fill utility")))
    else if !EndsWith(inputFile.value, ".tif") && !EndsWith(inputFile.value, ".h5") then
      Some(GetXmlErrorResponse(Some(1), Some("The input data file must be a GeoTIFF or HDF5 file type")))
    else if !EndsWith(shapeFile.value, ".shp") then
      Some(GetXmlErrorResponse(Some(1), Some("The input shapefile must be a .shp file type")))
    else None
  }

  /** The response for a path that does not exist. */
  function MissingPath(path: string): Response {
    GetXmlErrorResponse(Some(2), Some("The path " + path + " does not exist"))
  }

  /** `validate_input_parameters`: the name checks, then every path of the
      set {input, shapefile, output directory} for existence (in the set's
      iteration order, which is left open: any missing path may be the one
      reported), then the fill value. On success the fill value has become
      a number. */
  method ValidateInputParameters(params: Params, disk: Disk, parseFloat: string -> Option<real>)
    returns (r: Option<Response>)
    modifies params
    ensures params.inputFile == old(params.inputFile) && params.shapeFile == old(params.shapeFile)
    ensures params.outputDir == old(params.outputDir) && params.maskGridCache == old(params.maskGridCache)
    ensures NameCheck(params.inputFile, params.shapeFile).Some? ==>
              r == NameCheck(params.inputFile, params.shapeFile) && params.fillValue == old(params.fillValue)
    ensures NameCheck(params.inputFile, params.shapeFile).None? ==>
              var paths := {params.inputFile.value, params.shapeFile.value, params.outputDir};
              && ((exists p :: p in paths && !disk.Exists(p)) ==>
                    params.fillValue == old(params.fillValue)
                    && exists p :: p in paths && !disk.Exists(p) && r == Some(MissingPath(p)))
              && ((forall p :: p in paths ==> disk.Exists(p)) && ToFloat(old(params.fillValue), parseFloat).None? ==>
                    params.fillValue == old(params.fillValue)
                    && r == Some(GetXmlErrorResponse(Some(1), Some("The default fill value must be a number"))))
              && ((forall p :: p in paths ==> disk.Exists(p)) && ToFloat(old(params.fillValue), parseFloat).Some? ==>
                    r.None? && params.fillValue == FillNumber(ToFloat(old(params.fillValue), parseFloat).value))
  {
    r := NameCheck(params.inputFile, params.shapeFile);
    if r.Some? {
      return;
    }
    var paths := {params.inputFile.value, params.shapeFile.value, params.outputDir};
    var todo := paths;
    while todo != {}
      invariant todo <= paths
      invariant forall p :: p in paths && p !in todo ==> disk.Exists(p)
      decreases todo
    {
      var path :| path in todo;
      if !disk.Exists(path) {
        return Some(MissingPath(path));
      }
      todo := todo - {path};
    }
    var fill := ToFloat(params.fillValue, parseFloat);
    if fill.None? {
      return Some(GetXmlErrorResponse(Some(1), Some("The default fill value must be a number")));
    }
    params.fillValue := FillNumber(fill.value);
    return None;
  }

  /** The first two lines of `mask_fill`: the parameters are read, then
      validated. Validation looks at the disk but changes no file. */
  method Validate(args: Args, cwd: string, disk: Disk, parseFloat: string -> Option<real>)
    returns (params: Params, invalid: Option<Response>)
    ensures fresh(params)
    ensures NameCheck(args.fileUrls, args.shapefile).Some? ==> invalid == NameCheck(args.fileUrls, args.shapefile)
    ensures NameCheck(args.fileUrls, args.shapefile).None? && !PathsExist(args, cwd, disk) ==>
              exists p :: p in RequiredPaths(args, cwd) && !disk.Exists(p) && invalid == Some(MissingPath(p))
    ensures NameCheck(args.fileUrls, args.shapefile).None? && PathsExist(args, cwd, disk) && ToFloat(ArgFill(args), parseFloat).None? ==>
              invalid == Some(GetXmlErrorResponse(Some(1), Some("The default fill value must be a number")))
    ensures invalid.None? <==> Accepted(args, cwd, parseFloat, disk)
    ensures invalid.None? ==>
              && params.inputFile == args.fileUrls && params.shapeFile == args.shapefile
              && params.outputDir == args.outputDir.GetOr(cwd)
              && params.maskGridCache == args.maskGridCache.GetOr(DEFAULT_MASK_GRID_CACHE)
              && params.fillValue == FillNumber(ToFloat(ArgFill(args), parseFloat).value)
  {
    params := new Params(args, cwd);
    invalid := ValidateInputParameters(params, disk, parseFloat);
    if NameCheck(args.fileUrls, args.shapefile).None? {
      assert RequiredPaths(args, cwd) == {params.inputFile.value, params.shapeFile.value, params.outputDir};
    }
  }

  // ---------------------------------------------------------------------
  // mask_fill: dispatch and exception mapping

  const CF_MESSAGE := "The given data file does not follow CF conventions and cannot be mask filled"

  /** The `try`/`except` of `mask_fill`: a result becomes the success
      response, a CF-compliance error the exit-1 response with its fixed
      message, any other exception an internal error carrying its `repr`. */
  function ResponseFor(result: Result<Option<string>, Failure>, inputFile: string, shapeFile: string): (r: Response)
    ensures result.Success? <==> r.SuccessXml?
    ensures result.Success? ==> r == GetXmlSuccessResponse(inputFile, shapeFile, result.value)
    ensures result.Failure? && result.error.CFComplianceError? <==>
              r == ErrorXml(INVALID_PARAMETER, CF_MESSAGE, Some(1))
    ensures result.Failure? && !result.error.CFComplianceError? ==>
              r == ErrorXml(INTERNAL_ERROR, Repr(result.error), None)
  {
    match result
    case Success(output) => GetXmlSuccessResponse(inputFile, shapeFile, output)
    case Failure(CFComplianceError(_)) => GetXmlErrorResponse(Some(1), Some(CF_MESSAGE))
    case Failure(e) => GetXmlErrorResponse(None, Some(Repr(e)))
  }

  /** What the GeoTIFF branch hands to the `try`/`except`: the output path,
      or the exception the producer raised. */
  function GeotiffResult(produced: Result<string, Failure>): Result<Option<string>, Failure> {
    if produced.Success? then Success(Some(produced.value)) else Failure(produced.error)
  }

  /** The file the GeoTIFF branch leaves behind: the masked GeoTIFF at the
      path the producer returns, or none when it raised. */
  function GeotiffOutput(produced: Result<string, Failure>): (written: set<string>)
    ensures forall p :: p in written <==> produced == Success(p)
  {
    if produced.Success? then {produced.value} else {}
  }

  /** Every path validation requires exists on `disk`. */
  predicate PathsExist(args: Args, cwd: string, disk: Disk)
    requires args.fileUrls.Some? && args.shapefile.Some?
    reads disk
  {
    forall p :: p in RequiredPaths(args, cwd) ==> disk.Exists(p)
  }

  /** The parameters pass validation: both names are acceptable, every
      required path exists and the fill value is a number. */
  predicate Accepted(args: Args, cwd: string, parseFloat: string -> Option<real>, disk: Disk)
    reads disk
  {
    NameCheck(args.fileUrls, args.shapefile).None? && PathsExist(args, cwd, disk) && ToFloat(ArgFill(args), parseFloat).Some?
  }

  /** The paths validation requires to exist. */
  function RequiredPaths(args: Args, cwd: string): set<string>
    requires args.fileUrls.Some? && args.shapefile.Some?
  {
    {args.fileUrls.value, args.shapefile.value, args.outputDir.GetOr(cwd)}
  }

  /** The HDF5 responses of `mask_fill`: success exactly when the input
      exists, the copy succeeds and the walk raises nothing; any exception
      becomes an internal error carrying its `repr`, never the CF response. */
  lemma HdfResponses(inputFile: string, shapeFile: string, outputDir: string, maskGridCache: string, fill: real,
                     calls: Foreign.Calls, h5: map<string, H5Content>, npy: map<string, Foreign.Mask>)
    requires inputFile in h5 ==> H5Processing.WellFormed(h5[inputFile])
    ensures var run := H5MaskFill.MaskedHdf(inputFile, shapeFile, outputDir, maskGridCache, fill, calls, h5, npy);
            var policy := Lower(maskGridCache);
            var s := H5MaskFill.RunSettings(shapeFile, outputDir, policy, fill, calls);
            var r := ResponseFor(run.result, inputFile, shapeFile);
            && (r.SuccessXml? <==>
                  && inputFile in h5
                  && !H5Processing.CopyFails(inputFile, policy, H5Processing.Target(inputFile, outputDir, policy, calls), h5)
                  && H5Processing.WalkFile(s, h5[inputFile], npy).error.None?)
            && (r.SuccessXml? ==>
                  r.outputFile == if policy == "maskgrid_only" then "None" else calls.maskedFilePath(inputFile, outputDir))
            && (r.ErrorXml? ==> r == ErrorXml(INTERNAL_ERROR, Repr(run.result.error), None))
            && r != ErrorXml(INVALID_PARAMETER, CF_MESSAGE, Some(1))
  {
    var policy := Lower(maskGridCache);
    var s := H5MaskFill.RunSettings(shapeFile, outputDir, policy, fill, calls);
    H5MaskFill.MaskedHdfNeverCompliance(inputFile, shapeFile, outputDir, maskGridCache, fill, calls, h5, npy);
    H5Processing.ProduceOutcomes(s, inputFile, outputDir, Caching.SavesMasks(policy), h5, npy);
  }

  /** What `output_file` holds when neither branch of the dispatch ran. */
  const UNBOUND_OUTPUT := PythonError("UnboundLocalError", "local variable 'output_file' referenced before assignment")

  /** A name ending in `.tif` does not end in `.h5`: at most one branch of
      the dispatch runs. */
  lemma TifIsNotH5(name: string)
    requires EndsWith(name, ".tif")
    ensures !EndsWith(name, ".h5")
  {
    assert name[|name| - 1] == name[|name| - 4..][3] == 'f';
    assert |name| >= 3 ==> name[|name| - 3..][2] == name[|name| - 1] != ".h5"[2];
  }

  /** The `try` block of `mask_fill` on validated parameters: a name ending,
      lower-cased, in `.tif` goes to the GeoTIFF producer (outside this
      model, a parameter), one ending in `.h5` to the top-level
      `produce_masked_hdf`; any other name leaves `output_file` unbound. */
  method Dispatch(inputFile: string, shapeFile: string, outputDir: string, maskGridCache: string, fill: real,
                  disk: Disk, calls: Foreign.Calls, produceGeotiff: (string, string, string, real) -> Result<string, string>)
    returns (response: Response)
    requires forall p :: p in disk.h5 ==> H5Processing.WellFormed(disk.h5[p])
    modifies disk
    ensures EndsWith(Lower(inputFile), ".tif") ==>
              && response == ResponseFor(GeotiffResult(Foreign.Lift(produceGeotiff(inputFile, shapeFile, outputDir, fill))),
                                         inputFile, shapeFile)
              && disk.h5 == old(disk.h5) && disk.npy == old(disk.npy)
              && disk.others == old(disk.others) + GeotiffOutput(Foreign.Lift(produceGeotiff(inputFile, shapeFile, outputDir, fill)))
    ensures EndsWith(Lower(inputFile), ".h5") ==>
              var run := H5MaskFill.MaskedHdf(inputFile, shapeFile, outputDir, maskGridCache, fill, calls,
                                              old(disk.h5), old(disk.npy));
              response == ResponseFor(run.result, inputFile, shapeFile) && disk.h5 == run.h5 && disk.npy == run.npy
    ensures !EndsWith(Lower(inputFile), ".tif") && !EndsWith(Lower(inputFile), ".h5") ==>
              response == ResponseFor(Failure(UNBOUND_OUTPUT), inputFile, shapeFile)
              && disk.h5 == old(disk.h5) && disk.npy == old(disk.npy)
    ensures !EndsWith(Lower(inputFile), ".tif") ==> disk.others == old(disk.others)
  {
    var result: Result<Option<string>, Failure> := Failure(UNBOUND_OUTPUT);
    if EndsWith(Lower(inputFile), ".tif") {
      TifIsNotH5(Lower(inputFile));
      var produced := Foreign.Lift(produceGeotiff(inputFile, shapeFile, outputDir, fill));
      if produced.Failure? {
        return ResponseFor(Failure(produced.error), inputFile, shapeFile);
      }
      disk.WriteOther(produced.value);
      result := Success(Some(produced.value));
    }
    if EndsWith(Lower(inputFile), ".h5") {
      result := H5MaskFill.ProduceMaskedHdf(inputFile, shapeFile, outputDir, maskGridCache, fill, calls, disk);
    }
    response := ResponseFor(result, inputFile, shapeFile);
  }

  /** `mask_fill`: validation first, then the dispatch. The HDF5 files on
      disk are taken to be well formed, as h5py presents them. */
  method MaskFill(args: Args, cwd: string, disk: Disk, calls: Foreign.Calls, parseFloat: string -> Option<real>,
                  produceGeotiff: (string, string, string, real) -> Result<string, string>)
    returns (response: Response)
    requires forall p :: p in disk.h5 ==> H5Processing.WellFormed(disk.h5[p])
    modifies disk
    ensures var nameCheck := NameCheck(args.fileUrls, args.shapefile);
            nameCheck.Some? ==> response == nameCheck.value && disk.h5 == old(disk.h5) && disk.npy == old(disk.npy)
    // validation: a missing path, then a fill value that is not a number
    ensures NameCheck(args.fileUrls, args.shapefile).None? && !old(PathsExist(args, cwd, disk)) ==>
              && (exists p :: p in RequiredPaths(args, cwd) && !old(disk.Exists(p)) && response == MissingPath(p))
              && disk.h5 == old(disk.h5) && disk.npy == old(disk.npy)
    ensures NameCheck(args.fileUrls, args.shapefile).None? && old(PathsExist(args, cwd, disk))
            && ToFloat(ArgFill(args), parseFloat).None? ==>
              && response == GetXmlErrorResponse(Some(1), Some("The default fill value must be a number"))
              && disk.h5 == old(disk.h5) && disk.npy == old(disk.npy)
    // once the parameters are accepted: the dispatch on the lower-cased name
    ensures old(Accepted(args, cwd, parseFloat, disk)) && EndsWith(Lower(args.fileUrls.value), ".tif") ==>
              var produced := Foreign.Lift(produceGeotiff(args.fileUrls.value, args.shapefile.value, args.outputDir.GetOr(cwd),
                                                          ToFloat(ArgFill(args), parseFloat).value));
              && response == ResponseFor(GeotiffResult(produced), args.fileUrls.value, args.shapefile.value)
              && disk.h5 == old(disk.h5) && disk.npy == old(disk.npy)
              && disk.others == old(disk.others) + GeotiffOutput(produced)
    ensures old(Accepted(args, cwd, parseFloat, disk)) && EndsWith(Lower(args.fileUrls.value), ".h5") ==>
              var run := H5MaskFill.MaskedHdf(args.fileUrls.value, args.shapefile.value, args.outputDir.GetOr(cwd),
                                              args.maskGridCache.GetOr(DEFAULT_MASK_GRID_CACHE),
                                              ToFloat(ArgFill(args), parseFloat).value, calls, old(disk.h5), old(disk.npy));
              && response == ResponseFor(run.result, args.fileUrls.value, args.shapefile.value)
              && disk.h5 == run.h5 && disk.npy == run.npy
    // only a GeoTIFF run adds a file outside the HDF5 and mask files
    ensures !(old(Accepted(args, cwd, parseFloat, disk)) && EndsWith(Lower(args.fileUrls.value), ".tif"))
            ==> disk.others == old(disk.others)
  {
    var params, invalid := Validate(args, cwd, disk, parseFloat);
    if invalid.Some? {
      return invalid.value;
    }
    response := Dispatch(params.inputFile.value, params.shapeFile.value, params.outputDir, params.maskGridCache,
                         params.fillValue.number, disk, calls, produceGeotiff);
  }
}
