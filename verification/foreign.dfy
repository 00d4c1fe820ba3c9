/** The calls into code outside the model: hashing, Python's `str` of library
    objects, UTF-8 decoding, the CRS library, the MaskFill module (whose
    source is not part of this model), `np.mean`, and the GeoTIFF mask id.
    Each is an arbitrary total function; nothing is assumed about them beyond
    their types. Exceptions raised inside them carry only their `repr`. */
module Foreign {
  import opened Wrappers
  import opened Hdf
  import Geometry

  /** A mask grid as produced by the MaskFill module; its contents are left
      open. */
  type Mask = seq<bool>

  predicate IsHexChar(c: char) {
    '0' <= c <= '9' || 'a' <= c <= 'f'
  }

  /** The shape of `hashlib.sha224(...).hexdigest()`: 56 lower-case hex
      digits. Only the format is known, not injectivity. */
  predicate IsHexDigest(s: string) {
    |s| == 56 && forall i :: 0 <= i < |s| ==> IsHexChar(s[i])
  }

  type HexDigest = s: string | IsHexDigest(s) witness seq(56, _ => '0')

  datatype Calls = Calls(
    sha224Hex: string -> HexDigest,                 // hashlib.sha224(s.encode()).hexdigest()
    showTransform: Geometry.Affine -> string,       // str(affine.Affine(...))
    showShape: seq<nat> -> string,                  // str(shape tuple)
    utf8: seq<byte> -> string,                      // bytes.decode()
    cfToCrsDict: map<string, AttrValue> -> Result<map<string, AttrValue>, string>,  // CRS.from_cf(cf).to_dict()
    crsDictToProj4: map<string, AttrValue> -> Result<string, string>,             // CRS.from_dict(d).to_proj4()
    maskArray: (string, string, seq<nat>, Geometry.Affine) -> Result<Mask, string>,
                                                    // MaskFill.get_projected_shapes then MaskFill.get_mask_array
    maskFillArray: (seq<real>, Mask, real) -> seq<real>,  // MaskFill.mask_fill_array
    mean: seq<real> -> real,                        // np.mean
    maskedFilePath: (string, string) -> string,     // MaskFill.get_masked_file_path
    geotiffMaskId: (string, string) -> Result<string, string>  // GeotiffMaskFill.get_mask_array_id
  )

  /** An exception out of a foreign call, as the model's Failure. */
  function Lift<T>(r: Result<T, string>): (f: Result<T, Failure>)
    ensures f.Success? <==> r.Success?
    ensures f.Success? ==> f.value == r.value
    ensures f.Failure? ==> f.error == Raised(r.error)
  {
    match r
    case Success(v) => Success(v)
    case Failure(e) => Failure(Raised(e))
  }
}
