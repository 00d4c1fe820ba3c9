/** The HDF5 side of the model: attribute values, datasets, the group tree of
    a file, the exceptions the Python code raises, and `decode_bytes`.

    A file is a group tree whose dataset leaves name entries of a
    `map<string, Dataset>` (the object store). Two leaves naming the same key
    are two hard links to one dataset. */
module Hdf {
  import opened Wrappers

  newtype byte = x: int | 0 <= x < 256

  /** The attribute values the code reads. Fixed-length string attributes come
      back from h5py as `bytes`; DIMENSION_LIST holds object references, of
      which the code uses the first of each entry. */
  datatype AttrValue =
    | Bytes(bytes: seq<byte>)
    | Text(text: string)
    | Number(number: real)
    | References(refs: seq<string>)

  /** A dataset: its shape, its values in row-major order, its attributes. A
      one-dimensional dataset (a dimension scale) has `|data|` values. */
  datatype Dataset = Dataset(shape: seq<nat>, data: seq<real>, attrs: map<string, AttrValue>)

  /** The exceptions the model distinguishes: the CF-compliance error of
      H5GridProjectionInfo, the Python exceptions the modelled code raises
      itself (class name and argument), and exceptions raised inside foreign
      libraries, known only by their `repr`. */
  datatype Failure =
    | CFComplianceError(message: string)
    | PythonError(kind: string, detail: string)
    | Raised(repr: string)

  /** Python's `repr(e)`. */
  function Repr(e: Failure): string {
    match e
    case CFComplianceError(m) => "CFComplianceError('" + m + "')"
    case PythonError(k, d) => k + "('" + d + "')"
    case Raised(r) => r
  }

  /** The proj4 string both projection modules return for a grid whose first
      dimension has units in degrees. */
  const GEOGRAPHIC_PROJ4 := "+proj=longlat +ellps=WGS84 +datum=WGS84 +no_defs"

  // ---------------------------------------------------------------------
  // The group tree and the datasets reachable in it

  /** An object reached through a link: a group with its links in h5py's
      iteration order, a dataset (by object key), or anything else (a named
      datatype, a dangling link), which the traversal ignores. */
  datatype Node =
    | Group(children: seq<Child>)
    | DatasetLink(key: string)
    | OtherObject

  datatype Child = Child(name: string, node: Node)

  /** An HDF5 file: its root group and its object store. */
  datatype H5Content = H5Content(root: Node, objects: map<string, Dataset>)

  /** The datasets below `n`, in the order a depth-first walk of the links
      meets them, once per link. */
  function Datasets(n: Node): seq<string>
    decreases n, 1
  {
    match n
    case DatasetLink(k) => [k]
    case OtherObject => []
    case Group(cs) => DatasetsOfFirst(n, |cs|)
  }

  /** The datasets below the first `i` children of group `n`. */
  function DatasetsOfFirst(n: Node, i: nat): seq<string>
    requires n.Group? && i <= |n.children|
    decreases n, 0, i
  {
    if i == 0 then [] else DatasetsOfFirst(n, i - 1) + Datasets(n.children[i - 1].node)
  }

  /** The object reached from `n` by following the links whose positions are
      listed in `path`. */
  function Lookup(n: Node, path: seq<nat>): Option<Node>
    decreases |path|
  {
    if path == [] then Some(n)
    else if n.Group? && path[0] < |n.children| then Lookup(n.children[path[0]].node, path[1..])
    else None
  }

  lemma {:induction false} DatasetsOfFirstMembers(n: Node, i: nat, k: string)
    requires n.Group? && i <= |n.children|
    ensures k in DatasetsOfFirst(n, i) <==> exists j :: 0 <= j < i && k in Datasets(n.children[j].node)
    decreases i
  {
    if i > 0 {
      DatasetsOfFirstMembers(n, i - 1, k);
    }
  }

  /** The traversal order lists exactly the datasets reachable by some path
      of links, and nothing else (no group, no other object). */
  lemma {:induction false} DatasetsAreReachable(n: Node, k: string)
    ensures k in Datasets(n) ==> exists path :: Lookup(n, path) == Some(DatasetLink(k))
    ensures (exists path :: Lookup(n, path) == Some(DatasetLink(k))) ==> k in Datasets(n)
    decreases n
  {
    match n
    case DatasetLink(k') =>
      var here: seq<nat> := [];
      assert Lookup(n, here) == Some(n);
      forall path | Lookup(n, path) == Some(DatasetLink(k)) ensures k == k' {
        assert path == [];
      }
    case OtherObject =>
      forall path ensures Lookup(n, path) != Some(DatasetLink(k)) {
        if path != [] { assert Lookup(n, path) == None; }
      }
    case Group(cs) =>
      DatasetsOfFirstMembers(n, |cs|, k);
      if k in Datasets(n) {
        var j :| 0 <= j < |cs| && k in Datasets(cs[j].node);
        DatasetsAreReachable(cs[j].node, k);
        var p :| Lookup(cs[j].node, p) == Some(DatasetLink(k));
        assert ([j] + p)[1..] == p;
        assert Lookup(n, [j] + p) == Some(DatasetLink(k));
      }
      if exists path :: Lookup(n, path) == Some(DatasetLink(k)) {
        var path :| Lookup(n, path) == Some(DatasetLink(k));
        assert path != [];
        var j := path[0];
        assert j < |cs|;
        assert Lookup(cs[j].node, path[1..]) == Some(DatasetLink(k));
        DatasetsAreReachable(cs[j].node, k);
      }
  }

  // ---------------------------------------------------------------------
  // decode_bytes

  function DecodeValue(v: AttrValue, utf8: seq<byte> -> string): AttrValue {
    if v.Bytes? then Text(utf8(v.bytes)) else v
  }

  /** The dictionary after `decode_bytes`: every `bytes` value replaced by its
      decoded text. */
  function Decoded(m: map<string, AttrValue>, utf8: seq<byte> -> string): (r: map<string, AttrValue>)
    ensures r.Keys == m.Keys
    ensures forall k :: k in r ==> !r[k].Bytes?
    ensures forall k :: k in m && !m[k].Bytes? ==> r[k] == m[k]
    ensures forall k :: k in m && m[k].Bytes? ==> r[k] == Text(utf8(m[k].bytes))
  {
    map k | k in m :: DecodeValue(m[k], utf8)
  }

  /** Decoding twice is decoding once. */
  lemma DecodedIdempotent(m: map<string, AttrValue>, utf8: seq<byte> -> string)
    ensures Decoded(Decoded(m, utf8), utf8) == Decoded(m, utf8)
  {
  }

  /** A Python dictionary of attribute values, updated in place. */
  class AttrDict {
    var entries: map<string, AttrValue>

    constructor (m: map<string, AttrValue>)
      ensures entries == m
    {
      entries := m;
    }

    /** `decode_bytes`: visits every key once and overwrites `bytes` values
        with their decoded text. */
    method DecodeBytes(utf8: seq<byte> -> string)
      modifies this
      ensures entries == Decoded(old(entries), utf8)
    {
      ghost var original := entries;
      var todo := entries.Keys;
      while todo != {}
        invariant todo <= original.Keys
        invariant entries.Keys == original.Keys
        invariant forall k :: k in todo ==> entries[k] == original[k]
        invariant forall k :: k in original && k !in todo ==> entries[k] == DecodeValue(original[k], utf8)
        decreases todo
      {
        var key :| key in todo;
        var value := entries[key];
        if value.Bytes? {
          entries := entries[key := Text(utf8(value.bytes))];
        }
        todo := todo - {key};
      }
    }
  }

  // ---------------------------------------------------------------------
  // Dimension scales listed in DIMENSION_LIST

  /** The first reference in `refs` that names no object of the file. */
  function FirstUnresolved(file: map<string, Dataset>, refs: seq<string>): (r: Option<string>)
    ensures r.None? <==> forall j :: 0 <= j < |refs| ==> refs[j] in file
    ensures r.Some? ==> exists i :: 0 <= i < |refs| && refs[i] == r.value && r.value !in file
                          && forall j :: 0 <= j < i ==> refs[j] in file
  {
    if refs == [] then None
    else if refs[0] !in file then Some(refs[0])
    else
      var rest := FirstUnresolved(file, refs[1..]);
      assert forall j :: 1 <= j < |refs| ==> refs[j] == refs[1..][j - 1];
      rest
  }

  /** The last reference in `refs` whose dimension scale has `n` values: the
      value the loop variable holds after reassigning on every match. */
  function LastWithLength(file: map<string, Dataset>, refs: seq<string>, n: nat): (r: Option<string>)
    requires forall j :: 0 <= j < |refs| ==> refs[j] in file
    ensures r.None? <==> forall j :: 0 <= j < |refs| ==> |file[refs[j]].data| != n
    ensures r.Some? ==> exists i :: 0 <= i < |refs| && refs[i] == r.value && |file[r.value].data| == n
                          && forall j :: i < j < |refs| ==> |file[refs[j]].data| != n
    decreases |refs|
  {
    if refs == [] then None
    else if |file[refs[|refs| - 1]].data| == n then Some(refs[|refs| - 1])
    else LastWithLength(file, refs[..|refs| - 1], n)
  }

  /** What the DIMENSION_LIST loop returns for a dataset of the given shape:
      `(x, y)`, x matching the column count and y the row count. The loop
      fails on the first reference that resolves to nothing, on a shape of
      rank below two (at the first reference), and after the loop when `x`
      or `y` was never assigned. */
  function DimensionsFromList(file: map<string, Dataset>, refs: seq<string>, shape: seq<nat>)
    : (r: Result<(string, string), Failure>)
    ensures r.Success? ==> |shape| >= 2 && r.value.0 in refs && r.value.1 in refs
                           && r.value.0 in file && r.value.1 in file
                           && |file[r.value.0].data| == shape[1] && |file[r.value.1].data| == shape[0]
    ensures r.Failure? ==> r.error.PythonError?
  {
    if |refs| > 0 && refs[0] in file && |shape| < 2 then
      Failure(PythonError("IndexError", "tuple index out of range"))
    else if FirstUnresolved(file, refs).Some? then
      Failure(PythonError("KeyError", "Unable to open object " + FirstUnresolved(file, refs).value))
    else
      Unpack(LastWithLength(file, refs, if |shape| >= 2 then shape[1] else 0),
             LastWithLength(file, refs, if |shape| >= 1 then shape[0] else 0))
  }

  /** `return x, y` after the loop: UnboundLocalError for a variable the
      loop never assigned, `x` checked first. */
  function Unpack(x: Option<string>, y: Option<string>): Result<(string, string), Failure> {
    if x.None? then Failure(PythonError("UnboundLocalError", "local variable 'x' referenced before assignment"))
    else if y.None? then Failure(PythonError("UnboundLocalError", "local variable 'y' referenced before assignment"))
    else Success((x.value, y.value))
  }

  /** The loop of `get_dimension_datasets` (identical in both projection
      modules): for each reference, resolve it, and reassign `y` when its
      length is the row count and `x` when it is the column count. */
  method SelectDimensions(file: map<string, Dataset>, refs: seq<string>, shape: seq<nat>)
    returns (r: Result<(string, string), Failure>)
    ensures r == DimensionsFromList(file, refs, shape)
  {
    var x: Option<string> := None;
    var y: Option<string> := None;
    var i := 0;
    while i < |refs|
      invariant 0 <= i <= |refs|
      invariant forall j :: 0 <= j < i ==> refs[j] in file
      invariant i > 0 ==> |shape| >= 2
      invariant i > 0 ==> y == LastWithLength(file, refs[..i], shape[0])
      invariant i > 0 ==> x == LastWithLength(file, refs[..i], shape[1])
      invariant i == 0 ==> x.None? && y.None?
    {
      var ref := refs[i];
      if ref !in file {
        assert FirstUnresolved(file, refs) == Some(ref) by {
          FirstUnresolvedAt(file, refs, i);
        }
        return Failure(PythonError("KeyError", "Unable to open object " + ref));
      }
      var len := |file[ref].data|;
      if |shape| < 1 {
        return Failure(PythonError("IndexError", "tuple index out of range"));
      }
      if len == shape[0] {
        y := Some(ref);
      }
      if |shape| < 2 {
        return Failure(PythonError("IndexError", "tuple index out of range"));
      }
      if len == shape[1] {
        x := Some(ref);
      }
      LastWithLengthExtends(file, refs, i, shape[0]);
      LastWithLengthExtends(file, refs, i, shape[1]);
      i := i + 1;
    }
    assert refs[..i] == refs;
    return Unpack(x, y);
  }

  /** One more reference examined: it becomes the last match exactly when
      its scale has `n` values. */
  lemma LastWithLengthExtends(file: map<string, Dataset>, refs: seq<string>, i: nat, n: nat)
    requires i < |refs| && forall j :: 0 <= j <= i ==> refs[j] in file
    ensures LastWithLength(file, refs[..i + 1], n)
            == if |file[refs[i]].data| == n then Some(refs[i]) else LastWithLength(file, refs[..i], n)
  {
    assert refs[..i + 1][..i] == refs[..i];
  }

  lemma {:induction false} FirstUnresolvedAt(file: map<string, Dataset>, refs: seq<string>, i: nat)
    requires i < |refs| && refs[i] !in file
    requires forall j :: 0 <= j < i ==> refs[j] in file
    ensures FirstUnresolved(file, refs) == Some(refs[i])
    decreases i
  {
    if i > 0 {
      FirstUnresolvedAt(file, refs[1..], i - 1);
    }
  }

  /** On a square grid the same scale is both x and y. */
  lemma SquareGridSharesScale(file: map<string, Dataset>, refs: seq<string>, shape: seq<nat>)
    requires |shape| == 2 && shape[0] == shape[1]
    requires DimensionsFromList(file, refs, shape).Success?
    ensures DimensionsFromList(file, refs, shape).value.0 == DimensionsFromList(file, refs, shape).value.1
  {
  }

  // ---------------------------------------------------------------------
  // get_fill_value

  /** The `_FillValue` attribute when the dataset has a numeric one, else the
      caller's default. */
  function FillValue(ds: Dataset, default: real): (r: real)
    ensures "_FillValue" in ds.attrs && ds.attrs["_FillValue"].Number? ==> r == ds.attrs["_FillValue"].number
    ensures !("_FillValue" in ds.attrs && ds.attrs["_FillValue"].Number?) ==> r == default
  {
    if "_FillValue" in ds.attrs && ds.attrs["_FillValue"].Number? then ds.attrs["_FillValue"].number else default
  }
}
