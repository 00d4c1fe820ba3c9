/** The per-file work shared by pymods/H5MaskFill.py and the top-level
    H5MaskFill.py: `process_file` walks every dataset of an opened HDF5
    file, and `mask_fill` replaces each two-dimensional dataset by its
    mask-filled version, taking the mask from the in-memory memo
    (`saved_mask_arrays`), the cache directory or the MaskFill module.

    The two modules differ in the projection module they consult (the
    CF-checking H5GridProjectionInfo and the older GridProjectionInfo) and in
    how `get_mask_array` reaches the cache file; `Variant` selects which. */
module H5Processing {
  import opened Wrappers
  import opened Strings
  import opened Hdf
  import opened Foreign
  import opened FileSystem
  import Geometry
  import Caching = MaskFillCaching
  import H5 = H5GridProjectionInfo
  import Grid = GridProjectionInfo

  datatype Variant = Pymods | TopLevel

  /** The arguments `process_file` hands on to every `mask_fill` call; the
      policy is already lower-cased. */
  datatype Settings = Settings(
    variant: Variant,
    shapePath: string,
    cacheDir: string,
    policy: string,
    defaultFill: real,
    calls: Calls)

  // ---------------------------------------------------------------------
  // Mask ids and mask creation

  /** The proj4 string of a dataset, from the variant's projection module. */
  function HdfProj4(s: Settings, objects: map<string, Dataset>, key: string): Result<string, Failure>
    requires key in objects
  {
    match s.variant
    case Pymods => H5.GetHdfProj4(objects, key, s.calls)
    case TopLevel => Grid.GetHdfProj4(objects, key, s.calls)
  }

  /** The transform of a dataset, from the variant's projection module. */
  function Transform(s: Settings, objects: map<string, Dataset>, key: string): (r: Result<Geometry.Affine, Failure>)
    requires key in objects
    ensures r.Success? ==> r == H5.GetTransform(objects, key)
  {
    Grid.SameTransform(objects, key);
    match s.variant
    case Pymods => H5.GetTransform(objects, key)
    case TopLevel => Grid.GetTransform(objects, key)
  }

  /** `get_mask_array_id` of either module: the digest of the proj4 string,
      the transform, the shape and the shapefile path. */
  function MaskArrayId(s: Settings, objects: map<string, Dataset>, key: string): (r: Result<HexDigest, Failure>)
    requires key in objects
    ensures r.Success? <==> HdfProj4(s, objects, key).Success? && Transform(s, objects, key).Success?
    ensures r.Success? ==> r.value == Caching.CreateMaskArrayId(HdfProj4(s, objects, key).value,
                                                                 Transform(s, objects, key).value,
                                                                 objects[key].shape, s.shapePath, s.calls)
  {
    match s.variant
    case Pymods => Caching.H5MaskArrayId(objects, key, s.shapePath, s.calls)
    case TopLevel =>
      var projString :- Grid.GetHdfProj4(objects, key, s.calls);
      var transform :- Grid.GetTransform(objects, key);
      Success(Caching.CreateMaskArrayId(projString, transform, objects[key].shape, s.shapePath, s.calls))
  }

  /** `create_mask_array` of either module: the shapes projected to the
      dataset's CRS, rasterised on its grid (both by the MaskFill module). */
  function CreateMaskArray(s: Settings, objects: map<string, Dataset>, key: string): (r: Result<Mask, Failure>)
    requires key in objects
    ensures r.Success? ==> HdfProj4(s, objects, key).Success? && Transform(s, objects, key).Success?
    ensures r.Success? ==> Lift(s.calls.maskArray(HdfProj4(s, objects, key).value, s.shapePath,
                                                  objects[key].shape, Transform(s, objects, key).value)) == r
  {
    var proj4 :- HdfProj4(s, objects, key);
    var transform :- Transform(s, objects, key);
    Lift(s.calls.maskArray(proj4, s.shapePath, objects[key].shape, transform))
  }

  /** The cache file `get_mask_array` would read for a mask id. */
  function CachedMask(s: Settings, id: HexDigest, npy: map<string, Mask>): Option<Mask> {
    var path := Caching.MaskArrayPathFromId(id, s.cacheDir);
    if Caching.UsesCache(s.policy) && path in npy then Some(npy[path]) else None
  }

  // ---------------------------------------------------------------------
  // get_mask_array: the memo

  /** `get_mask_array`: the memo entry for the dataset's id when there is
      one; otherwise the cached mask file when the policy reads the cache and
      the file exists, else a newly created mask; the mask found is then
      stored under its id. Returns the mask and the new memo. */
  function GetMaskArray(s: Settings, objects: map<string, Dataset>, key: string, saved: map<HexDigest, Mask>,
                        npy: map<string, Mask>): Result<(Mask, map<HexDigest, Mask>), Failure>
    requires key in objects
  {
    var id :- MaskArrayId(s, objects, key);
    if id in saved then Success((saved[id], saved))
    else
      var cached := CachedMask(s, id, npy);
      if cached.Some? then Success((cached.value, saved[id := cached.value]))
      else
        var mask :- CreateMaskArray(s, objects, key);
        Success((mask, saved[id := mask]))
  }

  /** What `get_mask_array` returns: the id's failure, the memo entry, the
      cached file or the newly created mask, in that order of preference; a
      mask found is stored under its id and nothing else in the memo changes. */
  lemma GetMaskArrayCases(s: Settings, objects: map<string, Dataset>, key: string, saved: map<HexDigest, Mask>,
                          npy: map<string, Mask>)
    requires key in objects
    ensures var r, id := GetMaskArray(s, objects, key, saved, npy), MaskArrayId(s, objects, key);
            && (id.Failure? ==> r == Failure(id.error))
            && (id.Success? && id.value in saved ==> r == Success((saved[id.value], saved)))
            && (r.Success? ==> id.Success? && r.value.1 == saved[id.value := r.value.0])
    ensures var r, id := GetMaskArray(s, objects, key, saved, npy), MaskArrayId(s, objects, key);
            id.Success? && id.value !in saved ==>
              var cached := CachedMask(s, id.value, npy);
              && (cached.Some? ==> r == Success((cached.value, saved[id.value := cached.value])))
              && (cached.None? ==> (r.Success? <==> CreateMaskArray(s, objects, key).Success?))
              && (cached.None? && r.Success? ==> r.value.0 == CreateMaskArray(s, objects, key).value)
  {
  }

  /** Two datasets of one file on the same grid (equal proj4 string,
      transform and shape) get one mask id; so once the first has its mask,
      the second is served the same mask from the memo, which stays as it is. */
  lemma SameGridSharesMask(s: Settings, objects: map<string, Dataset>, k1: string, k2: string,
                           saved: map<HexDigest, Mask>, npy: map<string, Mask>)
    requires k1 in objects && k2 in objects
    requires HdfProj4(s, objects, k1).Success? && HdfProj4(s, objects, k1) == HdfProj4(s, objects, k2)
    requires Transform(s, objects, k1).Success? && Transform(s, objects, k1) == Transform(s, objects, k2)
    requires objects[k1].shape == objects[k2].shape
    ensures MaskArrayId(s, objects, k1).Success? && MaskArrayId(s, objects, k1) == MaskArrayId(s, objects, k2)
    ensures var first := GetMaskArray(s, objects, k1, saved, npy);
            first.Success? ==>
              GetMaskArray(s, objects, k2, first.value.1, npy) == Success((first.value.0, first.value.1))
  {
    var first := GetMaskArray(s, objects, k1, saved, npy);
    GetMaskArrayCases(s, objects, k1, saved, npy);
    if first.Success? {
      GetMaskArrayCases(s, objects, k2, first.value.1, npy);
    }
  }

  /** On the pymods side the cache is read through MaskFillCaching's
      `get_cached_mask_array`, which computes the id again; it finds the same
      file as `CachedMask`. */
  lemma PymodsCacheLookup(s: Settings, objects: map<string, Dataset>, key: string, npy: map<string, Mask>)
    requires key in objects && s.variant == Pymods
    requires MaskArrayId(s, objects, key).Success?
    ensures Caching.GetCachedMaskArray(objects, key, s.shapePath, s.cacheDir, s.policy, npy, s.calls)
            == Success(CachedMask(s, MaskArrayId(s, objects, key).value, npy))
  {
  }

  // ---------------------------------------------------------------------
  // mask_fill: statistics over the values left unfilled

  /** `mask_filled_data[mask_filled_data != fill_value]`. */
  function Unfilled(values: seq<real>, fill: real): (r: seq<real>)
    ensures forall x :: x in r <==> x in values && x != fill
    ensures |r| <= |values|
  {
    if values == [] then []
    else (if values[0] != fill then [values[0]] else []) + Unfilled(values[1..], fill)
  }

  /** Python's `max` of a non-empty sequence. */
  function Max(values: seq<real>): (m: real)
    requires |values| > 0
    ensures m in values
    ensures forall x :: x in values ==> x <= m
  {
    if |values| == 1 then values[0]
    else
      assert values == [values[0]] + values[1..];
      var rest := Max(values[1..]);
      if values[0] >= rest then values[0] else rest
  }

  /** Python's `min` of a non-empty sequence. */
  function Min(values: seq<real>): (m: real)
    requires |values| > 0
    ensures m in values
    ensures forall x :: x in values ==> m <= x
  {
    if |values| == 1 then values[0]
    else
      assert values == [values[0]] + values[1..];
      var rest := Min(values[1..]);
      if values[0] <= rest then values[0] else rest
  }

  datatype Statistics = Statistics(attrs: map<string, AttrValue>, error: Option<Failure>)

  /** The three `attrs.modify` calls, each only when its attribute exists,
      in source order; `max` and `min` of no values raise ValueError, which
      stops the remaining updates. */
  function UpdatedStatistics(attrs: map<string, AttrValue>, values: seq<real>, calls: Calls): (r: Statistics)
    ensures r.attrs.Keys == attrs.Keys
    ensures forall k :: k in attrs && k != "observed_max" && k != "observed_min" && k != "observed_mean"
                        ==> r.attrs[k] == attrs[k]
    ensures r.error.Some? <==> values == [] && ("observed_max" in attrs || "observed_min" in attrs)
    ensures r.error.Some? ==> r.error.value.PythonError?
    ensures r.error.None? && "observed_max" in attrs ==>
              r.attrs["observed_max"].Number? && r.attrs["observed_max"].number in values
              && forall x :: x in values ==> x <= r.attrs["observed_max"].number
    ensures r.error.None? && "observed_min" in attrs ==>
              r.attrs["observed_min"].Number? && r.attrs["observed_min"].number in values
              && forall x :: x in values ==> r.attrs["observed_min"].number <= x
    ensures r.error.None? && "observed_mean" in attrs ==> r.attrs["observed_mean"] == Number(calls.mean(values))
    ensures r.error.Some? ==> r.attrs == attrs
  {
    if "observed_max" in attrs && values == [] then
      Statistics(attrs, Some(PythonError("ValueError", "max() arg is an empty sequence")))
    else
      var afterMax := if "observed_max" in attrs then attrs["observed_max" := Number(Max(values))] else attrs;
      if "observed_min" in afterMax && values == [] then
        Statistics(afterMax, Some(PythonError("ValueError", "min() arg is an empty sequence")))
      else
        var afterMin := if "observed_min" in afterMax then afterMax["observed_min" := Number(Min(values))] else afterMax;
        var afterMean := if "observed_mean" in afterMin then afterMin["observed_mean" := Number(calls.mean(values))] else afterMin;
        Statistics(afterMean, None)
  }

  // ---------------------------------------------------------------------
  // mask_fill and process_file as functions of the file and the memo

  datatype State = State(objects: map<string, Dataset>, saved: map<HexDigest, Mask>)

  /** The state after a run, and the exception that ended it early, if any. */
  datatype Outcome = Outcome(state: State, error: Option<Failure>)

  /** A two-dimensional dataset after `mask_fill` has written the filled
      data and updated its statistics, and the exception raised on the way. */
  function Filled(s: Settings, ds: Dataset, mask: Mask): (r: (Dataset, Option<Failure>))
    ensures r.0.shape == ds.shape && r.0.attrs.Keys == ds.attrs.Keys
  {
    var fill := FillValue(ds, s.defaultFill);
    var filled := s.calls.maskFillArray(ds.data, mask, fill);
    var stats := UpdatedStatistics(ds.attrs, Unfilled(filled, fill), s.calls);
    (Dataset(ds.shape, filled, stats.attrs), stats.error)
  }

  /** `mask_fill` on the dataset `key`. */
  function MaskFillStep(s: Settings, st: State, key: string, npy: map<string, Mask>): (o: Outcome)
    requires key in st.objects
    ensures o.state.objects.Keys == st.objects.Keys
    ensures forall k :: k in st.objects && k != key ==> o.state.objects[k] == st.objects[k]
    ensures |st.objects[key].shape| != 2 ==> o == Outcome(st, None)
    ensures s.policy == "maskgrid_only" ==> o.state.objects == st.objects
    ensures o.state.objects[key].shape == st.objects[key].shape
  {
    var ds := st.objects[key];
    if |ds.shape| != 2 then Outcome(st, None)
    else
      var got := GetMaskArray(s, st.objects, key, st.saved, npy);
      if got.Failure? then Outcome(st, Some(got.error))
      else if s.policy == "maskgrid_only" then Outcome(State(st.objects, got.value.1), None)
      else
        var after := Filled(s, ds, got.value.0);
        Outcome(State(st.objects[key := after.0], got.value.1), after.1)
  }

  /** `mask_fill` of a two-dimensional dataset raises what `get_mask_array`
      raises, with nothing changed, and otherwise leaves the memo
      `get_mask_array` leaves. */
  lemma MaskFillStepMask(s: Settings, st: State, key: string, npy: map<string, Mask>)
    requires key in st.objects && |st.objects[key].shape| == 2
    ensures var got, o := GetMaskArray(s, st.objects, key, st.saved, npy), MaskFillStep(s, st, key, npy);
            && (got.Failure? ==> o == Outcome(st, Some(got.error)))
            && (got.Success? ==> o.state.saved == got.value.1)
  {
  }

  /** What a successful `mask_fill` of a two-dimensional dataset writes: the
      data the MaskFill module returns for the dataset's mask and fill value,
      and statistics over the values that differ from the fill value. */
  lemma MaskFillWrites(s: Settings, st: State, key: string, npy: map<string, Mask>)
    requires key in st.objects && |st.objects[key].shape| == 2 && s.policy != "maskgrid_only"
    ensures var ds := st.objects[key];
            var after := MaskFillStep(s, st, key, npy).state;
            MaskFillStep(s, st, key, npy).error.None? ==>
            var got := GetMaskArray(s, st.objects, key, st.saved, npy);
            var fill := FillValue(ds, s.defaultFill);
            got.Success? && after.saved == got.value.1
            && after.objects[key].data == s.calls.maskFillArray(ds.data, got.value.0, fill)
            && after.objects[key].attrs.Keys == ds.attrs.Keys
            && ("observed_max" in ds.attrs ==>
                  forall x :: x in after.objects[key].data && x != fill ==> x <= after.objects[key].attrs["observed_max"].number)
            && ("observed_min" in ds.attrs ==>
                  forall x :: x in after.objects[key].data && x != fill ==> after.objects[key].attrs["observed_min"].number <= x)
  {
  }

  /** The datasets an opened file links to are all in its object store. */
  predicate Linked(keys: seq<string>, objects: map<string, Dataset>) {
    forall k :: k in keys ==> k in objects
  }

  /** `mask_fill` applied to the listed datasets in order, stopping at the
      first exception. */
  function Walk(s: Settings, keys: seq<string>, st: State, npy: map<string, Mask>): (o: Outcome)
    requires Linked(keys, st.objects)
    ensures o.state.objects.Keys == st.objects.Keys
    decreases |keys|
  {
    if keys == [] then Outcome(st, None)
    else
      var first := MaskFillStep(s, st, keys[0], npy);
      if first.error.Some? then first
      else Walk(s, keys[1..], first.state, npy)
  }

  /** Walking two lists is walking the first, then (without an exception)
      the second. */
  lemma {:induction false} WalkAppend(s: Settings, a: seq<string>, b: seq<string>, st: State, npy: map<string, Mask>)
    requires Linked(a + b, st.objects)
    ensures Linked(a, st.objects)
    ensures Walk(s, a, st, npy).error.None? ==> Linked(b, Walk(s, a, st, npy).state.objects)
    ensures Walk(s, a + b, st, npy)
            == if Walk(s, a, st, npy).error.Some? then Walk(s, a, st, npy)
               else Walk(s, b, Walk(s, a, st, npy).state, npy)
    decreases |a|
  {
    assert forall k :: k in a ==> k in a + b;
    if a != [] {
      assert (a + b)[0] == a[0] && (a + b)[1..] == a[1..] + b;
      var first := MaskFillStep(s, st, a[0], npy);
      if first.error.None? {
        WalkAppend(s, a[1..], b, first.state, npy);
      }
    } else {
      assert a + b == b;
    }
  }

  /** An exception while walking the first list ends the walk of both. */
  lemma WalkErrorPrefix(s: Settings, a: seq<string>, b: seq<string>, st: State, npy: map<string, Mask>)
    requires Linked(a + b, st.objects)
    ensures Linked(a, st.objects)
    ensures Walk(s, a, st, npy).error.Some? ==> Walk(s, a + b, st, npy) == Walk(s, a, st, npy)
  {
    WalkAppend(s, a, b, st, npy);
  }

  /** A dataset that is not walked keeps its data and attributes. */
  lemma {:induction false} WalkFrame(s: Settings, keys: seq<string>, st: State, npy: map<string, Mask>, k: string)
    requires Linked(keys, st.objects) && k in st.objects && k !in keys
    ensures Walk(s, keys, st, npy).state.objects[k] == st.objects[k]
    decreases |keys|
  {
    if keys != [] {
      var first := MaskFillStep(s, st, keys[0], npy);
      if first.error.None? {
        WalkFrame(s, keys[1..], first.state, npy, k);
      }
    }
  }

  /** Under `maskgrid_only` no dataset is written. */
  lemma {:induction false} WalkMaskgridOnly(s: Settings, keys: seq<string>, st: State, npy: map<string, Mask>)
    requires Linked(keys, st.objects) && s.policy == "maskgrid_only"
    ensures Walk(s, keys, st, npy).state.objects == st.objects
    decreases |keys|
  {
    if keys != [] {
      var first := MaskFillStep(s, st, keys[0], npy);
      if first.error.None? {
        WalkMaskgridOnly(s, keys[1..], first.state, npy);
      }
    }
  }

  /** One `mask_fill` only adds to the memo. */
  lemma StepMemoGrows(s: Settings, st: State, key: string, npy: map<string, Mask>)
    requires key in st.objects
    ensures forall id :: id in st.saved ==>
              id in MaskFillStep(s, st, key, npy).state.saved && MaskFillStep(s, st, key, npy).state.saved[id] == st.saved[id]
  {
    GetMaskArrayCases(s, st.objects, key, st.saved, npy);
  }

  /** The memo only grows: every entry, once stored, keeps its mask. */
  lemma {:induction false} WalkMemoGrows(s: Settings, keys: seq<string>, st: State, npy: map<string, Mask>)
    requires Linked(keys, st.objects)
    ensures forall id :: id in st.saved ==>
              id in Walk(s, keys, st, npy).state.saved && Walk(s, keys, st, npy).state.saved[id] == st.saved[id]
    decreases |keys|
  {
    if keys != [] {
      var first := MaskFillStep(s, st, keys[0], npy);
      StepMemoGrows(s, st, keys[0], npy);
      if first.error.None? {
        WalkMemoGrows(s, keys[1..], first.state, npy);
      }
    }
  }

  /** A `mask_fill` of a two-dimensional dataset that raises nothing leaves
      the dataset's mask id in the memo. */
  lemma StepStoresMask(s: Settings, st: State, key: string, npy: map<string, Mask>)
    requires key in st.objects && |st.objects[key].shape| == 2
    requires MaskFillStep(s, st, key, npy).error.None?
    ensures MaskArrayId(s, st.objects, key).Success?
    ensures MaskArrayId(s, st.objects, key).value in MaskFillStep(s, st, key, npy).state.saved
  {
    GetMaskArrayCases(s, st.objects, key, st.saved, npy);
  }

  /** After a walk without an exception, every two-dimensional dataset it
      visited has its mask id in the memo (computed on the file as it was when
      the walk reached that dataset, after the datasets `pre` before it). */
  lemma WalkStoresMasks(s: Settings, pre: seq<string>, key: string, post: seq<string>, st: State,
                        npy: map<string, Mask>)
    requires Linked(pre + [key] + post, st.objects)
    requires Walk(s, pre + [key] + post, st, npy).error.None?
    ensures Linked(pre, st.objects) && key in Walk(s, pre, st, npy).state.objects
    ensures var mid := Walk(s, pre, st, npy).state;
            |mid.objects[key].shape| == 2 ==>
              && MaskArrayId(s, mid.objects, key).Success?
              && MaskArrayId(s, mid.objects, key).value in Walk(s, pre + [key] + post, st, npy).state.saved
  {
    var rest := [key] + post;
    assert pre + [key] + post == pre + rest;
    WalkAppend(s, pre, rest, st, npy);
    var mid := Walk(s, pre, st, npy);
    assert mid.error.None?;
    var step := MaskFillStep(s, mid.state, key, npy);
    assert Walk(s, rest, mid.state, npy) == if step.error.Some? then step else Walk(s, post, step.state, npy) by {
      assert rest[0] == key && rest[1..] == post;
    }
    if |mid.state.objects[key].shape| == 2 {
      StepStoresMask(s, mid.state, key, npy);
      WalkMemoGrows(s, post, step.state, npy);
    }
  }

  /** The top-level module consults GridProjectionInfo only, so no
      `mask_fill` of it raises a CF-compliance error. */
  lemma TopLevelStepNeverCompliance(s: Settings, st: State, key: string, npy: map<string, Mask>)
    requires key in st.objects && s.variant == TopLevel
    ensures MaskFillStep(s, st, key, npy).error.Some? ==> !MaskFillStep(s, st, key, npy).error.value.CFComplianceError?
  {
    GetMaskArrayCases(s, st.objects, key, st.saved, npy);
  }

  lemma {:induction false} TopLevelWalkNeverCompliance(s: Settings, keys: seq<string>, st: State, npy: map<string, Mask>)
    requires Linked(keys, st.objects) && s.variant == TopLevel
    ensures Walk(s, keys, st, npy).error.Some? ==> !Walk(s, keys, st, npy).error.value.CFComplianceError?
    decreases |keys|
  {
    if keys != [] {
      var first := MaskFillStep(s, st, keys[0], npy);
      TopLevelStepNeverCompliance(s, st, keys[0], npy);
      if first.error.None? {
        TopLevelWalkNeverCompliance(s, keys[1..], first.state, npy);
      }
    }
  }

  /** The pymods module reports a two-dimensional dataset without a
      DIMENSION_LIST as not CF compliant, before the memo is consulted. */
  lemma PymodsReportsMissingDimensionList(s: Settings, st: State, key: string, npy: map<string, Mask>)
    requires key in st.objects && s.variant == Pymods
    requires |st.objects[key].shape| == 2 && "DIMENSION_LIST" !in st.objects[key].attrs
    ensures MaskFillStep(s, st, key, npy)
            == Outcome(st, Some(CFComplianceError("The dataset " + key + " does not have a DIMENSION_LIST attribute")))
  {
    GetMaskArrayCases(s, st.objects, key, st.saved, npy);
  }

  // ---------------------------------------------------------------------
  // The imperative side: the opened file, the memo, and the walk

  /** An HDF5 file opened for update: its links are fixed, its datasets are
      rewritten in place. */
  class H5File {
    const root: Node
    var objects: map<string, Dataset>

    constructor (content: H5Content)
      ensures root == content.root && objects == content.objects
    {
      root := content.root;
      objects := content.objects;
    }
  }

  /** The `saved_mask_arrays` dictionary shared by all `mask_fill` calls of
      one `produce_masked_hdf`. */
  class MaskMemo {
    var saved: map<HexDigest, Mask>

    constructor ()
      ensures saved == map[]
    {
      saved := map[];
    }
  }

  /** `get_mask_array`: consults and updates the memo. */
  method GetMaskArrayInto(s: Settings, file: H5File, key: string, memo: MaskMemo, npy: map<string, Mask>)
    returns (r: Result<Mask, Failure>)
    requires key in file.objects
    modifies memo
    ensures var spec := GetMaskArray(s, file.objects, key, old(memo.saved), npy);
            (r.Success? <==> spec.Success?)
            && (r.Success? ==> r.value == spec.value.0 && memo.saved == spec.value.1)
            && (r.Failure? ==> r.error == spec.error && memo.saved == old(memo.saved))
  {
    var id := MaskArrayId(s, file.objects, key);
    if id.Failure? {
      return Failure(id.error);
    }
    if id.value in memo.saved {
      return Success(memo.saved[id.value]);
    }
    var mask: Mask;
    var cached := CachedMask(s, id.value, npy);
    if cached.Some? {
      mask := cached.value;
    } else {
      var created := CreateMaskArray(s, file.objects, key);
      if created.Failure? {
        return Failure(created.error);
      }
      mask := created.value;
    }
    memo.saved := memo.saved[id.value := mask];
    return Success(mask);
  }

  /** `mask_fill`: rewrites the dataset `key` in place. */
  method MaskFill(s: Settings, file: H5File, key: string, memo: MaskMemo, npy: map<string, Mask>)
    returns (err: Option<Failure>)
    requires key in file.objects
    modifies file, memo
    ensures Outcome(State(file.objects, memo.saved), err)
            == MaskFillStep(s, State(old(file.objects), old(memo.saved)), key, npy)
  {
    var ds := file.objects[key];
    if |ds.shape| != 2 {
      return None;
    }
    var mask := GetMaskArrayInto(s, file, key, memo, npy);
    if mask.Failure? {
      return Some(mask.error);
    }
    err := None;
    if s.policy != "maskgrid_only" {
      var after := Filled(s, ds, mask.value);
      // write_direct of the filled data, then the statistics updates
      var written := ds.(data := after.0.data);
      file.objects := file.objects[key := written.(attrs := after.0.attrs)];
      err := after.1;
    }
  }

  /** One pass of the `process_children` loop: a group is walked
      recursively, a dataset is mask filled, anything else is skipped. */
  method ProcessChild(s: Settings, file: H5File, child: Node, memo: MaskMemo, npy: map<string, Mask>)
    returns (err: Option<Failure>)
    requires Linked(Datasets(child), file.objects)
    modifies file, memo
    ensures Outcome(State(file.objects, memo.saved), err)
            == Walk(s, Datasets(child), State(old(file.objects), old(memo.saved)), npy)
    decreases child, 1
  {
    ghost var before := State(file.objects, memo.saved);
    match child
    case Group(_) =>
      err := ProcessChildren(s, file, child, memo, npy);
    case DatasetLink(key) =>
      err := MaskFill(s, file, key, memo, npy);
      WalkOne(s, key, before, npy);
    case OtherObject =>
      err := None;
  }

  /** `process_children` on a group: each link in order; an exception ends
      the walk. */
  method ProcessChildren(s: Settings, file: H5File, group: Node, memo: MaskMemo, npy: map<string, Mask>)
    returns (err: Option<Failure>)
    requires group.Group? && Linked(Datasets(group), file.objects)
    modifies file, memo
    ensures Outcome(State(file.objects, memo.saved), err)
            == Walk(s, Datasets(group), State(old(file.objects), old(memo.saved)), npy)
    decreases group, 0
  {
    ghost var start := State(file.objects, memo.saved);
    var children := group.children;
    var i := 0;
    LinkedPrefix(group, 0, start.objects);
    while i < |children|
      invariant 0 <= i <= |children|
      invariant Linked(DatasetsOfFirst(group, i), start.objects)
      invariant Walk(s, DatasetsOfFirst(group, i), start, npy) == Outcome(State(file.objects, memo.saved), None)
    {
      ghost var before := State(file.objects, memo.saved);
      LinkedPrefix(group, i + 1, start.objects);
      WalkNextChild(s, group, i, start, before, npy);
      err := ProcessChild(s, file, children[i].node, memo, npy);
      if err.Some? {
        WalkStopsAtError(s, group, i + 1, start, npy);
        return;
      }
      i := i + 1;
    }
    err := None;
  }

  /** The walk over the first `i + 1` children, when the walk over the
      first `i` ends without an exception in `mid`, continues from `mid` with
      the datasets below child `i`. */
  lemma WalkNextChild(s: Settings, group: Node, i: nat, st: State, mid: State, npy: map<string, Mask>)
    requires group.Group? && i < |group.children| && Linked(DatasetsOfFirst(group, i + 1), st.objects)
    requires Linked(DatasetsOfFirst(group, i), st.objects)
    requires Walk(s, DatasetsOfFirst(group, i), st, npy) == Outcome(mid, None)
    ensures Linked(Datasets(group.children[i].node), mid.objects)
    ensures Walk(s, DatasetsOfFirst(group, i + 1), st, npy) == Walk(s, Datasets(group.children[i].node), mid, npy)
  {
    var prefix, next := DatasetsOfFirst(group, i), Datasets(group.children[i].node);
    assert DatasetsOfFirst(group, i + 1) == prefix + next;
    WalkAppend(s, prefix, next, st, npy);
  }

  /** Walking a single dataset is one `mask_fill`. */
  lemma WalkOne(s: Settings, key: string, st: State, npy: map<string, Mask>)
    requires key in st.objects
    ensures Walk(s, [key], st, npy) == MaskFillStep(s, st, key, npy)
  {
    assert [key][1..] == [];
  }

  /** A group's first `i` children link only datasets of a linked group. */
  lemma LinkedPrefix(group: Node, i: nat, objects: map<string, Dataset>)
    requires group.Group? && i <= |group.children| && Linked(Datasets(group), objects)
    ensures Linked(DatasetsOfFirst(group, i), objects)
    ensures i > 0 ==> Linked(Datasets(group.children[i - 1].node), objects)
  {
    forall k | k in DatasetsOfFirst(group, i)
      ensures k in objects
    {
      DatasetsOfFirstMembers(group, i, k);
      DatasetsOfFirstMembers(group, |group.children|, k);
    }
    if i > 0 {
      forall k | k in Datasets(group.children[i - 1].node)
        ensures k in objects
      {
        DatasetsOfFirstMembers(group, |group.children|, k);
      }
    }
  }

  /** Once the walk over a prefix of the children stops with an exception,
      the walk over all of them stops there too. */
  lemma {:induction false} WalkStopsAtError(s: Settings, group: Node, i: nat, st: State, npy: map<string, Mask>)
    requires group.Group? && i <= |group.children| && Linked(Datasets(group), st.objects)
    requires Linked(DatasetsOfFirst(group, i), st.objects)
    requires Walk(s, DatasetsOfFirst(group, i), st, npy).error.Some?
    ensures Walk(s, Datasets(group), st, npy) == Walk(s, DatasetsOfFirst(group, i), st, npy)
    decreases |group.children| - i
  {
    if i < |group.children| {
      LinkedPrefix(group, i + 1, st.objects);
      var prefix, next := DatasetsOfFirst(group, i), Datasets(group.children[i].node);
      assert DatasetsOfFirst(group, i + 1) == prefix + next;
      WalkErrorPrefix(s, prefix, next, st, npy);
      WalkStopsAtError(s, group, i + 1, st, npy);
    } else {
      assert Datasets(group) == DatasetsOfFirst(group, i);
    }
  }

  /** An HDF5 file as h5py presents it: a root group whose dataset links
      all resolve. */
  predicate WellFormed(content: H5Content) {
    content.root.Group? && Linked(Datasets(content.root), content.objects)
  }

  /** The whole walk of a file with an empty memo, as `produce_masked_hdf`
      starts it. */
  function WalkFile(s: Settings, content: H5Content, npy: map<string, Mask>): Outcome
    requires WellFormed(content)
  {
    Walk(s, Datasets(content.root), State(content.objects, map[]), npy)
  }

  /** What `h5py.File` raises on a path that holds no HDF5 file. */
  function OpenError(path: string): Failure {
    PythonError("OSError", "Unable to open file " + path)
  }

  /** `process_file(path, mask_fill, ...)`: opens the file for update, walks
      it, and closes it; what was written before an exception stays written. */
  method ProcessFile(s: Settings, path: string, disk: Disk, memo: MaskMemo) returns (err: Option<Failure>)
    requires path in disk.h5 ==> WellFormed(disk.h5[path])
    modifies disk, memo
    ensures disk.npy == old(disk.npy) && disk.others == old(disk.others)
    ensures path !in old(disk.h5) ==> err == Some(OpenError(path)) && disk.h5 == old(disk.h5) && memo.saved == old(memo.saved)
    ensures path in old(disk.h5) ==>
              var o := Walk(s, Datasets(old(disk.h5)[path].root), State(old(disk.h5)[path].objects, old(memo.saved)), old(disk.npy));
              disk.h5 == old(disk.h5)[path := H5Content(old(disk.h5)[path].root, o.state.objects)]
              && memo.saved == o.state.saved && err == o.error
  {
    if path !in disk.h5 {
      return Some(OpenError(path));
    }
    var file := new H5File(disk.h5[path]);
    err := ProcessChildren(s, file, file.root, memo, disk.npy);
    disk.h5 := disk.h5[path := H5Content(file.root, file.objects)];
  }

  // ---------------------------------------------------------------------
  // produce_masked_hdf: which file is processed

  /** The file that is processed: the input itself for `maskgrid_only`,
      otherwise the copy at the masked file path. */
  function Target(hdfPath: string, outputDir: string, policy: string, calls: Calls): string {
    if policy == "maskgrid_only" then hdfPath else calls.maskedFilePath(hdfPath, outputDir)
  }

  /** Whether the copy `shutil.copy` is asked to make would fail. */
  predicate CopyFails(hdfPath: string, policy: string, dst: string, h5: map<string, H5Content>) {
    policy != "maskgrid_only" && (hdfPath !in h5 || hdfPath == dst)
  }

  /** A run of `produce_masked_hdf`: what it returns or raises, and the
      HDF5 and mask files it leaves behind. */
  datatype Run = Run(result: Result<Option<string>, Failure>, h5: map<string, H5Content>, npy: map<string, Mask>)

  /** `produce_masked_hdf` of either module on the files `h5` and `npy`:
      the copy (skipped under `maskgrid_only`) and its exception, the open
      of the processed file and its exception, the walk, whose writes stay
      even when it raises, and, after a walk without an exception, the memo
      saved to the cache directory when `keeps` says so. The result is the
      masked file's path, or `None` under `maskgrid_only`. */
  function Produce(s: Settings, hdfPath: string, outputDir: string, keeps: bool,
                   h5: map<string, H5Content>, npy: map<string, Mask>): Run
    requires hdfPath in h5 ==> WellFormed(h5[hdfPath])
  {
    var target := Target(hdfPath, outputDir, s.policy, s.calls);
    if s.policy != "maskgrid_only" && CopyError(hdfPath, target, h5).Some? then
      Run(Failure(CopyError(hdfPath, target, h5).value), h5, npy)
    else if hdfPath !in h5 then Run(Failure(OpenError(hdfPath)), h5, npy)
    else
      var o := WalkFile(s, h5[hdfPath], npy);
      var written := h5[target := H5Content(h5[hdfPath].root, o.state.objects)];
      if o.error.Some? then Run(Failure(o.error.value), written, npy)
      else Run(Success(if s.policy == "maskgrid_only" then None else Some(target)), written,
               if keeps then Caching.Written(npy, o.state.saved, s.cacheDir) else npy)
  }

  /** The first half of `produce_masked_hdf`, the same in both modules: the
      copy to the masked file path (skipped under `maskgrid_only`) and
      `process_file` of the file processed, with a fresh memo. The files and
      the exception are those of `Produce`; after a walk without an exception
      the memo is the walk's. */
  method CopyAndProcess(s: Settings, hdfPath: string, outputDir: string, disk: Disk, memo: MaskMemo)
    returns (err: Option<Failure>)
    requires hdfPath in disk.h5 ==> WellFormed(disk.h5[hdfPath])
    requires memo.saved == map[]
    modifies disk, memo
    ensures var run := Produce(s, hdfPath, outputDir, false, old(disk.h5), old(disk.npy));
            && disk.h5 == run.h5 && disk.npy == old(disk.npy) && disk.others == old(disk.others)
            && (err.None? <==> run.result.Success?)
            && (err.Some? ==> run.result.error == err.value)
    ensures err.None? ==> hdfPath in old(disk.h5) && memo.saved == WalkFile(s, old(disk.h5)[hdfPath], old(disk.npy)).state.saved
  {
    if s.policy == "maskgrid_only" {
      err := ProcessFile(s, hdfPath, disk, memo);
    } else {
      var newFilePath := s.calls.maskedFilePath(hdfPath, outputDir);
      err := disk.CopyH5(hdfPath, newFilePath);
      if err.Some? {
        return;
      }
      err := ProcessFile(s, newFilePath, disk, memo);
    }
  }

  /** Saving the memo or not changes only the mask files of a run, and only
      after a walk without an exception. */
  lemma ProduceKeeps(s: Settings, hdfPath: string, outputDir: string, h5: map<string, H5Content>, npy: map<string, Mask>)
    requires hdfPath in h5 ==> WellFormed(h5[hdfPath])
    ensures var kept, dropped := Produce(s, hdfPath, outputDir, true, h5, npy), Produce(s, hdfPath, outputDir, false, h5, npy);
            && kept.result == dropped.result && kept.h5 == dropped.h5 && dropped.npy == npy
            && (kept.result.Failure? ==> kept.npy == npy)
            && (kept.result.Success? ==> kept.npy == Caching.Written(npy, WalkFile(s, h5[hdfPath], npy).state.saved, s.cacheDir))
  {
  }

  /** What a run promises: it succeeds exactly when the input exists, the
      copy succeeds and the walk raises nothing; an exception leaves the mask
      files as they were; the input file is never altered; and no HDF5 file
      other than the processed one changes. */
  lemma ProduceOutcomes(s: Settings, hdfPath: string, outputDir: string, keeps: bool,
                        h5: map<string, H5Content>, npy: map<string, Mask>)
    requires hdfPath in h5 ==> WellFormed(h5[hdfPath])
    ensures var run, target := Produce(s, hdfPath, outputDir, keeps, h5, npy), Target(hdfPath, outputDir, s.policy, s.calls);
            && (run.result.Success? <==>
                  hdfPath in h5 && !CopyFails(hdfPath, s.policy, target, h5) && WalkFile(s, h5[hdfPath], npy).error.None?)
            && (run.result.Failure? ==> run.npy == npy)
            && (run.result.Success? ==> run.result.value == if s.policy == "maskgrid_only" then None else Some(target))
            && (hdfPath in h5 ==> hdfPath in run.h5 && run.h5[hdfPath] == h5[hdfPath])
            && (forall p :: p != target ==> (p in run.h5 <==> p in h5))
            && (forall p :: p != target && p in h5 ==> run.h5[p] == h5[p])
  {
    if hdfPath in h5 && s.policy == "maskgrid_only" {
      MaskgridOnlyKeepsInput(s, h5[hdfPath], npy);
    }
  }

  /** A `maskgrid_only` run that ends without an exception and keeps its
      memo leaves a cache file for the grid of every two-dimensional dataset
      of the input, holding that grid's mask. */
  lemma MaskgridOnlyCachesEveryGrid(s: Settings, hdfPath: string, outputDir: string,
                                    h5: map<string, H5Content>, npy: map<string, Mask>, k: string)
    requires hdfPath in h5 && WellFormed(h5[hdfPath]) && s.policy == "maskgrid_only"
    requires Produce(s, hdfPath, outputDir, true, h5, npy).result.Success?
    requires k in Datasets(h5[hdfPath].root) && |h5[hdfPath].objects[k].shape| == 2
    ensures MaskArrayId(s, h5[hdfPath].objects, k).Success?
    ensures var id := MaskArrayId(s, h5[hdfPath].objects, k).value;
            var o := WalkFile(s, h5[hdfPath], npy);
            && id in o.state.saved
            && Caching.MaskArrayPathFromId(id, s.cacheDir) in Produce(s, hdfPath, outputDir, true, h5, npy).npy
            && Produce(s, hdfPath, outputDir, true, h5, npy).npy[Caching.MaskArrayPathFromId(id, s.cacheDir)] == o.state.saved[id]
  {
    var o := WalkFile(s, h5[hdfPath], npy);
    ProduceOutcomes(s, hdfPath, outputDir, true, h5, npy);
    ProduceKeeps(s, hdfPath, outputDir, h5, npy);
    assert o.error.None? && Produce(s, hdfPath, outputDir, true, h5, npy).npy == Caching.Written(npy, o.state.saved, s.cacheDir);
    MaskgridOnlyWalkStores(s, h5[hdfPath], npy, k);
    Caching.WrittenFiles(npy, o.state.saved, s.cacheDir);
  }

  /** A key of a list splits it around one of its occurrences; every key
      before it is a key of the list. */
  lemma SplitAt(keys: seq<string>, k: string) returns (pre: seq<string>, post: seq<string>)
    requires k in keys
    ensures keys == pre + [k] + post
    ensures forall x :: x in pre ==> x in keys
  {
    var i :| 0 <= i < |keys| && keys[i] == k;
    pre, post := keys[..i], keys[i + 1..];
    assert keys == pre + [k] + post;
  }

  /** A `maskgrid_only` walk of a whole file that raises nothing stores the
      mask of every two-dimensional dataset of the file in its memo. */
  lemma MaskgridOnlyWalkStores(s: Settings, content: H5Content, npy: map<string, Mask>, k: string)
    requires WellFormed(content) && s.policy == "maskgrid_only" && WalkFile(s, content, npy).error.None?
    requires k in Datasets(content.root) && |content.objects[k].shape| == 2
    ensures MaskArrayId(s, content.objects, k).Success?
    ensures MaskArrayId(s, content.objects, k).value in WalkFile(s, content, npy).state.saved
  {
    var keys := Datasets(content.root);
    var st := State(content.objects, map[]);
    var pre, post := SplitAt(keys, k);
    assert Linked(pre, st.objects);
    WalkMaskgridOnly(s, pre, st, npy);
    assert Walk(s, pre, st, npy).state.objects == content.objects;
    WalkStoresMasks(s, pre, k, post, st, npy);
  }

  /** Under `maskgrid_only` the input file comes out as it went in: the walk
      builds masks and writes no dataset. */
  lemma MaskgridOnlyKeepsInput(s: Settings, content: H5Content, npy: map<string, Mask>)
    requires WellFormed(content) && s.policy == "maskgrid_only"
    ensures H5Content(content.root, WalkFile(s, content, npy).state.objects) == content
  {
    WalkMaskgridOnly(s, Datasets(content.root), State(content.objects, map[]), npy);
  }

  /** The walk reaches each dataset linked from the file, and only those: a
      key is walked exactly when some path of links leads to it. */
  lemma WalkVisitsReachableDatasets(content: H5Content, k: string)
    ensures k in Datasets(content.root) <==> exists path :: Lookup(content.root, path) == Some(DatasetLink(k))
  {
    DatasetsAreReachable(content.root, k);
  }
}
