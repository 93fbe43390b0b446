/** Assembling the volume (get_data) and its raw serialisation
    (write_raw_file): slices stacked in ascending z, cached in the
    module-level __cached_data__, written z-major as 16-bit samples. */
module Volume {
  import opened Common
  import opened Text
  import opened Slices

  /** Z planes of X rows of Y samples: numpy's (Z, X, Y) array. */
  type Volume = seq<Grid>

  predicate HasShape(v: Volume, z: int, x: int, y: int)
  {
    |v| == z && forall k :: 0 <= k < |v| ==> IsGrid(v[k], x, y)
  }

  /** What get_data computes before it opens any slice. */
  datatype Plan = Plan(names: seq<string>, x: int, y: int)

  /** The slice names; settings_filename is looked up once per index, so
      not at all for an empty range. */
  function PlanNames(settings: map<string, string>, z: int): (r: Result<seq<string>>)
    ensures r.Ok? ==> |r.value| == if z < 0 then 0 else z
  {
    if z <= 0 then Ok([])
    else
      var base :- Lookup(settings, "settings_filename");
      SliceNamesSpec(base, z);
      Ok(SliceNames(base, z))
  }

  /** slice_filenames and slice_dim, with the KeyError or ValueError of
      the first setting that is missing or not an integer. */
  function LoadPlan(settings: map<string, string>): Result<Plan>
  {
    var zText :- Lookup(settings, "VolSizeZ");
    var z :- PyInt(zText);
    var names :- PlanNames(settings, z);
    var xText :- Lookup(settings, "VolSizeX");
    var x :- PyInt(xText);
    var yText :- Lookup(settings, "VolSizeY");
    var y :- PyInt(yText);
    Ok(Plan(names, x, y))
  }

  /** The volume get_data builds from scratch: np.array of the slices. */
  function LoadVolume(settings: map<string, string>, files: map<string, seq<byte>>): Result<Volume>
  {
    var plan :- LoadPlan(settings);
    ReadSlices(plan.names, plan.x, plan.y, files)
  }

  /** The slice files get_data opens when it builds the volume. */
  function LoadAttempts(settings: map<string, string>, files: map<string, seq<byte>>): seq<string>
  {
    match LoadPlan(settings)
    case Err(_) => []
    case Ok(plan) => Attempts(plan.names, plan.x, plan.y, files)
  }

  /** A volume get_data builds has shape (Z, X, Y) for the integers the
      settings give, with one name per plane: settings_filename, '_' and
      the padded index; plane k is the grid decoded from slice file k. */
  lemma LoadVolumeSpec(settings: map<string, string>, files: map<string, seq<byte>>)
    requires LoadVolume(settings, files).Ok?
    ensures "VolSizeX" in settings && "VolSizeY" in settings && "VolSizeZ" in settings
    ensures PyInt(settings["VolSizeX"]).Ok? && PyInt(settings["VolSizeY"]).Ok? && PyInt(settings["VolSizeZ"]).Ok?
    ensures
      var vol := LoadVolume(settings, files).value;
      var x, y, z := PyInt(settings["VolSizeX"]).value, PyInt(settings["VolSizeY"]).value, PyInt(settings["VolSizeZ"]).value;
      var names := LoadPlan(settings).value.names;
      && HasShape(vol, if z < 0 then 0 else z, x, y)
      && (z > 0 ==> "settings_filename" in settings && names == SliceNames(settings["settings_filename"], z))
      && |names| == |vol|
      && forall k :: 0 <= k < |vol| ==> names[k] in files && DecodeSlice(files[names[k]], x, y) == Some(vol[k])
  {
    var plan := LoadPlan(settings).value;
    var vol := LoadVolume(settings, files).value;
    assert vol == ReadSlices(plan.names, plan.x, plan.y, files).value;
    forall k | 0 <= k < |vol| ensures IsGrid(vol[k], plan.x, plan.y) {
      assert ReadSlice(plan.names[k], plan.x, plan.y, files).Ok?;
    }
  }

  /** The KeyError or ValueError get_data raises before it opens a slice,
      in the order it evaluates the settings: VolSizeZ, then
      settings_filename (only for a positive Z), then VolSizeX, then
      VolSizeY.  With all of them in place the plan is made. */
  lemma LoadPlanErrors(settings: map<string, string>)
    ensures "VolSizeZ" !in settings ==> LoadPlan(settings) == Err(KeyMissing("VolSizeZ"))
    ensures "VolSizeZ" in settings && PyInt(settings["VolSizeZ"]).Err? ==>
      LoadPlan(settings) == Err(NotAnInteger(settings["VolSizeZ"]))
    ensures "VolSizeZ" in settings && PyInt(settings["VolSizeZ"]).Ok? ==>
      var z := PyInt(settings["VolSizeZ"]).value;
      && (z > 0 && "settings_filename" !in settings ==> LoadPlan(settings) == Err(KeyMissing("settings_filename")))
      && (z <= 0 || "settings_filename" in settings ==>
        && ("VolSizeX" !in settings ==> LoadPlan(settings) == Err(KeyMissing("VolSizeX")))
        && ("VolSizeX" in settings && PyInt(settings["VolSizeX"]).Err? ==>
              LoadPlan(settings) == Err(NotAnInteger(settings["VolSizeX"])))
        && ("VolSizeX" in settings && PyInt(settings["VolSizeX"]).Ok? ==>
          && ("VolSizeY" !in settings ==> LoadPlan(settings) == Err(KeyMissing("VolSizeY")))
          && ("VolSizeY" in settings && PyInt(settings["VolSizeY"]).Err? ==>
                LoadPlan(settings) == Err(NotAnInteger(settings["VolSizeY"])))
          && ("VolSizeY" in settings && PyInt(settings["VolSizeY"]).Ok? ==> LoadPlan(settings).Ok?)))
  {
  }

  /** get_data builds a volume exactly when the three sizes are present
      integers, settings_filename is present if Z is positive, and each
      slice file settings_filename + '_' + '%03d' % k for k < Z can be read
      and holds 2 * X * Y bytes for non-negative X and Y. */
  lemma LoadVolumeOk(settings: map<string, string>, files: map<string, seq<byte>>)
    ensures LoadVolume(settings, files).Ok? <==>
      && "VolSizeZ" in settings && PyInt(settings["VolSizeZ"]).Ok?
      && "VolSizeX" in settings && PyInt(settings["VolSizeX"]).Ok?
      && "VolSizeY" in settings && PyInt(settings["VolSizeY"]).Ok?
      && (PyInt(settings["VolSizeZ"]).value > 0 ==> "settings_filename" in settings)
      && forall k: nat :: k < PyInt(settings["VolSizeZ"]).value ==>
        var name := settings["settings_filename"] + "_" + Pad3(k);
        && name in files
        && 0 <= PyInt(settings["VolSizeX"]).value && 0 <= PyInt(settings["VolSizeY"]).value
        && |files[name]| == 2 * (PyInt(settings["VolSizeX"]).value * PyInt(settings["VolSizeY"]).value)
  {
    LoadPlanErrors(settings);
    if LoadPlan(settings).Ok? {
      var plan := LoadPlan(settings).value;
      var z := PyInt(settings["VolSizeZ"]).value;
      assert plan.x == PyInt(settings["VolSizeX"]).value && plan.y == PyInt(settings["VolSizeY"]).value;
      assert |plan.names| == if z < 0 then 0 else z;
      assert forall k: nat :: k < z ==> plan.names[k] == settings["settings_filename"] + "_" + Pad3(k);
      assert (forall k :: 0 <= k < |plan.names| ==> ReadSlice(plan.names[k], plan.x, plan.y, files).Ok?)
         <==> forall k: nat :: k < z ==> ReadSlice(plan.names[k], plan.x, plan.y, files).Ok?;
    }
  }

  /** When the plan is made but the volume is not, the error is that of
      the first slice file that cannot be read or has the wrong size, and
      every earlier one was read. */
  lemma LoadVolumeFailure(settings: map<string, string>, files: map<string, seq<byte>>)
    requires LoadVolume(settings, files).Err?
    ensures LoadPlan(settings).Err? ==> LoadVolume(settings, files) == Err(LoadPlan(settings).error)
    ensures LoadPlan(settings).Ok? ==>
      var plan := LoadPlan(settings).value;
      exists k :: 0 <= k < |plan.names|
        && (forall j :: 0 <= j < k ==> ReadSlice(plan.names[j], plan.x, plan.y, files).Ok?)
        && ReadSlice(plan.names[k], plan.x, plan.y, files).Err?
        && LoadVolume(settings, files).error ==
             if plan.names[k] !in files then SliceUnreadable(plan.names[k]) else SliceSizeMismatch(plan.names[k])
  {
  }

  // ---- raw output ----

  /** The samples of a plane, row after row. */
  function PlaneSamples(g: Grid): seq<int16>
  {
    Concat(g)
  }

  function Planes(v: Volume): (r: seq<seq<int16>>)
    ensures |r| == |v| && forall k :: 0 <= k < |v| ==> r[k] == PlaneSamples(v[k])
  {
    seq(|v|, k requires 0 <= k < |v| => PlaneSamples(v[k]))
  }

  /** The samples of the volume in z-major, then x, then y order. */
  function Flatten(v: Volume): seq<int16>
  {
    Concat(Planes(v))
  }

  /** volume_data.tofile(filename): every sample, in order, low byte first. */
  function RawBytes(v: Volume): seq<byte>
  {
    SamplesBytes(Flatten(v))
  }

  lemma {:induction false} SamplesBytesAt(s: seq<int16>, i: nat)
    requires i < |s|
    ensures SamplesBytes(s)[2 * i..2 * i + 2] == EncodeInt16(s[i])
  {
    if i > 0 {
      SamplesBytesAt(s[1..], i - 1);
      assert SamplesBytes(s)[2 * i..2 * i + 2] == SamplesBytes(s[1..])[2 * (i - 1)..2 * (i - 1) + 2];
    }
  }

  lemma MulSucc(a: nat, m: nat)
    ensures (a + 1) * m == a * m + m
  {
  }

  lemma MulMonotone(a: nat, b: nat, m: nat)
    requires a <= b
    ensures a * m <= b * m
  {
  }

  lemma MulDistrib(k: nat, x: nat, r: nat, y: nat)
    ensures (k * x + r) * y == k * (x * y) + r * y
  {
  }

  /** The index arithmetic of a (Z, X, Y) layout. */
  lemma IndexArithmetic(z: nat, x: nat, y: nat, k: nat, r: nat, c: nat)
    requires k < z && r < x && c < y
    ensures r * y + c < x * y
    ensures k * (x * y) + (r * y + c) == (k * x + r) * y + c
    ensures (k * x + r) * y + c < z * (x * y)
  {
    var n := x * y;
    MulSucc(r, y);
    MulMonotone(r + 1, x, y);
    MulDistrib(k, x, r, y);
    MulSucc(k, n);
    MulMonotone(k + 1, z, n);
  }

  /** Sample (r, c) of plane k of a (Z, X, Y) volume is flattened to index
      (k * X + r) * Y + c. */
  lemma FlattenAt(v: Volume, z: nat, x: nat, y: nat, k: nat, r: nat, c: nat, i: nat)
    requires HasShape(v, z, x, y)
    requires k < z && r < x && c < y && i == (k * x + r) * y + c
    ensures i < |Flatten(v)| && Flatten(v)[i] == v[k][r][c]
  {
    var planes := Planes(v);
    var n := x * y;
    forall j | 0 <= j < |planes| ensures |planes[j]| == n {
      ConcatUniformLength(v[j], y);
    }
    IndexArithmetic(z, x, y, k, r, c);
    ConcatUniformAt(v[k], y, r, c);
    ConcatUniformAt(planes, n, k, r * y + c);
  }

  /** The position of sample (k, r, c) in z-major, then x, then y order. */
  function Offset(x: nat, y: nat, k: nat, r: nat, c: nat): nat
  {
    (k * x + r) * y + c
  }

  /** The raw output of a (Z, X, Y) volume is exactly 2 * X * Y * Z bytes,
      and sample (k, r, c) is stored, low byte first, at byte
      2 * ((k * X + r) * Y + c). */
  lemma RawBytesLayout(v: Volume, z: nat, x: nat, y: nat)
    requires HasShape(v, z, x, y)
    ensures |RawBytes(v)| == 2 * (x * y * z)
    ensures forall k, r, c :: 0 <= k < z && 0 <= r < x && 0 <= c < y ==>
      2 * Offset(x, y, k, r, c) + 2 <= |RawBytes(v)| &&
      RawBytes(v)[2 * Offset(x, y, k, r, c)..2 * Offset(x, y, k, r, c) + 2] == EncodeInt16(v[k][r][c])
  {
    RawBytesLength(v, z, x, y);
    forall k, r, c | 0 <= k < z && 0 <= r < x && 0 <= c < y
      ensures 2 * Offset(x, y, k, r, c) + 2 <= |RawBytes(v)|
      ensures RawBytes(v)[2 * Offset(x, y, k, r, c)..2 * Offset(x, y, k, r, c) + 2] == EncodeInt16(v[k][r][c])
    {
      RawBytesAt(v, z, x, y, k, r, c, Offset(x, y, k, r, c));
    }
  }

  lemma RawBytesLength(v: Volume, z: nat, x: nat, y: nat)
    requires HasShape(v, z, x, y)
    ensures |RawBytes(v)| == 2 * (x * y * z)
  {
    var planes := Planes(v);
    var n := x * y;
    forall j | 0 <= j < |planes| ensures |planes[j]| == n {
      ConcatUniformLength(v[j], y);
    }
    ConcatUniformLength(planes, n);
    assert z * n == x * y * z;
  }

  lemma RawBytesAt(v: Volume, z: nat, x: nat, y: nat, k: nat, r: nat, c: nat, i: nat)
    requires HasShape(v, z, x, y)
    requires k < z && r < x && c < y && i == (k * x + r) * y + c
    ensures 2 * i + 2 <= |RawBytes(v)| && RawBytes(v)[2 * i..2 * i + 2] == EncodeInt16(v[k][r][c])
  {
    FlattenAt(v, z, x, y, k, r, c, i);
    SamplesBytesAt(Flatten(v), i);
  }

  lemma {:induction false} SamplesBytesConcat(ss: seq<seq<int16>>)
    ensures SamplesBytes(Concat(ss)) == Concat(seq(|ss|, k requires 0 <= k < |ss| => SamplesBytes(ss[k])))
  {
    var bs := seq(|ss|, k requires 0 <= k < |ss| => SamplesBytes(ss[k]));
    if |ss| > 0 {
      var n := |ss| - 1;
      SamplesBytesConcat(ss[..n]);
      SamplesBytesAppend(Concat(ss[..n]), ss[n]);
      assert bs[..n] == seq(n, k requires 0 <= k < n => SamplesBytes(ss[..n][k]));
    }
  }

  /** The decompressed bytes of the slice files, in order. */
  function SliceBytes(names: seq<string>, files: map<string, seq<byte>>): seq<seq<byte>>
    requires forall k :: 0 <= k < |names| ==> names[k] in files
  {
    seq(|names|, k requires 0 <= k < |names| => files[names[k]])
  }

  /** Writing the raw file of a freshly loaded volume reproduces the
      decompressed slice files byte for byte, one after another in
      ascending z. */
  lemma RawBytesOfLoad(settings: map<string, string>, files: map<string, seq<byte>>)
    requires LoadVolume(settings, files).Ok?
    ensures LoadPlan(settings).Ok?
    ensures forall k :: 0 <= k < |LoadPlan(settings).value.names| ==> LoadPlan(settings).value.names[k] in files
    ensures RawBytes(LoadVolume(settings, files).value) == Concat(SliceBytes(LoadPlan(settings).value.names, files))
  {
    var plan := LoadPlan(settings).value;
    var vol := LoadVolume(settings, files).value;
    var names := plan.names;
    LoadVolumeSpec(settings, files);
    var planes := Planes(vol);
    var bs := SliceBytes(names, files);
    SamplesBytesConcat(planes);
    var encoded := seq(|planes|, k requires 0 <= k < |planes| => SamplesBytes(planes[k]));
    forall k | 0 <= k < |planes| ensures encoded[k] == bs[k] {
      DecodeSliceBytes(files[names[k]], plan.x, plan.y);
    }
    assert encoded == bs;
  }

  /** The same bytes named the way the script names the slice files:
      <settings file>_000, _001, ... for VolSizeZ slices. */
  lemma RawBytesOfSlices(settings: map<string, string>, files: map<string, seq<byte>>)
    requires LoadVolume(settings, files).Ok?
    requires "settings_filename" in settings
    ensures "VolSizeZ" in settings && PyInt(settings["VolSizeZ"]).Ok?
    ensures
      var names := SliceNames(settings["settings_filename"], PyInt(settings["VolSizeZ"]).value);
      && (forall k :: 0 <= k < |names| ==> names[k] in files)
      && RawBytes(LoadVolume(settings, files).value) == Concat(SliceBytes(names, files))
  {
    LoadVolumeSpec(settings, files);
    RawBytesOfLoad(settings, files);
    var z := PyInt(settings["VolSizeZ"]).value;
    assert LoadPlan(settings).value.names == SliceNames(settings["settings_filename"], z);
  }

  // ---- the cache ----

  /** What get_data returns for a given state of the cache: the cached
      volume whatever the settings, or else what loading gives. */
  function Served(cached: Option<Volume>, load: Result<Volume>): Result<Volume>
  {
    match cached
    case Some(v) => Ok(v)
    case None => load
  }

  /** The module-level __cached_data__ with get_data; slicesRead records the
      slice files get_data has tried to read, in order. */
  class VolumeCache {
    var cached: Option<Volume>
    var slicesRead: seq<string>

    constructor ()
      ensures cached == None && slicesRead == []
    {
      cached := None;
      slicesRead := [];
    }

    /** get_data(settings): on the first successful call the slices are
        read and stored; every later call returns the stored volume and
        reads nothing, even for other settings.  A failed load stores
        nothing. */
    method GetData(settings: map<string, string>, files: map<string, seq<byte>>) returns (r: Result<Volume>)
      modifies this
      ensures r == Served(old(cached), LoadVolume(settings, files))
      ensures old(cached).Some? ==> cached == old(cached) && slicesRead == old(slicesRead)
      ensures old(cached).None? ==> slicesRead == old(slicesRead) + LoadAttempts(settings, files)
      ensures old(cached).None? ==> cached == if r.Ok? then Some(r.value) else None
    {
      if cached.None? {
        r := LoadVolume(settings, files);
        slicesRead := slicesRead + LoadAttempts(settings, files);
        if r.Ok? {
          cached := Some(r.value);
        }
      } else {
        r := Ok(cached.value);
      }
    }
  }
}
