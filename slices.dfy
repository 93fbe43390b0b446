/** Loading the slices (the first half of get_data and read_slice): the
    slice file names, the little-endian 16-bit decoding of a decompressed
    slice and its reshaping into a VolSizeX by VolSizeY grid. */
module Slices {
  import opened Common
  import opened Text

  /** One slice: X rows of Y samples. */
  type Grid = seq<seq<int16>>

  predicate IsGrid(g: Grid, x: int, y: int)
  {
    |g| == x && forall r :: 0 <= r < |g| ==> |g[r]| == y
  }

  // ---- slice names ----

  /** [base + '_' + "%03d" % i for i in range(z)]; range of a negative
      count is empty. */
  function SliceNames(base: string, z: int): seq<string>
  {
    seq(if z < 0 then 0 else z, i requires 0 <= i => base + "_" + Pad3(i))
  }

  /** There is one name per index in ascending order; name i is the base,
      an underscore and "%03d" % i, a numeral that reads back as i, three
      digits long below 1000 and the plain numeral str(i) from 1000 on; no
      two names coincide. */
  lemma SliceNamesSpec(base: string, z: int)
    ensures |SliceNames(base, z)| == if z < 0 then 0 else z
    ensures forall i :: 0 <= i < |SliceNames(base, z)| ==>
      var name := SliceNames(base, z)[i];
      && |name| > |base| + 1
      && name[..|base| + 1] == base + "_"
      && ParseDecimal(name[|base| + 1..]) == Some(i)
      && (i < 1000 ==> |name| == |base| + 4)
      && name == base + "_" + Pad3(i)
      && (i >= 1000 ==> name == base + "_" + Decimal(i))
    ensures forall i, j :: 0 <= i < j < |SliceNames(base, z)| ==> SliceNames(base, z)[i] != SliceNames(base, z)[j]
  {
    var names := SliceNames(base, z);
    forall i | 0 <= i < |names|
      ensures
        var name := names[i];
        && |name| > |base| + 1
        && name[..|base| + 1] == base + "_"
        && ParseDecimal(name[|base| + 1..]) == Some(i)
        && (i < 1000 ==> |name| == |base| + 4)
        && name == base + "_" + Pad3(i)
        && (i >= 1000 ==> name == base + "_" + Decimal(i))
    {
      Pad3Spec(i);
      assert names[i][|base| + 1..] == Pad3(i);
    }
    forall i, j | 0 <= i < j < |names| ensures names[i] != names[j] {
      assert ParseDecimal(names[i][|base| + 1..]) != ParseDecimal(names[j][|base| + 1..]);
    }
  }

  /** The first two slice names for a settings file s/s. */
  lemma SliceNamesExample()
    ensures SliceNames("s/s", 2) == ["s/s_000", "s/s_001"]
  {
    assert Decimal(0) == "0" && Decimal(1) == "1";
    assert Pad3(0) == "000" && Pad3(1) == "001";
    var names := SliceNames("s/s", 2);
    assert |names| == 2;
    assert names[0] == "s/s" + "_" + "000" == "s/s_000";
    assert names[1] == "s/s" + "_" + "001" == "s/s_001";
  }

  // ---- 16-bit little-endian samples ----

  /** The sample stored as the byte pair lo, hi (two's complement). */
  function DecodeInt16(lo: byte, hi: byte): int16
  {
    var u := lo + 256 * hi;
    if u >= 32768 then u - 65536 else u
  }

  /** The byte pair, low byte first, that stores a sample. */
  function EncodeInt16(v: int16): (r: seq<byte>)
    ensures |r| == 2
  {
    var u := if v < 0 then v + 65536 else v;
    [u % 256, u / 256]
  }

  /** Encoding and decoding a sample are inverse bijections. */
  lemma Int16RoundTrip(v: int16, lo: byte, hi: byte)
    ensures DecodeInt16(EncodeInt16(v)[0], EncodeInt16(v)[1]) == v
    ensures EncodeInt16(DecodeInt16(lo, hi)) == [lo, hi]
  {
  }

  /** np.fromstring(bytes, np.int16) on an even number of bytes. */
  function Samples(bytes: seq<byte>): (r: seq<int16>)
    requires |bytes| % 2 == 0
    ensures |r| == |bytes| / 2
  {
    if |bytes| == 0 then [] else [DecodeInt16(bytes[0], bytes[1])] + Samples(bytes[2..])
  }

  /** Sample k comes from bytes 2k (low) and 2k+1 (high). */
  lemma {:induction false} SamplesAt(bytes: seq<byte>, k: nat)
    requires |bytes| % 2 == 0 && k < |bytes| / 2
    ensures Samples(bytes)[k] == DecodeInt16(bytes[2 * k], bytes[2 * k + 1])
  {
    if k > 0 {
      SamplesAt(bytes[2..], k - 1);
    }
  }

  /** ndarray.reshape((x, y)) of x * y samples: row r holds samples
      r * y .. r * y + y - 1. */
  function Reshape(s: seq<int16>, x: nat, y: nat): (g: Grid)
    requires |s| == x * y
    ensures IsGrid(g, x, y)
  {
    if x == 0 then []
    else
      assert |s| == (x - 1) * y + y;
      [s[..y]] + Reshape(s[y..], x - 1, y)
  }

  /** Reading the rows of a reshaped grid one after another gives the
      samples back. */
  lemma {:induction false} ReshapeConcat(s: seq<int16>, x: nat, y: nat)
    requires |s| == x * y
    ensures Concat(Reshape(s, x, y)) == s
  {
    if x > 0 {
      assert |s| == (x - 1) * y + y;
      var rest := Reshape(s[y..], x - 1, y);
      ReshapeConcat(s[y..], x - 1, y);
      ConcatJoin([s[..y]], rest);
      assert Concat([s[..y]]) == s[..y] by {
        assert [s[..y]][..0] == [];
      }
      assert s[..y] + s[y..] == s;
    }
  }

  /** read_slice after decompression: the bytes become an x by y grid only
      when there are exactly 2 * (x * y) of them; any other length is a
      ValueError from fromstring or reshape, never a truncation. */
  function DecodeSlice(bytes: seq<byte>, x: int, y: int): (r: Option<Grid>)
    ensures r.Some? <==> 0 <= x && 0 <= y && |bytes| == 2 * (x * y)
    ensures r.Some? ==> IsGrid(r.value, x, y)
  {
    if x < 0 || y < 0 || |bytes| != 2 * (x * y) then None
    else
      var n := x * y;
      assert |bytes| % 2 == 0 && |bytes| / 2 == n;
      Some(Reshape(Samples(bytes), x, y))
  }

  /** Element (r, c) of a decoded slice is the little-endian sample at
      bytes 2 * (r * y + c) and 2 * (r * y + c) + 1. */
  lemma DecodeSliceAt(bytes: seq<byte>, x: int, y: int, r: int, c: int)
    requires DecodeSlice(bytes, x, y).Some?
    requires 0 <= r < x && 0 <= c < y
    ensures 2 * (r * y + c) + 1 < |bytes|
    ensures DecodeSlice(bytes, x, y).value[r][c] == DecodeInt16(bytes[2 * (r * y + c)], bytes[2 * (r * y + c) + 1])
  {
    var n := x * y;
    assert |bytes| % 2 == 0 && |bytes| / 2 == n;
    var s := Samples(bytes);
    var g := Reshape(s, x, y);
    assert g == DecodeSlice(bytes, x, y).value;
    ReshapeConcat(s, x, y);
    ConcatUniformAt(g, y, r, c);
    assert r * y + c == y * r + c;
    SamplesAt(bytes, r * y + c);
  }

  /** The bytes that store a run of samples, each low byte first: the
      inverse of Samples. */
  function SamplesBytes(s: seq<int16>): (b: seq<byte>)
    ensures |b| == 2 * |s|
  {
    if |s| == 0 then [] else EncodeInt16(s[0]) + SamplesBytes(s[1..])
  }

  lemma {:induction false} SamplesBytesAppend(a: seq<int16>, b: seq<int16>)
    ensures SamplesBytes(a + b) == SamplesBytes(a) + SamplesBytes(b)
  {
    if |a| == 0 {
      assert a + b == b;
    } else {
      assert (a + b)[1..] == a[1..] + b;
      SamplesBytesAppend(a[1..], b);
    }
  }

  /** Decoding bytes and storing the samples again gives the same bytes. */
  lemma {:induction false} SamplesBytesOfSamples(bytes: seq<byte>)
    requires |bytes| % 2 == 0
    ensures SamplesBytes(Samples(bytes)) == bytes
  {
    if |bytes| > 0 {
      SamplesBytesOfSamples(bytes[2..]);
      Int16RoundTrip(0, bytes[0], bytes[1]);
      assert bytes == [bytes[0], bytes[1]] + bytes[2..];
    }
  }

  /** Writing out the samples of a decoded slice, row after row, gives
      back the bytes it was decoded from. */
  lemma DecodeSliceBytes(bytes: seq<byte>, x: int, y: int)
    requires DecodeSlice(bytes, x, y).Some?
    ensures SamplesBytes(Concat(DecodeSlice(bytes, x, y).value)) == bytes
  {
    var n := x * y;
    assert |bytes| % 2 == 0 && |bytes| / 2 == n;
    ReshapeConcat(Samples(bytes), x, y);
    SamplesBytesOfSamples(bytes);
  }

  /** Storing samples and decoding the bytes again gives the same samples. */
  lemma {:induction false} SamplesOfSamplesBytes(s: seq<int16>)
    ensures Samples(SamplesBytes(s)) == s
  {
    if |s| > 0 {
      var b := SamplesBytes(s);
      assert b[2..] == SamplesBytes(s[1..]);
      SamplesOfSamplesBytes(s[1..]);
      Int16RoundTrip(s[0], 0, 0);
    }
  }

  // ---- reading the slice files ----

  /** read_slice(name, (x, y)); files maps each slice file that can be
      opened and gunzipped to its decompressed bytes. */
  function ReadSlice(name: string, x: int, y: int, files: map<string, seq<byte>>): (r: Result<Grid>)
    ensures r.Ok? <==> name in files && DecodeSlice(files[name], x, y).Some?
    ensures r.Ok? ==> r.value == DecodeSlice(files[name], x, y).value
    ensures name !in files ==> r == Err(SliceUnreadable(name))
    ensures name in files && DecodeSlice(files[name], x, y).None? ==> r == Err(SliceSizeMismatch(name))
  {
    if name !in files then Err(SliceUnreadable(name))
    else match DecodeSlice(files[name], x, y)
      case None => Err(SliceSizeMismatch(name))
      case Some(g) => Ok(g)
  }

  /** [read_slice(name, (x, y)) for name in names]: in order, stopping at
      the first slice that fails. */
  function ReadSlices(names: seq<string>, x: int, y: int, files: map<string, seq<byte>>): (r: Result<seq<Grid>>)
    ensures r.Ok? <==> forall k :: 0 <= k < |names| ==> ReadSlice(names[k], x, y, files).Ok?
    ensures r.Ok? ==> |r.value| == |names|
    ensures r.Ok? ==> forall k :: 0 <= k < |names| ==> r.value[k] == ReadSlice(names[k], x, y, files).value
    ensures r.Err? ==>
      exists k :: 0 <= k < |names| && ReadSlice(names[k], x, y, files) == Err(r.error)
        && forall j :: 0 <= j < k ==> ReadSlice(names[j], x, y, files).Ok?
  {
    if |names| == 0 then Ok([])
    else
      var front :- ReadSlices(names[..|names| - 1], x, y, files);
      var g :- ReadSlice(names[|names| - 1], x, y, files);
      Ok(front + [g])
  }

  /** The slice files the comprehension opens: all of them when every one
      decodes, otherwise those up to and including the first that fails. */
  function Attempts(names: seq<string>, x: int, y: int, files: map<string, seq<byte>>): seq<string>
  {
    if |names| == 0 then []
    else if ReadSlices(names[..|names| - 1], x, y, files).Err? then Attempts(names[..|names| - 1], x, y, files)
    else names
  }

  /** The files opened are a prefix of the names, all of them when reading
      succeeds. */
  lemma {:induction false} AttemptsSpec(names: seq<string>, x: int, y: int, files: map<string, seq<byte>>)
    ensures
      var a := Attempts(names, x, y, files);
      && |a| <= |names| && a == names[..|a|]
      && (ReadSlices(names, x, y, files).Ok? ==> a == names)
  {
    if |names| > 0 {
      var front := names[..|names| - 1];
      if ReadSlices(front, x, y, files).Err? {
        AttemptsSpec(front, x, y, files);
        var a := Attempts(names, x, y, files);
        assert front[..|a|] == names[..|a|];
      }
    }
  }

  /** When reading fails, every file opened before the last one decoded
      and the last one opened raised the error. */
  lemma {:induction false} AttemptsFailure(names: seq<string>, x: int, y: int, files: map<string, seq<byte>>)
    requires ReadSlices(names, x, y, files).Err?
    ensures
      var a := Attempts(names, x, y, files);
      && |a| > 0 && ReadSlice(a[|a| - 1], x, y, files) == Err(ReadSlices(names, x, y, files).error)
      && forall j :: 0 <= j < |a| - 1 ==> ReadSlice(a[j], x, y, files).Ok?
  {
    var front := names[..|names| - 1];
    var whole := ReadSlices(names, x, y, files);
    var first := ReadSlices(front, x, y, files);
    if first.Err? {
      AttemptsFailure(front, x, y, files);
      assert whole == Err(first.error);
    } else {
      var a := Attempts(names, x, y, files);
      assert a == names;
      assert whole == Err(ReadSlice(names[|names| - 1], x, y, files).error);
      forall j | 0 <= j < |a| - 1 ensures ReadSlice(a[j], x, y, files).Ok? {
        assert a[j] == front[j];
      }
    }
  }
}
