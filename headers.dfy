/** The two text headers (write_metaimage_header, write_nrrd_header): each
    a fixed list of lines with settings substituted verbatim, joined with
    newlines, the last line empty so that the text ends in a newline. */
module Headers {
  import opened Common
  import opened Text

  /** "%(a)s %(b)s %(c)s" % settings: the three values, verbatim, with
      KeyError for the first that is missing. */
  function Triple(settings: map<string, string>, a: string, b: string, c: string): (r: Result<string>)
    ensures r.Ok? <==> a in settings && b in settings && c in settings
    ensures r.Ok? ==> r.value == settings[a] + " " + settings[b] + " " + settings[c]
    ensures r.Err? ==> r.error == KeyMissing(if a !in settings then a else if b !in settings then b else c)
  {
    var va :- Lookup(settings, a);
    var vb :- Lookup(settings, b);
    var vc :- Lookup(settings, c);
    Ok(va + " " + vb + " " + vc)
  }

  predicate HasHeaderKeys(settings: map<string, string>)
  {
    && "VolSizeX" in settings && "VolSizeY" in settings && "VolSizeZ" in settings
    && "VoxelSizeX" in settings && "VoxelSizeY" in settings && "VoxelSizeZ" in settings
  }

  /** The first setting, in the order the header lines read them, that
      the settings lack. */
  function FirstMissing(settings: map<string, string>): string
  {
    if "VolSizeX" !in settings then "VolSizeX"
    else if "VolSizeY" !in settings then "VolSizeY"
    else if "VolSizeZ" !in settings then "VolSizeZ"
    else if "VoxelSizeX" !in settings then "VoxelSizeX"
    else if "VoxelSizeY" !in settings then "VoxelSizeY"
    else "VoxelSizeZ"
  }

  function Sizes(settings: map<string, string>): string
    requires HasHeaderKeys(settings)
  {
    settings["VolSizeX"] + " " + settings["VolSizeY"] + " " + settings["VolSizeZ"]
  }

  function Spacings(settings: map<string, string>): string
    requires HasHeaderKeys(settings)
  {
    settings["VoxelSizeX"] + " " + settings["VoxelSizeY"] + " " + settings["VoxelSizeZ"]
  }

  // ---- MetaImage ----

  /** The header list of write_metaimage_header once the two triples are
      formatted. */
  function MetaImageList(dims: string, spacing: string, basename: string): seq<string>
  {
    ["NDims = 3",
     "DimSize = " + dims,
     "ElementType = MET_USHORT",
     "ElementSize = " + spacing,
     "ElementDataFile = " + basename + ".raw",
     ""]
  }

  function MetaImageLines(settings: map<string, string>, basename: string): Result<seq<string>>
  {
    var dims :- Triple(settings, "VolSizeX", "VolSizeY", "VolSizeZ");
    var spacing :- Triple(settings, "VoxelSizeX", "VoxelSizeY", "VoxelSizeZ");
    Ok(MetaImageList(dims, spacing, basename))
  }

  /** What is written to <basename>.mhd. */
  function MetaImageHeader(settings: map<string, string>, basename: string): Result<string>
  {
    var lines :- MetaImageLines(settings, basename);
    Ok(Join(lines))
  }

  // ---- NRRD ----

  /** The header list of write_nrrd_header once the two triples are
      formatted (the two comment lines are written as two literals each). */
  function NrrdList(sizes: string, spacings: string, basename: string): seq<string>
  {
    ["NRRD0001",
     "# Complete NRRD file format " + "specification at:",
     "# http://teem.sourceforge.net" + "/nrrd/format.html",
     "content: volume",
     "type: unsigned short",
     "dimension: 3",
     "sizes: " + sizes,
     "spacings: " + spacings,
     "data file: " + basename + ".raw",
     ""]
  }

  function NrrdLines(settings: map<string, string>, basename: string): Result<seq<string>>
  {
    var sizes :- Triple(settings, "VolSizeX", "VolSizeY", "VolSizeZ");
    var spacings :- Triple(settings, "VoxelSizeX", "VoxelSizeY", "VoxelSizeZ");
    Ok(NrrdList(sizes, spacings, basename))
  }

  /** What is written to <basename>.nhdr. */
  function NrrdHeader(settings: map<string, string>, basename: string): Result<string>
  {
    var lines :- NrrdLines(settings, basename);
    Ok(Join(lines))
  }

  // ---- reading a header back ----

  /** The text after key on the first line that starts with key, the way a
      header reader finds a field. */
  function Field(lines: seq<string>, key: string): Option<string>
  {
    if |lines| == 0 then None
    else if key <= lines[0] then Some(lines[0][|key|..])
    else Field(lines[1..], key)
  }

  /** A line that differs from key at position d is passed over. */
  lemma FieldSkip(lines: seq<string>, key: string, i: nat, d: nat)
    requires i < |lines| && d < |key| && (d >= |lines[i]| || lines[i][d] != key[d])
    ensures Field(lines[i..], key) == Field(lines[i + 1..], key)
  {
    assert lines[i..][1..] == lines[i + 1..];
  }

  /** The first line that starts with key gives the field. */
  lemma FieldFound(lines: seq<string>, key: string, i: nat)
    requires i < |lines| && key <= lines[i]
    ensures Field(lines[i..], key) == Some(lines[i][|key|..])
  {
  }

  /** No substituted value can break a line. */
  predicate SingleLineValues(settings: map<string, string>, basename: string)
  {
    && NoNewline(basename)
    && HasHeaderKeys(settings)
    && NoNewline(settings["VolSizeX"]) && NoNewline(settings["VolSizeY"]) && NoNewline(settings["VolSizeZ"])
    && NoNewline(settings["VoxelSizeX"]) && NoNewline(settings["VoxelSizeY"]) && NoNewline(settings["VoxelSizeZ"])
  }

  lemma {:induction false} NoNewlineConcat(a: string, b: string)
    requires NoNewline(a) && NoNewline(b)
    ensures NoNewline(a + b)
  {
    assert forall k :: 0 <= k < |a + b| ==> (a + b)[k] == if k < |a| then a[k] else b[k - |a|];
  }

  lemma SingleLineTriples(settings: map<string, string>, basename: string)
    requires SingleLineValues(settings, basename)
    ensures HasHeaderKeys(settings)
    ensures NoNewline(Sizes(settings)) && NoNewline(Spacings(settings)) && NoNewline(basename + ".raw")
  {
    NoNewlineConcat(settings["VolSizeX"], " ");
    NoNewlineConcat(settings["VolSizeX"] + " ", settings["VolSizeY"]);
    NoNewlineConcat(settings["VolSizeX"] + " " + settings["VolSizeY"], " ");
    NoNewlineConcat(settings["VolSizeX"] + " " + settings["VolSizeY"] + " ", settings["VolSizeZ"]);
    NoNewlineConcat(settings["VoxelSizeX"], " ");
    NoNewlineConcat(settings["VoxelSizeX"] + " ", settings["VoxelSizeY"]);
    NoNewlineConcat(settings["VoxelSizeX"] + " " + settings["VoxelSizeY"], " ");
    NoNewlineConcat(settings["VoxelSizeX"] + " " + settings["VoxelSizeY"] + " ", settings["VoxelSizeZ"]);
    NoNewlineConcat(basename, ".raw");
  }

  /** A header is written exactly when the six settings are present;
      otherwise the KeyError names the first one missing, in the order
      the lines read them. */
  lemma HeadersNeedKeys(settings: map<string, string>, basename: string)
    ensures MetaImageHeader(settings, basename).Ok? <==> HasHeaderKeys(settings)
    ensures NrrdHeader(settings, basename).Ok? <==> HasHeaderKeys(settings)
    ensures !HasHeaderKeys(settings) ==>
      && MetaImageHeader(settings, basename) == Err(KeyMissing(FirstMissing(settings)))
      && NrrdHeader(settings, basename) == Err(KeyMissing(FirstMissing(settings)))
  {
  }

  /** A reader of the MetaImage lines finds each field with the text that
      was put in. */
  lemma MetaImageFields(dims: string, spacing: string, basename: string)
    ensures
      var lines := MetaImageList(dims, spacing, basename);
      && Field(lines, "NDims = ") == Some("3")
      && Field(lines, "DimSize = ") == Some(dims)
      && Field(lines, "ElementType = ") == Some("MET_USHORT")
      && Field(lines, "ElementSize = ") == Some(spacing)
      && Field(lines, "ElementDataFile = ") == Some(basename + ".raw")
  {
    MetaImageNDimsField(dims, spacing, basename);
    MetaImageDimSizeField(dims, spacing, basename);
    MetaImageTypeField(dims, spacing, basename);
    MetaImageSpacingField(dims, spacing, basename);
    MetaImageDataFileField(dims, spacing, basename);
  }

  lemma MetaImageNDimsField(dims: string, spacing: string, basename: string)
    ensures Field(MetaImageList(dims, spacing, basename), "NDims = ") == Some("3")
  {
    var lines := MetaImageList(dims, spacing, basename);
    assert lines[0..] == lines;
    FieldFound(lines, "NDims = ", 0);
  }

  lemma MetaImageDimSizeField(dims: string, spacing: string, basename: string)
    ensures Field(MetaImageList(dims, spacing, basename), "DimSize = ") == Some(dims)
  {
    var lines := MetaImageList(dims, spacing, basename);
    assert lines[0..] == lines;
    var key := "DimSize = ";
    FieldSkip(lines, key, 0, 0);
    FieldFound(lines, key, 1);
    assert lines[1][|key|..] == dims;
  }

  lemma MetaImageTypeField(dims: string, spacing: string, basename: string)
    ensures Field(MetaImageList(dims, spacing, basename), "ElementType = ") == Some("MET_USHORT")
  {
    var lines := MetaImageList(dims, spacing, basename);
    assert lines[0..] == lines;
    var key := "ElementType = ";
    FieldSkip(lines, key, 0, 0);
    FieldSkip(lines, key, 1, 0);
    FieldFound(lines, key, 2);
  }

  lemma MetaImageSpacingField(dims: string, spacing: string, basename: string)
    ensures Field(MetaImageList(dims, spacing, basename), "ElementSize = ") == Some(spacing)
  {
    var lines := MetaImageList(dims, spacing, basename);
    assert lines[0..] == lines;
    var key := "ElementSize = ";
    FieldSkip(lines, key, 0, 0);
    FieldSkip(lines, key, 1, 0);
    FieldSkip(lines, key, 2, 7);
    FieldFound(lines, key, 3);
    assert lines[3][|key|..] == spacing;
  }

  lemma MetaImageDataFileField(dims: string, spacing: string, basename: string)
    ensures Field(MetaImageList(dims, spacing, basename), "ElementDataFile = ") == Some(basename + ".raw")
  {
    var lines := MetaImageList(dims, spacing, basename);
    assert lines[0..] == lines;
    var key := "ElementDataFile = ";
    FieldSkip(lines, key, 0, 0);
    FieldSkip(lines, key, 1, 0);
    FieldSkip(lines, key, 2, 7);
    FieldSkip(lines, key, 3, 7);
    FieldFound(lines, key, 4);
    assert lines[4] == key + (basename + ".raw");
    assert lines[4][|key|..] == basename + ".raw";
  }

  /** The MetaImage header splits back into exactly its six lines, the
      last one empty (so the text ends in a newline), and a reader finds
      three dimensions, the element type MET_USHORT and each substituted
      field with the setting text copied verbatim. */
  lemma MetaImageHeaderReadBack(settings: map<string, string>, basename: string)
    requires SingleLineValues(settings, basename)
    ensures HasHeaderKeys(settings) && MetaImageHeader(settings, basename).Ok?
    ensures
      var text := MetaImageHeader(settings, basename).value;
      var lines := Split(text);
      && lines == MetaImageList(Sizes(settings), Spacings(settings), basename)
      && text[|text| - 1] == '\n'
      && Field(lines, "NDims = ") == Some("3")
      && Field(lines, "DimSize = ") == Some(Sizes(settings))
      && Field(lines, "ElementType = ") == Some("MET_USHORT")
      && Field(lines, "ElementSize = ") == Some(Spacings(settings))
      && Field(lines, "ElementDataFile = ") == Some(basename + ".raw")
  {
    SingleLineTriples(settings, basename);
    HeadersNeedKeys(settings, basename);
    var lines := MetaImageList(Sizes(settings), Spacings(settings), basename);
    NoNewlineConcat("DimSize = ", Sizes(settings));
    NoNewlineConcat("ElementSize = ", Spacings(settings));
    NoNewlineConcat("ElementDataFile = ", basename + ".raw");
    assert "ElementDataFile = " + basename + ".raw" == "ElementDataFile = " + (basename + ".raw");
    SplitJoin(lines);
    JoinTrailingEmpty(lines);
    MetaImageFields(Sizes(settings), Spacings(settings), basename);
  }

  /** A reader of the NRRD lines finds the magic line, the content, the
      element type unsigned short, three dimensions and each substituted
      field with the text that was put in. */
  lemma NrrdFields(sizes: string, spacings: string, basename: string)
    ensures
      var lines := NrrdList(sizes, spacings, basename);
      && lines[0] == "NRRD0001"
      && Field(lines, "content: ") == Some("volume")
      && Field(lines, "type: ") == Some("unsigned short")
      && Field(lines, "dimension: ") == Some("3")
      && Field(lines, "sizes: ") == Some(sizes)
      && Field(lines, "spacings: ") == Some(spacings)
      && Field(lines, "data file: ") == Some(basename + ".raw")
  {
    NrrdContentField(sizes, spacings, basename);
    NrrdTypeField(sizes, spacings, basename);
    NrrdDimensionField(sizes, spacings, basename);
    NrrdSizesField(sizes, spacings, basename);
    NrrdSpacingsField(sizes, spacings, basename);
    NrrdDataFileField(sizes, spacings, basename);
  }

  lemma NrrdContentField(sizes: string, spacings: string, basename: string)
    ensures Field(NrrdList(sizes, spacings, basename), "content: ") == Some("volume")
  {
    var lines := NrrdList(sizes, spacings, basename);
    assert lines[0..] == lines;
    var key := "content: ";
    FieldSkip(lines, key, 0, 0);
    FieldSkip(lines, key, 1, 0);
    FieldSkip(lines, key, 2, 0);
    FieldFound(lines, key, 3);
  }

  lemma NrrdDimensionField(sizes: string, spacings: string, basename: string)
    ensures Field(NrrdList(sizes, spacings, basename), "dimension: ") == Some("3")
  {
    var lines := NrrdList(sizes, spacings, basename);
    assert lines[0..] == lines;
    var key := "dimension: ";
    FieldSkip(lines, key, 0, 0);
    FieldSkip(lines, key, 1, 0);
    FieldSkip(lines, key, 2, 0);
    FieldSkip(lines, key, 3, 0);
    FieldSkip(lines, key, 4, 0);
    FieldFound(lines, key, 5);
  }

  lemma NrrdTypeField(sizes: string, spacings: string, basename: string)
    ensures Field(NrrdList(sizes, spacings, basename), "type: ") == Some("unsigned short")
  {
    var lines := NrrdList(sizes, spacings, basename);
    assert lines[0..] == lines;
    var key := "type: ";
    FieldSkip(lines, key, 0, 0);
    FieldSkip(lines, key, 1, 0);
    FieldSkip(lines, key, 2, 0);
    FieldSkip(lines, key, 3, 0);
    FieldFound(lines, key, 4);
  }

  lemma NrrdSizesField(sizes: string, spacings: string, basename: string)
    ensures Field(NrrdList(sizes, spacings, basename), "sizes: ") == Some(sizes)
  {
    var lines := NrrdList(sizes, spacings, basename);
    assert lines[0..] == lines;
    var key := "sizes: ";
    FieldSkip(lines, key, 0, 0);
    FieldSkip(lines, key, 1, 0);
    FieldSkip(lines, key, 2, 0);
    FieldSkip(lines, key, 3, 0);
    FieldSkip(lines, key, 4, 0);
    FieldSkip(lines, key, 5, 0);
    FieldFound(lines, key, 6);
    assert lines[6][|key|..] == sizes;
  }

  lemma NrrdSpacingsField(sizes: string, spacings: string, basename: string)
    ensures Field(NrrdList(sizes, spacings, basename), "spacings: ") == Some(spacings)
  {
    var lines := NrrdList(sizes, spacings, basename);
    assert lines[0..] == lines;
    var key := "spacings: ";
    FieldSkip(lines, key, 0, 0);
    FieldSkip(lines, key, 1, 0);
    FieldSkip(lines, key, 2, 0);
    FieldSkip(lines, key, 3, 0);
    FieldSkip(lines, key, 4, 0);
    FieldSkip(lines, key, 5, 0);
    FieldSkip(lines, key, 6, 1);
    FieldFound(lines, key, 7);
    assert lines[7][|key|..] == spacings;
  }

  /** The data file line is the first of the last five to start with
      "data file: ". */
  lemma NrrdDataFileTail(sizes: string, spacings: string, basename: string)
    ensures Field(NrrdList(sizes, spacings, basename)[5..], "data file: ") == Some(basename + ".raw")
  {
    var lines := NrrdList(sizes, spacings, basename);
    var key := "data file: ";
    FieldSkip(lines, key, 5, 1);
    FieldSkip(lines, key, 6, 0);
    FieldSkip(lines, key, 7, 0);
    FieldFound(lines, key, 8);
    assert lines[8] == key + (basename + ".raw");
    assert lines[8][|key|..] == basename + ".raw";
  }

  lemma NrrdDataFileField(sizes: string, spacings: string, basename: string)
    ensures Field(NrrdList(sizes, spacings, basename), "data file: ") == Some(basename + ".raw")
  {
    var lines := NrrdList(sizes, spacings, basename);
    assert lines[0..] == lines;
    var key := "data file: ";
    FieldSkip(lines, key, 0, 0);
    FieldSkip(lines, key, 1, 0);
    FieldSkip(lines, key, 2, 0);
    FieldSkip(lines, key, 3, 0);
    FieldSkip(lines, key, 4, 0);
    NrrdDataFileTail(sizes, spacings, basename);
  }

  /** The fixed NRRD lines hold no newline. */
  lemma NrrdFixedLines()
    ensures NoNewline("NRRD0001") && NoNewline("content: volume")
    ensures NoNewline("type: unsigned short") && NoNewline("dimension: 3")
  {
  }

  lemma NrrdSpecLine()
    ensures NoNewline("# Complete NRRD file format " + "specification at:")
  {
    NoNewlineConcat("# Complete NRRD file format ", "specification at:");
  }

  lemma NrrdTeemLine()
    ensures NoNewline("# http://teem.sourceforge.net" + "/nrrd/format.html")
  {
    NoNewlineConcat("# http://teem.sourceforge.net", "/nrrd/format.html");
  }

  /** No NRRD line holds a newline when the substituted parts hold none. */
  lemma NrrdListSingleLines(sizes: string, spacings: string, basename: string)
    requires NoNewline(sizes) && NoNewline(spacings) && NoNewline(basename)
    ensures forall i :: 0 <= i < |NrrdList(sizes, spacings, basename)| ==> NoNewline(NrrdList(sizes, spacings, basename)[i])
  {
    NrrdFixedLines();
    NrrdSpecLine();
    NrrdTeemLine();
    NoNewlineConcat("sizes: ", sizes);
    NoNewlineConcat("spacings: ", spacings);
    NoNewlineConcat(basename, ".raw");
    NoNewlineConcat("data file: ", basename + ".raw");
    assert "data file: " + basename + ".raw" == "data file: " + (basename + ".raw");
  }

  /** Joined with newlines, the NRRD lines split back into themselves and
      end the text in a newline, whenever the substituted parts are
      single-line. */
  lemma NrrdListSplits(sizes: string, spacings: string, basename: string)
    requires NoNewline(sizes) && NoNewline(spacings) && NoNewline(basename)
    ensures
      var text := Join(NrrdList(sizes, spacings, basename));
      && Split(text) == NrrdList(sizes, spacings, basename)
      && |text| >= 1 && text[|text| - 1] == '\n'
  {
    var lines := NrrdList(sizes, spacings, basename);
    NrrdListSingleLines(sizes, spacings, basename);
    SplitJoin(lines);
    JoinTrailingEmpty(lines);
  }

  /** The NRRD header splits back into exactly its ten lines, the last one
      empty (so the text ends in a newline), and a reader finds the magic
      line, the content, the element type unsigned short, three dimensions
      and each substituted field with the setting text copied verbatim. */
  lemma NrrdHeaderReadBack(settings: map<string, string>, basename: string)
    requires SingleLineValues(settings, basename)
    ensures HasHeaderKeys(settings) && NrrdHeader(settings, basename).Ok?
    ensures
      var text := NrrdHeader(settings, basename).value;
      var lines := Split(text);
      && lines == NrrdList(Sizes(settings), Spacings(settings), basename)
      && text[|text| - 1] == '\n'
      && lines[0] == "NRRD0001"
      && Field(lines, "content: ") == Some("volume")
      && Field(lines, "type: ") == Some("unsigned short")
      && Field(lines, "dimension: ") == Some("3")
      && Field(lines, "sizes: ") == Some(Sizes(settings))
      && Field(lines, "spacings: ") == Some(Spacings(settings))
      && Field(lines, "data file: ") == Some(basename + ".raw")
  {
    SingleLineTriples(settings, basename);
    HeadersNeedKeys(settings, basename);
    NrrdListSplits(Sizes(settings), Spacings(settings), basename);
    NrrdFields(Sizes(settings), Spacings(settings), basename);
  }
}
