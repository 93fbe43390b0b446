# dentistdataconv, modelled in Dafny

`dentistdataconv.py` converts a dental CT scan into NRRD, MetaImage and
NIfTI volumes. A scan is a directory holding two things:

- a gzipped XML settings file with the same name as the directory;
- one gzipped file per slice, named `<settings file>_000`, `_001`, …,
  each holding `VolSizeX * VolSizeY` little-endian 16-bit samples.

The script reads the `LibParams` section of the settings into a dictionary.
It loads and stacks the slices into a `(Z, X, Y)` volume and caches that
volume for the rest of the run. It then calls one writer per requested
output type, in the order the options were given:

- a NRRD header (`.nhdr`);
- a MetaImage header (`.mhd`);
- the raw samples (`.raw`);
- a NIfTI file (`.nii`).

The model has one module per part of the script:

- `Common`: bytes, 16-bit samples, the error kinds and a `Result` type.
- `Text`: `'\n'.join`, `split('\n')`, `str()`, `"%03d"` and the built-in
  `int()` on strings.
- `Settings` (`get_settings`): the XML document is a tree of elements
  and character-data nodes (text, CDATA, comments, processing
  instructions), each of the latter carrying `.data`. The
  `FBPParams`/`LibParams` search follows minidom's `getElementsByTagName`
  (descendants in document order). The dictionary is a left fold over
  the kept children, so a later duplicate wins.
- `Slices` (`read_slice` and the slice names of `get_data`): decoding a
  decompressed slice into an X by Y grid, and its inverse.
- `Volume` (`get_data`, `write_raw_file`): loading the volume and the raw
  z-major byte layout. The module-level `__cached_data__` becomes the
  class `VolumeCache`, whose `GetData` method reads the slices only while
  its `Option` field is empty.
- `Headers` (`write_nrrd_header`, `write_metaimage_header`): the header
  texts as pure functions. Proofs show each text splits back into its
  lines and that a reader finds the NRRD magic line and every field of
  either header.
- `Driver` (`main`): the argument checks, the writers, and the dispatch
  loop. `Step`/`Dispatch`/`Main` specify them on values. `Sources`
  bundles what the writers draw on: the two header texts, the freshly
  loaded volume and the slice files loading opens. `SourcesOf` computes
  them from the settings. The class
  `Converter` carries out the same steps in place. `Run` makes the checks
  and hands the loop to `WriteAll`. `Write` is `output_mapping`: it calls
  one method per writer, and the raw and NIfTI writers call
  `VolumeCache.GetData`.

### Inputs

The file system and the libraries are given as inputs:

- `isDir` is the answer of `os.path.isdir`.
- `docs` maps every settings file that can be opened, gunzipped and parsed
  to its top-level nodes.
- `slices` maps every slice file that can be opened and gunzipped to its
  decompressed bytes.
- `nifti` says whether the `nifti` module was imported.

A path missing from a map stands for the IOError (or gzip or XML error)
the script would raise there.

### Where the code and its documentation differ (the model follows the code)

- The setting text is not trimmed. `str(n.childNodes[0].data)` keeps
  surrounding whitespace (dentistdataconv.py:114).
- A slice decodes only when it has exactly `2 * X * Y` bytes, not any
  multiple of that. `fromstring` needs an even count and `reshape` the
  exact element count (dentistdataconv.py:35).
- The cache is not keyed by the settings. Once filled, every later
  call returns the stored volume, whatever settings it is given
  (dentistdataconv.py:42-52).
- `"%03d"` is a minimum width. Index 1000 gives `_1000`.
- `int()` accepts surrounding whitespace, a sign, and whitespace between
  the sign and the digits (Python 2's `int("- 12")` is -12). A negative
  `VolSizeZ` gives an empty name list, so the volume has no slices.
- If `nifti` was not imported, `.nii` fails with a NameError. The error
  is raised before `get_data` runs, because `NiftiImage` is evaluated
  before its argument (dentistdataconv.py:93).
- With no positional argument, none of the usage checks fires and
  `args[0]` raises IndexError (dentistdataconv.py:136-141).
- The headers declare `unsigned short` / `MET_USHORT` while the samples
  are decoded as signed. The model keeps both as written.

## Model

| member | source | states |
|---|---|---|
| Text.SplitJoin | dentistdataconv.py:65 | splitting a '\n'-join of newline-free lines at newlines gives back exactly those lines |
| Text.JoinTrailingEmpty | dentistdataconv.py:61 | joining lines whose last one is empty gives a text that ends in a newline |
| Text.DecimalParses | dentistdataconv.py:43 | str(n) is a digit string that denotes n, without leading zeros |
| Text.Pad3Spec | dentistdataconv.py:43 | "%03d" % i is a digit string that parses back to i; exactly 3 digits when i < 1000; the plain numeral, longer than 3, from 1000 on |
| Text.Pad3Injective | dentistdataconv.py:43 | distinct indices give distinct suffixes |
| Text.Pad3 | dentistdataconv.py:43 | "%03d" % i; specified by Text.Pad3Spec and Text.Pad3Injective |
| Text.PyInt | dentistdataconv.py:44-45 | int(s) on a byte string; every failure is the ValueError NotAnInteger(s); specified by the round trips Text.PyIntUnsigned and Text.PyIntSigned and by their converse Text.PyIntShape |
| Text.PyIntUnsigned | dentistdataconv.py:44-45 | int(w1 + str(n) + w2) == n for any whitespace w1, w2 |
| Text.PyIntSigned | dentistdataconv.py:44-45 | int(w1 + '-' + w2 + str(n) + w3) == -n and int(w1 + '+' + w2 + str(n) + w3) == n for any whitespace w1, w2, w3 (whitespace may follow the sign) |
| Text.PyIntDecimal | dentistdataconv.py:44-45 | int(str(n)) == n for every natural n |
| Text.PyIntShape | dentistdataconv.py:44-45 | every string int() accepts is whitespace, then an unsigned numeral or a sign followed by optional whitespace and a numeral, then whitespace; anything else is a ValueError |
| Text.PyIntNeedsDigit | dentistdataconv.py:44-45 | every string int() accepts contains a decimal digit, so an empty or blank setting is a ValueError |
| Settings.ElementsByTagName | dentistdataconv.py:112-113 | every element found is an element with the requested tag |
| Settings.ElementsByTagNameInOrder | dentistdataconv.py:112-113 | the search returns exactly the matching descendants, in document (preorder) order |
| Settings.LibParams | dentistdataconv.py:112-113 | the result is the first LibParams element, in document order, below the first FBPParams element in document order; ElementMissing("FBPParams") or ElementMissing("LibParams") when the respective list is empty |
| Settings.Params | dentistdataconv.py:114-115 | the list is built exactly when every child with one child node has a character-data child (text, CDATA, comment or processing instruction); otherwise the error names such a child; Settings.ParamsFirst pins it to the first one |
| Settings.ParamsFirst | dentistdataconv.py:114-115 | a failing list comprehension reports NoTextData for the first kept child without character data; every earlier child has it |
| Settings.ParamsMapKeys | dentistdataconv.py:114-115 | a name is in the dictionary exactly when some child with exactly one child node has that name |
| Settings.ParamsMapLast | dentistdataconv.py:114-115 | for a repeated name the dictionary holds the text of the last such child |
| Settings.BaseName | dentistdataconv.py:103 | the base name is the longest suffix of the path without '/': it contains no '/' and is the whole path or preceded by a '/' |
| Settings.JoinPath | dentistdataconv.py:106 | an absolute second part replaces the first; otherwise the result is a + b or a + '/' + b, with the '/' inserted exactly when a is non-empty and does not end in '/' |
| Settings.ToMap | dentistdataconv.py:114 | dict(pairs); specified by Settings.ParamsMapKeys and Settings.ParamsMapLast |
| Settings.GetSettings | dentistdataconv.py:98-119 | a result always has settings_filename = join(dir, basename(dir)); a non-directory is NotADirectory; an unreadable settings file is SettingsUnreadable; otherwise it succeeds exactly when LibParams is found and every kept child has character data, and fails with the error of the first of those steps that fails |
| Settings.GetSettingsSpec | dentistdataconv.py:103-118 | the keys are exactly settings_filename plus the names of the kept children; each name maps to its last occurrence's untrimmed text; settings_filename overrides an element of that name |
| Settings.SampleParams | dentistdataconv.py:114-115 | on a concrete child list, the whitespace text node and the childless element are skipped and both VolSizeX elements are kept in order |
| Settings.SampleLibParams | dentistdataconv.py:112-113 | on a concrete document the LibParams element inside FBPParams is found |
| Settings.GetSettingsExample | dentistdataconv.py:112-118 | on a concrete section: a whitespace node and a childless element are skipped, a comment counts as its parent's data, the later VolSizeX wins, and the path is added |
| Slices.SliceNames | dentistdataconv.py:43-44 | the slice file names; specified by Slices.SliceNamesSpec and Slices.SliceNamesExample |
| Slices.SliceNamesSpec | dentistdataconv.py:43-44 | max(Z, 0) names in ascending index; name i is settings_filename + '_' + "%03d" % i, a numeral that parses to i, 3 digits below 1000 and str(i) from 1000 on; the names are pairwise distinct |
| Slices.SliceNamesExample | dentistdataconv.py:43-44 | for Z = 2 the names are s/s_000 and s/s_001 |
| Slices.Int16RoundTrip | dentistdataconv.py:31-32 | the little-endian two's-complement encoding and decoding of a 16-bit sample are inverse to each other |
| Slices.SamplesAt | dentistdataconv.py:35 | sample k of the decoded bytes is the pair at bytes 2k, 2k+1 |
| Slices.ReshapeConcat | dentistdataconv.py:35 | reading the reshaped grid row after row gives the samples back |
| Slices.DecodeSlice | dentistdataconv.py:31-35 | decoding succeeds exactly when X, Y >= 0 and the byte count is exactly 2*X*Y, and then yields an X by Y grid |
| Slices.DecodeSliceAt | dentistdataconv.py:31-35 | grid element (r, c) is the little-endian sample at bytes 2*(r*Y+c) and 2*(r*Y+c)+1 |
| Slices.DecodeSliceBytes | dentistdataconv.py:35 | writing out the samples of a decoded slice row after row gives back the bytes it was decoded from |
| Slices.SamplesBytesOfSamples | dentistdataconv.py:35 | storing the decoded samples again gives the original bytes |
| Slices.SamplesOfSamplesBytes | dentistdataconv.py:35 | decoding stored samples gives the samples back |
| Slices.ReadSlice | dentistdataconv.py:29-35 | a slice reads exactly when its file is readable and decodes; a missing file is SliceUnreadable and a wrong size SliceSizeMismatch |
| Slices.ReadSlices | dentistdataconv.py:47 | all slices read exactly when each one does, giving grid k from file k; otherwise the error is that of the first name that fails, every earlier one being read |
| Slices.AttemptsSpec | dentistdataconv.py:47 | the files opened are a prefix of the names, all of them on success |
| Slices.AttemptsFailure | dentistdataconv.py:47 | on failure every file opened before the last one was read, and the last one opened raised the error |
| Volume.PlanNames | dentistdataconv.py:43-44 | the name list has max(Z, 0) entries |
| Volume.LoadPlan | dentistdataconv.py:43-45 | slice_filenames and slice_dim; specified by Volume.LoadPlanErrors and Volume.LoadVolumeOk |
| Volume.LoadPlanErrors | dentistdataconv.py:43-45 | the KeyError or ValueError comes from the first failing setting in evaluation order: VolSizeZ (missing, then not an integer), settings_filename (only for Z > 0), VolSizeX, VolSizeY; with all of them usable the plan is made |
| Volume.LoadVolume | dentistdataconv.py:43-51 | the volume get_data builds; specified by Volume.LoadVolumeSpec, Volume.LoadVolumeOk and Volume.LoadVolumeFailure |
| Volume.LoadVolumeOk | dentistdataconv.py:43-51 | loading succeeds exactly when the three sizes are present integers, settings_filename is present for Z > 0, and every slice file settings_filename_%03d for k < Z is readable with exactly 2*X*Y bytes for X, Y >= 0 |
| Volume.LoadVolumeFailure | dentistdataconv.py:43-51 | a failed load has the error of the plan, or else the error ReadSlice reports for the first slice file that is unreadable (SliceUnreadable) or of the wrong size (SliceSizeMismatch), every earlier one having been read |
| Volume.LoadVolumeSpec | dentistdataconv.py:43-51 | a loaded volume has shape (Z, X, Y) for the integers the settings give; its names are SliceNames(settings_filename, Z); plane k is the grid decoded from slice file k |
| Volume.FlattenAt | dentistdataconv.py:51 | in a (Z, X, Y) volume, flattened sample (k*X + r)*Y + c exists and is v[k][r][c] (z-major, then x, then y) |
| Volume.RawBytes | dentistdataconv.py:89 | volume_data.tofile; specified by Volume.RawBytesLayout, Volume.RawBytesLength and Volume.RawBytesAt |
| Volume.RawBytesLength | dentistdataconv.py:89 | the raw output of a (Z, X, Y) volume has exactly 2*X*Y*Z bytes |
| Volume.RawBytesAt | dentistdataconv.py:89 | bytes 2*((k*X+r)*Y+c) and the next one of the raw output are the little-endian sample v[k][r][c] |
| Volume.RawBytesLayout | dentistdataconv.py:84-89 | the raw output is exactly 2*X*Y*Z bytes, and bytes 2*((k*X+r)*Y+c) and the next one are the little-endian sample v[k][r][c] |
| Volume.RawBytesOfLoad | dentistdataconv.py:47-51 | the raw bytes of a loaded volume are the decompressed slice files concatenated in ascending order |
| Volume.RawBytesOfSlices | dentistdataconv.py:43-51 | the same bytes, with the slice files named settings_filename_000, _001, … up to VolSizeZ |
| Volume.Served | dentistdataconv.py:42-52 | what get_data returns for a cache state; specified by Volume.VolumeCache.GetData and Driver.DispatchCache |
| Volume.VolumeCache.constructor | dentistdataconv.py:37 | the cache starts empty and nothing has been read |
| Volume.VolumeCache.GetData | dentistdataconv.py:39-52 | an empty cache loads the volume, records the slice files opened, and stores the volume on success; a full cache returns the stored volume for any settings and reads nothing |
| Headers.NrrdHeader | dentistdataconv.py:67-82 | the .nhdr text; specified by Headers.NrrdHeaderReadBack and Headers.HeadersNeedKeys |
| Headers.MetaImageHeader | dentistdataconv.py:54-65 | the .mhd text; specified by Headers.MetaImageHeaderReadBack and Headers.HeadersNeedKeys |
| Headers.Triple | dentistdataconv.py:57 | "%(a)s %(b)s %(c)s" % settings is the three values copied verbatim, or a KeyError naming the first key missing |
| Headers.HeadersNeedKeys | dentistdataconv.py:56-61 | each header is produced exactly when the six size keys are present; otherwise the KeyError names the first missing key |
| Headers.MetaImageFields | dentistdataconv.py:56-61 | a reader of the MetaImage lines finds NDims 3, DimSize, ElementType MET_USHORT, ElementSize and ElementDataFile with the values put in |
| Headers.MetaImageNDimsField | dentistdataconv.py:56 | the NDims field reads back as 3 |
| Headers.MetaImageDimSizeField | dentistdataconv.py:57 | the DimSize field reads back as the three sizes |
| Headers.MetaImageTypeField | dentistdataconv.py:58 | the ElementType field reads back as MET_USHORT |
| Headers.MetaImageSpacingField | dentistdataconv.py:59 | the ElementSize field reads back as the three voxel sizes |
| Headers.MetaImageDataFileField | dentistdataconv.py:60 | the ElementDataFile field reads back as basename + ".raw" |
| Headers.MetaImageHeaderReadBack | dentistdataconv.py:56-65 | the .mhd text splits into exactly its six lines, the last one empty, with the settings verbatim; the text ends in a newline; a reader finds every field, NDims 3 included |
| Headers.NrrdFields | dentistdataconv.py:69-78 | the first NRRD line is the magic NRRD0001, and a reader finds content volume, type unsigned short, dimension 3, sizes, spacings and data file with the values put in |
| Headers.NrrdContentField | dentistdataconv.py:72 | the content field reads back as volume |
| Headers.NrrdTypeField | dentistdataconv.py:73 | the type field reads back as unsigned short |
| Headers.NrrdDimensionField | dentistdataconv.py:74 | the dimension field reads back as 3 |
| Headers.NrrdSizesField | dentistdataconv.py:75 | the sizes field reads back as the three sizes |
| Headers.NrrdSpacingsField | dentistdataconv.py:76 | the spacings field reads back as the three voxel sizes |
| Headers.NrrdDataFileField | dentistdataconv.py:77 | the data file field reads back as basename + ".raw" |
| Headers.NrrdListSingleLines | dentistdataconv.py:69-78 | no NRRD line holds a newline when the substituted parts hold none |
| Headers.NrrdListSplits | dentistdataconv.py:69-82 | the NRRD lines joined by newlines split back into themselves, and the text ends in a newline |
| Headers.NrrdHeaderReadBack | dentistdataconv.py:69-82 | the .nhdr text splits into exactly its ten lines, the last one empty, with sizes X Y Z and spacings copied verbatim; the text ends in a newline; it starts with the magic line and a reader finds every field |
| Driver.ExtDistinct | dentistdataconv.py:62 | the four writers name four different files |
| Driver.CheckArguments | dentistdataconv.py:134-142 | the arguments pass exactly with at least one output type and two positional arguments; each failure has the script's message, checked in the script's order |
| Driver.Writer | dentistdataconv.py:54-96 | a writer succeeds exactly when its needs are met (a header text, a volume, the NIfTI module); NIfTI fails before get_data; a failure is the header's or get_data's error; each writer's content is the header text, the raw bytes or the volume |
| Driver.WriterOfSettings | dentistdataconv.py:54-82 | with the script's own headers, the two header writers succeed exactly when the six size keys are present, raise the KeyError of the first missing one otherwise, and write the NRRD or MetaImage text |
| Driver.Step | dentistdataconv.py:150-151 | one pass of the loop; specified by Driver.StepCache, Driver.StepTwice and Driver.StepFailKeepsFiles |
| Driver.Dispatch | dentistdataconv.py:150-151 | the loop over the output types; specified by Driver.DispatchOrder, Driver.DispatchPasses, Driver.DispatchFailure, Driver.DispatchFailureFiles, Driver.DispatchFailureCreates, Driver.DispatchWrites, Driver.DispatchKeepsOthers, Driver.DispatchCache and Driver.DispatchAfterFail |
| Driver.Main | dentistdataconv.py:121-152 | main(); specified by Driver.MainRejects, Driver.MainPasses, Driver.MainFailureFiles, Driver.RawOutputIsSliceBytes and Driver.NrrdOutputReadsBack |
| Driver.DispatchAfterFail | dentistdataconv.py:150-151 | after a writer raises, the remaining output types change nothing |
| Driver.DispatchCache | dentistdataconv.py:41-52 | over a whole run the cache serves one and the same volume, and the slices are read at most once, only if the cache started empty |
| Driver.DispatchOrder | dentistdataconv.py:150-151 | the writers called are the output types in request order, duplicates included: all of them on success, a non-empty prefix on failure |
| Driver.StepCache | dentistdataconv.py:41-52 | one step keeps the cache invariant: untouched, or filled once from an empty cache with the slices read recorded |
| Driver.DispatchPasses | dentistdataconv.py:150-151 | the run passes exactly when every requested writer succeeds |
| Driver.DispatchFailure | dentistdataconv.py:150-151 | on failure after m calls, every earlier writer succeeded, writer m raised the run's error, and the files are those the passing run of the first m - 1 output types leaves |
| Driver.DispatchFailureFiles | dentistdataconv.py:150-151 | a failed run leaves exactly the files of the passing run of the output types before the failing one: a writer that raises has not opened its file |
| Driver.DispatchFailureCreates | dentistdataconv.py:150-151 | every file a failed run creates belongs to an output type that succeeded before the failing one, so the failing writer creates no file |
| Driver.StepFailKeepsFiles | dentistdataconv.py:54-96 | a pass whose writer raises leaves the files unchanged: the headers' KeyError, get_data's error and the NameError all come before the file is opened |
| Driver.MainLoopFailureFiles | dentistdataconv.py:145-151 | past both checks, a failed run leaves the files of the passing run of the output types before the failing one |
| Driver.MainFailureFiles | dentistdataconv.py:121-152 | a failed run leaves the files as they were when a check fails, and otherwise as the passing run of the output types before the failing one leaves them |
| Driver.DispatchKeepsOthers | dentistdataconv.py:150-151 | a path that none of the requested output types names is left untouched |
| Driver.DispatchWrites | dentistdataconv.py:145-151 | after a passing run each requested output file holds what its writer makes from the settings and the cached volume |
| Driver.StepTwice | dentistdataconv.py:150-151 | requesting an output type twice in a row writes the same files, cache and reads as requesting it once, and only records a second call |
| Driver.MainRejects | dentistdataconv.py:134-143 | bad arguments or unreadable settings fail before anything is written, read or called; the argument checks come first, and the run fails with exactly the error of CheckArguments, or else of GetSettings |
| Driver.MainPasses | dentistdataconv.py:134-143 | a run that passes had at least one output type, two positional arguments and readable settings |
| Driver.DispatchRaw | dentistdataconv.py:84-89 | from an empty cache, a passing loop that wrote .raw wrote the decompressed slice files there, one after another |
| Driver.RawOutputIsSliceBytes | dentistdataconv.py:84-89 | end to end, from an empty cache: the .raw file is the bytes of slice files settings_filename_000, _001, … concatenated |
| Driver.NrrdOutputReadsBack | dentistdataconv.py:67-82 | end to end: the .nhdr file holds the NRRD lines of the settings joined by newlines |
| Driver.Converter.constructor | dentistdataconv.py:37 | a converter starts with no files, no calls and an empty cache |
| Driver.Converter.WriteNrrdHeader | dentistdataconv.py:67-82 | write_nrrd_header changes the files and the calls exactly as Step says for .nhdr |
| Driver.Converter.WriteMetaImageHeader | dentistdataconv.py:54-65 | write_metaimage_header changes the files and the calls exactly as Step says for .mhd |
| Driver.Converter.WriteRawFile | dentistdataconv.py:84-89 | write_raw_file changes the files, the calls and the cache exactly as Step says for .raw |
| Driver.Converter.WriteNiftiFile | dentistdataconv.py:91-96 | write_nifti_file changes the files, the calls and the cache exactly as Step says for .nii, failing before get_data without the module |
| Driver.Converter.Write | dentistdataconv.py:145-151 | one call of output_mapping[f](settings, basename) changes the files, the calls and the cache exactly as Step says |
| Driver.Converter.WriteAll | dentistdataconv.py:150-151 | the loop over the output types changes the state exactly as Dispatch says, stopping at the first failure |
| Driver.Converter.Run | dentistdataconv.py:121-152 | main() leaves the outcome, the files, the calls and the cache exactly as Main says of the old state |

## Left out

- File, gzip and XML I/O: opening, decompressing and parsing are the maps `docs` and `slices`. Any failure there is one error per path.
- Document type nodes and attributes are not modelled. A document type node stands only at the top of a document and holds no elements, and attributes are not child nodes, so neither affects the kept parameters.
- Settings.GetSettings: `os.path.normpath` is not applied. The path is used as given. Basename and join are the POSIX rules for two parts.
- `str()` of non-ASCII text (a UnicodeEncodeError in Python 2) is not modelled. The text is copied as it is.
- Text.PyInt: `int()` of a Unicode string is not modelled. `str()` makes every setting a byte string, which `int()` parses in base 10 with C-locale whitespace.
- Slices.DecodeSlice: numpy's `-1` dimension inference is not modelled. A negative size is an error here.
- Volume.RawBytes: `tofile` writes in the machine's byte order. The model fixes little-endian, as the slice format states.
- Slices.Samples: `np.fromstring(..., np.int16)` decodes in the machine's byte order. The model fixes little-endian, as the slice format states. On a big-endian host the samples handed to `NiftiImage` would differ; the `.raw` bytes would not, since `tofile` uses the same order.
- The NIfTI codec (`NiftiImage`, `save`) is a foreign library. The model records that the volume is handed to it, and the import guard becomes the `nifti` flag.
- Console output (`print`, OptionParser's help text and exit with status 2) and the process exit code are not modelled. A usage error is an `Outcome` failure carrying the message.
- Writing an output file (`open(filename, 'wt')` and `write` at dentistdataconv.py:64-65 and 81-82, `tofile` at 89, `nim.save` at 96) can raise IOError, which ends the loop. In the model a writer always succeeds once it has its content. The file system is not an input for writing.
- Volume.LoadVolume: for `VolSizeZ <= 0` the script's `np.array([])` has shape (0,) and dtype float64, not (0, X, Y) int16. The model's volume is the empty sequence. The `.raw` output is empty either way; only the shape and dtype of the array handed to `NiftiImage` are not captured.
- Floating point: voxel sizes stay strings and are copied verbatim, as in the script.
