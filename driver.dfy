/** The command line (main) and the four writers: the arguments are
    checked, the settings read, and each requested output written in the
    order the options were given, the first failure ending the run. */
module Driver {
  import opened Common
  import opened Text
  import opened Settings
  import opened Slices
  import opened Volume
  import opened Headers

  /** The output types the -n, -m, -i and -r options append. */
  datatype Format = Nhdr | Mhd | Nii | Raw

  /** What a writer leaves in an output file: the raw samples, a header
      text, or the volume handed to the NIfTI library. */
  datatype OutFile = RawData(bytes: seq<byte>) | HeaderText(text: string) | NiftiData(volume: Volume)

  /** The extension each writer appends to the output base name. */
  function Ext(f: Format): string
  {
    match f
    case Nhdr => ".nhdr"
    case Mhd => ".mhd"
    case Nii => ".nii"
    case Raw => ".raw"
  }

  /** The four writers name four different files. */
  lemma ExtDistinct(basename: string, f: Format, g: Format)
    requires f != g
    ensures basename + Ext(f) != basename + Ext(g)
  {
    var a, b := basename + Ext(f), basename + Ext(g);
    assert a[|basename|..] == Ext(f);
    assert b[|basename|..] == Ext(g);
  }

  // ---- the command line ----

  /** The checks main makes before anything is read: at least one output
      type, then exactly two positional arguments (input directory and
      output base name).  With no positional argument at all none of the
      usage checks fires and args[0] raises IndexError. */
  function CheckArguments(outputTypes: seq<Format>, args: seq<string>): (r: Result<(string, string)>)
    ensures r.Ok? <==> |outputTypes| > 0 && |args| == 2
    ensures r.Ok? ==> r.value == (args[0], args[1])
    ensures |outputTypes| == 0 ==> r == Err(UsageError("Need atleast one output type."))
    ensures |outputTypes| > 0 && |args| == 1 ==> r == Err(UsageError("Missing basename for output."))
    ensures |outputTypes| > 0 && |args| > 2 ==> r == Err(UsageError("Too many arguments, need two."))
    ensures |outputTypes| > 0 && |args| == 0 ==> r == Err(MissingInputArgument)
  {
    if |outputTypes| == 0 then Err(UsageError("Need atleast one output type."))
    else if |args| == 1 then Err(UsageError("Missing basename for output."))
    else if |args| > 2 then Err(UsageError("Too many arguments, need two."))
    else if |args| == 0 then Err(MissingInputArgument)
    else Ok((args[0], args[1]))
  }

  // ---- the writers ----

  /** Whether a writer asks get_data for the volume: write_raw_file always,
      write_nifti_file only once the NiftiImage name resolves. */
  predicate NeedsVolume(f: Format, nifti: bool)
  {
    f == Raw || (f == Nii && nifti)
  }

  /** What the writers work from: the two header texts (or the KeyError
      building them raises), what reading the slices gives, and the slice
      files that loading opens. */
  datatype Sources = Sources(nrrd: Result<string>, mhd: Result<string>, load: Result<Volume>, attempts: seq<string>)

  function SourcesOf(settings: map<string, string>, basename: string, slices: map<string, seq<byte>>): Sources
  {
    Sources(NrrdHeader(settings, basename), MetaImageHeader(settings, basename),
            LoadVolume(settings, slices), LoadAttempts(settings, slices))
  }

  /** Whether writer f succeeds, given what get_data returns. */
  predicate Succeeds(f: Format, src: Sources, nifti: bool, vol: Result<Volume>)
  {
    match f
    case Nhdr => src.nrrd.Ok?
    case Mhd => src.mhd.Ok?
    case Raw => vol.Ok?
    case Nii => nifti && vol.Ok?
  }

  /** The content writer f puts in basename + Ext(f), or the error it
      raises before opening the file; vol is what get_data returns. */
  function Writer(f: Format, src: Sources, vol: Result<Volume>, nifti: bool): (r: Result<OutFile>)
    ensures r.Ok? <==> Succeeds(f, src, nifti, vol)
    ensures f == Nii && !nifti ==> r == Err(NiftiUnavailable)
    ensures NeedsVolume(f, nifti) && vol.Err? ==> r == Err(vol.error)
    ensures f == Nhdr ==> r == if src.nrrd.Ok? then Ok(HeaderText(src.nrrd.value)) else Err(src.nrrd.error)
    ensures f == Mhd ==> r == if src.mhd.Ok? then Ok(HeaderText(src.mhd.value)) else Err(src.mhd.error)
    ensures r.Ok? && f == Raw ==> r.value == RawData(RawBytes(vol.value))
    ensures r.Ok? && f == Nii ==> r.value == NiftiData(vol.value)
  {
    match f
    case Nhdr =>
      var text :- src.nrrd;
      Ok(HeaderText(text))
    case Mhd =>
      var text :- src.mhd;
      Ok(HeaderText(text))
    case Raw =>
      var v :- vol;
      Ok(RawData(RawBytes(v)))
    case Nii =>
      if !nifti then Err(NiftiUnavailable)
      else
        var v :- vol;
        Ok(NiftiData(v))
  }

  /** For the script's own sources the two header writers succeed exactly
      when the six size settings are present, and otherwise raise the
      KeyError for the first one missing. */
  lemma WriterOfSettings(f: Format, settings: map<string, string>, basename: string,
                         slices: map<string, seq<byte>>, vol: Result<Volume>, nifti: bool)
    requires f == Nhdr || f == Mhd
    ensures
      var r := Writer(f, SourcesOf(settings, basename, slices), vol, nifti);
      && (r.Ok? <==> HasHeaderKeys(settings))
      && (!HasHeaderKeys(settings) ==> r == Err(KeyMissing(FirstMissing(settings))))
      && (r.Ok? && f == Nhdr ==> r.value == HeaderText(NrrdHeader(settings, basename).value))
      && (r.Ok? && f == Mhd ==> r.value == HeaderText(MetaImageHeader(settings, basename).value))
  {
    HeadersNeedKeys(settings, basename);
  }

  // ---- the run, on values ----

  /** Everything a run can change: the output files, the writers called so
      far (in order), and the state of get_data's cache. */
  datatype State = State(written: map<string, OutFile>, calls: seq<Format>, cached: Option<Volume>, slicesRead: seq<string>)

  datatype Progress = Progress(outcome: Outcome, state: State)

  /** The cache after one get_data call (VolumeCache.GetData on values). */
  function Load(s: State, src: Sources): State
  {
    if s.cached.Some? then s
    else
      s.(cached := if src.load.Ok? then Some(src.load.value) else None,
         slicesRead := s.slicesRead + src.attempts)
  }

  /** One pass of the loop over the output types; after a failure nothing
      more happens. */
  function Step(p: Progress, f: Format, basename: string, src: Sources, nifti: bool): Progress
  {
    if p.outcome.Fail? then p
    else
      var s := p.state;
      var vol := Served(s.cached, src.load);
      var s1 := if NeedsVolume(f, nifti) then Load(s, src) else s;
      var s2 := s1.(calls := s1.calls + [f]);
      match Writer(f, src, vol, nifti)
      case Ok(out) => Progress(Pass, s2.(written := s2.written[basename + Ext(f) := out]))
      case Err(e) => Progress(Fail(e), s2)
  }

  /** The loop over options.outputtypes, from state s0. */
  function Dispatch(fs: seq<Format>, basename: string, src: Sources, nifti: bool, s0: State): Progress
  {
    if |fs| == 0 then Progress(Pass, s0)
    else Step(Dispatch(fs[..|fs| - 1], basename, src, nifti, s0), fs[|fs| - 1], basename, src, nifti)
  }

  /** main(): the argument checks, get_settings, then the loop.  isDir says
      whether the input path is a directory, docs maps each readable
      settings file to its parsed document, slices each readable slice
      file to its decompressed bytes, and nifti whether pynifti loaded. */
  function Main(outputTypes: seq<Format>, args: seq<string>, isDir: bool, docs: map<string, seq<Node>>,
                slices: map<string, seq<byte>>, nifti: bool, s0: State): Progress
  {
    match CheckArguments(outputTypes, args)
    case Err(e) => Progress(Fail(e), s0)
    case Ok(paths) =>
      match GetSettings(paths.0, isDir, docs)
      case Err(e) => Progress(Fail(e), s0)
      case Ok(settings) => Dispatch(outputTypes, paths.1, SourcesOf(settings, paths.1, slices), nifti, s0)
  }

  // ---- properties of the run ----

  /** Once a writer has failed the remaining output types change nothing. */
  lemma {:induction false} DispatchAfterFail(fs: seq<Format>, i: nat, basename: string, src: Sources, nifti: bool, s0: State)
    requires i <= |fs|
    requires Dispatch(fs[..i], basename, src, nifti, s0).outcome.Fail?
    ensures Dispatch(fs, basename, src, nifti, s0) == Dispatch(fs[..i], basename, src, nifti, s0)
  {
    if i < |fs| {
      var front := fs[..|fs| - 1];
      assert front[..i] == fs[..i];
      DispatchAfterFail(front, i, basename, src, nifti, s0);
    } else {
      assert fs[..i] == fs;
    }
  }

  /** Where get_data's cache can be after a number of steps from s0:
      untouched, or loaded once from the slices, holding the volume or
      (only on a failed run) still empty. */
  predicate CacheInvariant(d: Progress, s0: State, src: Sources)
  {
    || (d.state.cached == s0.cached && d.state.slicesRead == s0.slicesRead)
    || (&& s0.cached.None?
        && d.state.slicesRead == s0.slicesRead + src.attempts
        && (d.state.cached.None? ==> d.outcome.Fail?)
        && (d.state.cached.Some? ==> src.load == Ok(d.state.cached.value)))
  }

  lemma StepCache(p: Progress, f: Format, basename: string, src: Sources, nifti: bool, s0: State)
    requires CacheInvariant(p, s0, src)
    ensures CacheInvariant(Step(p, f, basename, src, nifti), s0, src)
  {
    var q := Step(p, f, basename, src, nifti);
    if p.outcome.Pass? && NeedsVolume(f, nifti) && p.state.cached.None? {
      assert p.state.slicesRead == s0.slicesRead;
      if src.load.Err? {
        assert q.outcome.Fail?;
      }
    }
  }

  /** get_data's cache: whatever the run does, fetching from the final
      cache gives what fetching from the first one gave, and the slices are
      read at most once, only when the cache started empty. */
  lemma {:induction false} DispatchCache(fs: seq<Format>, basename: string, src: Sources, nifti: bool, s0: State)
    ensures CacheInvariant(Dispatch(fs, basename, src, nifti, s0), s0, src)
    ensures
      var d := Dispatch(fs, basename, src, nifti, s0).state;
      && Served(d.cached, src.load) == Served(s0.cached, src.load)
      && (d.slicesRead == s0.slicesRead
          || (s0.cached.None? && d.slicesRead == s0.slicesRead + src.attempts))
  {
    if |fs| > 0 {
      var front := fs[..|fs| - 1];
      DispatchCache(front, basename, src, nifti, s0);
      StepCache(Dispatch(front, basename, src, nifti, s0), fs[|fs| - 1], basename, src, nifti, s0);
    }
  }

  /** One step after a pass appends its output type to the calls and
      fails exactly when its writer does. */
  lemma StepCalls(p: Progress, f: Format, basename: string, src: Sources, nifti: bool)
    requires p.outcome.Pass?
    ensures
      var q := Step(p, f, basename, src, nifti);
      var w := Writer(f, src, Served(p.state.cached, src.load), nifti);
      && q.state.calls == p.state.calls + [f]
      && (q.outcome.Pass? <==> w.Ok?)
      && (q.outcome.Fail? ==> w == Err(q.outcome.error))
  {
  }

  /** A writer that raises writes nothing: its file is opened only after
      everything it needs (header text, volume, NIfTI module) is at hand. */
  lemma StepFailKeepsFiles(p: Progress, f: Format, basename: string, src: Sources, nifti: bool)
    requires Step(p, f, basename, src, nifti).outcome.Fail?
    ensures Step(p, f, basename, src, nifti).state.written == p.state.written
  {
  }

  /** The writers called are the output types in order: all of them when
      the run passes, otherwise a non-empty prefix. */
  lemma {:induction false} DispatchOrder(fs: seq<Format>, basename: string, src: Sources, nifti: bool, s0: State)
    ensures
      var d := Dispatch(fs, basename, src, nifti, s0);
      var m := |d.state.calls| - |s0.calls|;
      && 0 <= m <= |fs|
      && d.state.calls == s0.calls + fs[..m]
      && (d.outcome.Pass? ==> m == |fs|)
      && (d.outcome.Fail? ==> m > 0)
  {
    if |fs| == 0 {
      assert s0.calls + fs[..0] == s0.calls;
    } else {
      var front := fs[..|fs| - 1];
      var f := fs[|fs| - 1];
      DispatchOrder(front, basename, src, nifti, s0);
      var p := Dispatch(front, basename, src, nifti, s0);
      var d := Step(p, f, basename, src, nifti);
      assert Dispatch(fs, basename, src, nifti, s0) == d;
      var mp := |p.state.calls| - |s0.calls|;
      if p.outcome.Pass? {
        StepCalls(p, f, basename, src, nifti);
        assert front[..mp] == front;
        assert d.state.calls == s0.calls + front + [f];
        assert fs[..|fs|] == fs == front + [f];
      } else {
        assert d == p;
        assert front[..mp] == fs[..mp];
      }
    }
  }

  /** The run passes exactly when every output type's writer succeeds. */
  lemma {:induction false} DispatchPasses(fs: seq<Format>, basename: string, src: Sources, nifti: bool, s0: State)
    ensures
      var vol := Served(s0.cached, src.load);
      Dispatch(fs, basename, src, nifti, s0).outcome.Pass? <==> forall k :: 0 <= k < |fs| ==> Succeeds(fs[k], src, nifti, vol)
  {
    if |fs| > 0 {
      var front := fs[..|fs| - 1];
      var f := fs[|fs| - 1];
      DispatchPasses(front, basename, src, nifti, s0);
      DispatchCache(front, basename, src, nifti, s0);
      var p := Dispatch(front, basename, src, nifti, s0);
      assert Dispatch(fs, basename, src, nifti, s0) == Step(p, f, basename, src, nifti);
      var vol := Served(s0.cached, src.load);
      assert forall k :: 0 <= k < |front| ==> fs[k] == front[k];
      if p.outcome.Pass? {
        StepCalls(p, f, basename, src, nifti);
        assert Writer(f, src, vol, nifti).Ok? <==> Succeeds(f, src, nifti, vol);
      }
    }
  }

  /** When the run fails after m writers were called, the first m - 1
      succeeded and writer m raised the run's error. */
  lemma {:induction false} DispatchFailure(fs: seq<Format>, basename: string, src: Sources, nifti: bool, s0: State)
    requires Dispatch(fs, basename, src, nifti, s0).outcome.Fail?
    ensures
      var d := Dispatch(fs, basename, src, nifti, s0);
      var vol := Served(s0.cached, src.load);
      var m := |d.state.calls| - |s0.calls|;
      && 0 < m <= |fs|
      && (forall k :: 0 <= k < m - 1 ==> Succeeds(fs[k], src, nifti, vol))
      && Writer(fs[m - 1], src, vol, nifti) == Err(d.outcome.error)
      && Dispatch(fs[..m - 1], basename, src, nifti, s0).outcome.Pass?
      && d.state.written == Dispatch(fs[..m - 1], basename, src, nifti, s0).state.written
  {
    DispatchFailureFiles(fs, basename, src, nifti, s0);
    var front := fs[..|fs| - 1];
    var f := fs[|fs| - 1];
    DispatchOrder(fs, basename, src, nifti, s0);
    DispatchOrder(front, basename, src, nifti, s0);
    DispatchCache(front, basename, src, nifti, s0);
    var p := Dispatch(front, basename, src, nifti, s0);
    var d := Dispatch(fs, basename, src, nifti, s0);
    assert d == Step(p, f, basename, src, nifti);
    assert forall k :: 0 <= k < |front| ==> fs[k] == front[k];
    if p.outcome.Pass? {
      DispatchPasses(front, basename, src, nifti, s0);
      StepCalls(p, f, basename, src, nifti);
    } else {
      DispatchFailure(front, basename, src, nifti, s0);
    }
  }

  /** d, reached from s0 after m writers were called, holds the files the
      passing run of the first m - 1 output types of fs leaves. */
  predicate PrefixFiles(d: Progress, fs: seq<Format>, basename: string, src: Sources, nifti: bool, s0: State)
  {
    var m := |d.state.calls| - |s0.calls|;
    && 0 < m <= |fs|
    && Dispatch(fs[..m - 1], basename, src, nifti, s0).outcome.Pass?
    && d.state.written == Dispatch(fs[..m - 1], basename, src, nifti, s0).state.written
  }

  /** A run that fails after m writers were called leaves the files exactly
      as the passing run of the first m - 1 output types leaves them. */
  lemma {:induction false} DispatchFailureFiles(fs: seq<Format>, basename: string, src: Sources, nifti: bool, s0: State)
    requires Dispatch(fs, basename, src, nifti, s0).outcome.Fail?
    ensures PrefixFiles(Dispatch(fs, basename, src, nifti, s0), fs, basename, src, nifti, s0)
  {
    var front := fs[..|fs| - 1];
    var f := fs[|fs| - 1];
    DispatchOrder(fs, basename, src, nifti, s0);
    DispatchOrder(front, basename, src, nifti, s0);
    var p := Dispatch(front, basename, src, nifti, s0);
    var d := Dispatch(fs, basename, src, nifti, s0);
    assert d == Step(p, f, basename, src, nifti);
    var m := |d.state.calls| - |s0.calls|;
    if p.outcome.Pass? {
      StepCalls(p, f, basename, src, nifti);
      StepFailKeepsFiles(p, f, basename, src, nifti);
      assert fs[..m - 1] == front;
    } else {
      assert d == p;
      DispatchFailureFiles(front, basename, src, nifti, s0);
      assert fs[..m - 1] == front[..m - 1];
    }
  }

  /** A failed run creates no file but those of the writers that succeeded
      before the failing one: in particular the failing writer's own file
      is not created. */
  lemma DispatchFailureCreates(fs: seq<Format>, basename: string, src: Sources, nifti: bool, s0: State, q: string)
    requires Dispatch(fs, basename, src, nifti, s0).outcome.Fail?
    requires q in Dispatch(fs, basename, src, nifti, s0).state.written && q !in s0.written
    ensures
      var m := |Dispatch(fs, basename, src, nifti, s0).state.calls| - |s0.calls|;
      && 0 < m <= |fs|
      && exists k :: 0 <= k < m - 1 && q == basename + Ext(fs[k])
  {
    DispatchFailureFiles(fs, basename, src, nifti, s0);
    var m := |Dispatch(fs, basename, src, nifti, s0).state.calls| - |s0.calls|;
    var prefix := fs[..m - 1];
    if forall k :: 0 <= k < |prefix| ==> q != basename + Ext(prefix[k]) {
      DispatchKeepsOthers(prefix, basename, src, nifti, s0, q);
    } else {
      var k :| 0 <= k < |prefix| && q == basename + Ext(prefix[k]);
      assert prefix[k] == fs[k];
    }
  }

  /** Paths none of the requested writers names are left as they were. */
  lemma {:induction false} DispatchKeepsOthers(fs: seq<Format>, basename: string, src: Sources, nifti: bool, s0: State, q: string)
    requires forall k :: 0 <= k < |fs| ==> q != basename + Ext(fs[k])
    ensures
      var w := Dispatch(fs, basename, src, nifti, s0).state.written;
      && (q in w <==> q in s0.written)
      && (q in w ==> w[q] == s0.written[q])
  {
    if |fs| > 0 {
      DispatchKeepsOthers(fs[..|fs| - 1], basename, src, nifti, s0, q);
      assert q != basename + Ext(fs[|fs| - 1]);
    }
  }

  /** When the run passes, each output type's file holds what its writer
      produces from the settings and the volume get_data returns. */
  lemma {:induction false} DispatchWrites(fs: seq<Format>, basename: string, src: Sources, nifti: bool, s0: State, k: nat)
    requires Dispatch(fs, basename, src, nifti, s0).outcome.Pass?
    requires k < |fs|
    ensures
      var w := Dispatch(fs, basename, src, nifti, s0).state.written;
      var out := Writer(fs[k], src, Served(s0.cached, src.load), nifti);
      && out.Ok?
      && basename + Ext(fs[k]) in w
      && w[basename + Ext(fs[k])] == out.value
  {
    var front := fs[..|fs| - 1];
    var f := fs[|fs| - 1];
    var p := Dispatch(front, basename, src, nifti, s0);
    DispatchCache(front, basename, src, nifti, s0);
    var vol := Served(s0.cached, src.load);
    assert p.outcome.Pass?;
    assert Writer(f, src, Served(p.state.cached, src.load), nifti) == Writer(f, src, vol, nifti);
    if k < |fs| - 1 {
      DispatchWrites(front, basename, src, nifti, s0, k);
      assert front[k] == fs[k];
      if f != fs[k] {
        ExtDistinct(basename, f, fs[k]);
      }
    }
  }

  /** Asking for the same output type twice in a row writes the same
      files as asking once: the second call only calls the writer again. */
  lemma StepTwice(p: Progress, f: Format, basename: string, src: Sources, nifti: bool)
    ensures
      var once := Step(p, f, basename, src, nifti);
      var twice := Step(once, f, basename, src, nifti);
      && twice.outcome == once.outcome
      && twice.state.written == once.state.written
      && twice.state.cached == once.state.cached
      && twice.state.slicesRead == once.state.slicesRead
      && (once.outcome.Pass? ==> twice.state.calls == once.state.calls + [f])
  {
    var once := Step(p, f, basename, src, nifti);
    if p.outcome.Pass? && once.outcome.Pass? && NeedsVolume(f, nifti) {
      assert once.state.cached.Some?;
      assert Served(once.state.cached, src.load) == Served(p.state.cached, src.load);
    }
  }

  /** Nothing is written, no writer called and no slice read when the
      arguments are wrong or the settings cannot be read; the argument
      checks come first, so their error wins over the settings'. */
  lemma MainRejects(outputTypes: seq<Format>, args: seq<string>, isDir: bool, docs: map<string, seq<Node>>,
                    slices: map<string, seq<byte>>, nifti: bool, s0: State)
    requires CheckArguments(outputTypes, args).Err? || GetSettings(args[0], isDir, docs).Err?
    ensures Main(outputTypes, args, isDir, docs, slices, nifti, s0).outcome.Fail?
    ensures Main(outputTypes, args, isDir, docs, slices, nifti, s0).state == s0
    ensures CheckArguments(outputTypes, args).Err? ==>
      Main(outputTypes, args, isDir, docs, slices, nifti, s0) == Progress(Fail(CheckArguments(outputTypes, args).error), s0)
    ensures CheckArguments(outputTypes, args).Ok? && GetSettings(args[0], isDir, docs).Err? ==>
      Main(outputTypes, args, isDir, docs, slices, nifti, s0) == Progress(Fail(GetSettings(args[0], isDir, docs).error), s0)
  {
  }

  /** main() past its two checks is the loop over the output types. */
  lemma MainDispatches(outputTypes: seq<Format>, args: seq<string>, isDir: bool, docs: map<string, seq<Node>>,
                       slices: map<string, seq<byte>>, nifti: bool, s0: State)
    requires |outputTypes| > 0 && |args| == 2 && GetSettings(args[0], isDir, docs).Ok?
    ensures
      var settings := GetSettings(args[0], isDir, docs).value;
      Main(outputTypes, args, isDir, docs, slices, nifti, s0)
        == Dispatch(outputTypes, args[1], SourcesOf(settings, args[1], slices), nifti, s0)
  {
  }

  /** A run that passes got past both checks. */
  lemma MainPasses(outputTypes: seq<Format>, args: seq<string>, isDir: bool, docs: map<string, seq<Node>>,
                   slices: map<string, seq<byte>>, nifti: bool, s0: State)
    requires Main(outputTypes, args, isDir, docs, slices, nifti, s0).outcome.Pass?
    ensures |outputTypes| > 0 && |args| == 2 && GetSettings(args[0], isDir, docs).Ok?
  {
  }

  /** A run that fails in the loop leaves the files exactly as the passing
      run of the output types before the failing one leaves them. */
  lemma MainLoopFailureFiles(outputTypes: seq<Format>, args: seq<string>, isDir: bool, docs: map<string, seq<Node>>,
                             slices: map<string, seq<byte>>, nifti: bool, s0: State)
    requires CheckArguments(outputTypes, args).Ok? && GetSettings(args[0], isDir, docs).Ok?
    requires Main(outputTypes, args, isDir, docs, slices, nifti, s0).outcome.Fail?
    ensures
      var src := SourcesOf(GetSettings(args[0], isDir, docs).value, args[1], slices);
      PrefixFiles(Main(outputTypes, args, isDir, docs, slices, nifti, s0), outputTypes, args[1], src, nifti, s0)
  {
    var src := SourcesOf(GetSettings(args[0], isDir, docs).value, args[1], slices);
    MainDispatches(outputTypes, args, isDir, docs, slices, nifti, s0);
    DispatchFailureFiles(outputTypes, args[1], src, nifti, s0);
  }

  /** A failed run leaves the files as they were when it failed a check,
      and otherwise exactly as the passing run of the output types before
      the failing one leaves them. */
  lemma MainFailureFiles(outputTypes: seq<Format>, args: seq<string>, isDir: bool, docs: map<string, seq<Node>>,
                         slices: map<string, seq<byte>>, nifti: bool, s0: State)
    requires Main(outputTypes, args, isDir, docs, slices, nifti, s0).outcome.Fail?
    ensures
      var d := Main(outputTypes, args, isDir, docs, slices, nifti, s0);
      var m := |d.state.calls| - |s0.calls|;
      && (m == 0 ==> d.state == s0)
      && (m != 0 ==>
            && |args| == 2 && GetSettings(args[0], isDir, docs).Ok?
            && PrefixFiles(d, outputTypes, args[1], SourcesOf(GetSettings(args[0], isDir, docs).value, args[1], slices), nifti, s0))
  {
    if CheckArguments(outputTypes, args).Ok? && GetSettings(args[0], isDir, docs).Ok? {
      MainLoopFailureFiles(outputTypes, args, isDir, docs, slices, nifti, s0);
    } else {
      MainRejects(outputTypes, args, isDir, docs, slices, nifti, s0);
    }
  }

  /** From an empty cache, a loop that passes and wrote <basename>.raw
      wrote the decompressed slice files there, one after another. */
  lemma DispatchRaw(fs: seq<Format>, basename: string, settings: map<string, string>,
                    slices: map<string, seq<byte>>, nifti: bool, s0: State)
    requires s0.cached.None? && "settings_filename" in settings
    requires Dispatch(fs, basename, SourcesOf(settings, basename, slices), nifti, s0).outcome.Pass?
    requires Raw in fs
    ensures "VolSizeZ" in settings && PyInt(settings["VolSizeZ"]).Ok?
    ensures
      var names := SliceNames(settings["settings_filename"], PyInt(settings["VolSizeZ"]).value);
      var written := Dispatch(fs, basename, SourcesOf(settings, basename, slices), nifti, s0).state.written;
      && (forall k :: 0 <= k < |names| ==> names[k] in slices)
      && basename + ".raw" in written
      && written[basename + ".raw"] == RawData(Concat(SliceBytes(names, slices)))
  {
    var src := SourcesOf(settings, basename, slices);
    var k :| 0 <= k < |fs| && fs[k] == Raw;
    DispatchWrites(fs, basename, src, nifti, s0, k);
    assert src.load == LoadVolume(settings, slices);
    RawBytesOfSlices(settings, slices);
  }

  /** End to end, from an empty cache: when the run passes and -r was
      given, <basename>.raw holds the decompressed bytes of the slice files
      <settings file>_000, _001, ... one after another, VolSizeZ of them. */
  lemma RawOutputIsSliceBytes(outputTypes: seq<Format>, args: seq<string>, isDir: bool, docs: map<string, seq<Node>>,
                              slices: map<string, seq<byte>>, nifti: bool, s0: State)
    requires s0.cached.None?
    requires Main(outputTypes, args, isDir, docs, slices, nifti, s0).outcome.Pass?
    requires Raw in outputTypes
    ensures |args| == 2 && GetSettings(args[0], isDir, docs).Ok?
    ensures
      var settings := GetSettings(args[0], isDir, docs).value;
      "settings_filename" in settings && "VolSizeZ" in settings && PyInt(settings["VolSizeZ"]).Ok?
    ensures
      var settings := GetSettings(args[0], isDir, docs).value;
      var names := SliceNames(settings["settings_filename"], PyInt(settings["VolSizeZ"]).value);
      var written := Main(outputTypes, args, isDir, docs, slices, nifti, s0).state.written;
      && (forall k :: 0 <= k < |names| ==> names[k] in slices)
      && args[1] + ".raw" in written
      && written[args[1] + ".raw"] == RawData(Concat(SliceBytes(names, slices)))
  {
    MainPasses(outputTypes, args, isDir, docs, slices, nifti, s0);
    MainDispatches(outputTypes, args, isDir, docs, slices, nifti, s0);
    DispatchRaw(outputTypes, args[1], GetSettings(args[0], isDir, docs).value, slices, nifti, s0);
  }

  /** End to end: when the run passes and -n was given, <basename>.nhdr
      holds the NRRD header of the settings (Headers.NrrdHeaderReadBack
      shows how it reads back). */
  lemma NrrdOutputReadsBack(outputTypes: seq<Format>, args: seq<string>, isDir: bool, docs: map<string, seq<Node>>,
                            slices: map<string, seq<byte>>, nifti: bool, s0: State)
    requires Main(outputTypes, args, isDir, docs, slices, nifti, s0).outcome.Pass?
    requires Nhdr in outputTypes
    ensures |args| == 2 && GetSettings(args[0], isDir, docs).Ok?
    ensures
      var settings := GetSettings(args[0], isDir, docs).value;
      && HasHeaderKeys(settings)
      && args[1] + ".nhdr" in Main(outputTypes, args, isDir, docs, slices, nifti, s0).state.written
      && Main(outputTypes, args, isDir, docs, slices, nifti, s0).state.written[args[1] + ".nhdr"]
         == HeaderText(Join(NrrdList(Sizes(settings), Spacings(settings), args[1])))
  {
    MainPasses(outputTypes, args, isDir, docs, slices, nifti, s0);
    var settings := GetSettings(args[0], isDir, docs).value;
    var src := SourcesOf(settings, args[1], slices);
    MainDispatches(outputTypes, args, isDir, docs, slices, nifti, s0);
    var k :| 0 <= k < |outputTypes| && outputTypes[k] == Nhdr;
    DispatchWrites(outputTypes, args[1], src, nifti, s0, k);
    HeadersNeedKeys(settings, args[1]);
  }

  // ---- the run, in place ----

  /** The output files and the writers called, with get_data's cache. */
  class Converter {
    var written: map<string, OutFile>
    var calls: seq<Format>
    const cache: VolumeCache

    function Current(): State
      reads this, cache
    {
      State(written, calls, cache.cached, cache.slicesRead)
    }

    constructor ()
      ensures written == map[] && calls == []
      ensures fresh(cache) && cache.cached == None && cache.slicesRead == []
    {
      written := map[];
      calls := [];
      cache := new VolumeCache();
    }

    /** write_nrrd_header(settings, basename). */
    method WriteNrrdHeader(settings: map<string, string>, basename: string, ghost src: Sources, nifti: bool) returns (o: Outcome)
      requires src.nrrd == NrrdHeader(settings, basename)
      modifies this
      ensures Progress(o, Current()) == Step(Progress(Pass, old(Current())), Nhdr, basename, src, nifti)
    {
      calls := calls + [Nhdr];
      var header := NrrdHeader(settings, basename);
      if header.Ok? {
        written := written[basename + ".nhdr" := HeaderText(header.value)];
        o := Pass;
      } else {
        o := Fail(header.error);
      }
    }

    /** write_metaimage_header(settings, basename). */
    method WriteMetaImageHeader(settings: map<string, string>, basename: string, ghost src: Sources, nifti: bool) returns (o: Outcome)
      requires src.mhd == MetaImageHeader(settings, basename)
      modifies this
      ensures Progress(o, Current()) == Step(Progress(Pass, old(Current())), Mhd, basename, src, nifti)
    {
      calls := calls + [Mhd];
      var header := MetaImageHeader(settings, basename);
      if header.Ok? {
        written := written[basename + ".mhd" := HeaderText(header.value)];
        o := Pass;
      } else {
        o := Fail(header.error);
      }
    }

    /** write_raw_file(settings, basename). */
    method WriteRawFile(settings: map<string, string>, basename: string, slices: map<string, seq<byte>>,
                        ghost src: Sources, nifti: bool) returns (o: Outcome)
      requires src.load == LoadVolume(settings, slices) && src.attempts == LoadAttempts(settings, slices)
      modifies this, cache
      ensures Progress(o, Current()) == Step(Progress(Pass, old(Current())), Raw, basename, src, nifti)
    {
      calls := calls + [Raw];
      var vol := cache.GetData(settings, slices);
      if vol.Ok? {
        written := written[basename + ".raw" := RawData(RawBytes(vol.value))];
        o := Pass;
      } else {
        o := Fail(vol.error);
      }
    }

    /** write_nifti_file(settings, basename); without pynifti the name
        NiftiImage does not resolve and nothing is read. */
    method WriteNiftiFile(settings: map<string, string>, basename: string, slices: map<string, seq<byte>>,
                          ghost src: Sources, nifti: bool) returns (o: Outcome)
      requires src.load == LoadVolume(settings, slices) && src.attempts == LoadAttempts(settings, slices)
      modifies this, cache
      ensures Progress(o, Current()) == Step(Progress(Pass, old(Current())), Nii, basename, src, nifti)
    {
      calls := calls + [Nii];
      if !nifti {
        o := Fail(NiftiUnavailable);
      } else {
        var vol := cache.GetData(settings, slices);
        if vol.Ok? {
          written := written[basename + ".nii" := NiftiData(vol.value)];
          o := Pass;
        } else {
          o := Fail(vol.error);
        }
      }
    }

    /** output_mapping[f](settings, basename). */
    method Write(f: Format, settings: map<string, string>, basename: string,
                 slices: map<string, seq<byte>>, nifti: bool) returns (o: Outcome)
      modifies this, cache
      ensures Progress(o, Current()) == Step(Progress(Pass, old(Current())), f, basename, SourcesOf(settings, basename, slices), nifti)
    {
      ghost var src := SourcesOf(settings, basename, slices);
      match f
      case Nhdr => o := WriteNrrdHeader(settings, basename, src, nifti);
      case Mhd => o := WriteMetaImageHeader(settings, basename, src, nifti);
      case Raw => o := WriteRawFile(settings, basename, slices, src, nifti);
      case Nii => o := WriteNiftiFile(settings, basename, slices, src, nifti);
    }

    /** The loop of main(): the writer of each output type in turn, until
        one fails. */
    method WriteAll(outputTypes: seq<Format>, settings: map<string, string>, basename: string,
                    slices: map<string, seq<byte>>, nifti: bool) returns (o: Outcome)
      modifies this, cache
      ensures Progress(o, Current()) == Dispatch(outputTypes, basename, SourcesOf(settings, basename, slices), nifti, old(Current()))
    {
      ghost var src := SourcesOf(settings, basename, slices);
      o := Pass;
      var i := 0;
      while i < |outputTypes| && o.Pass?
        invariant 0 <= i <= |outputTypes|
        invariant Progress(o, Current()) == Dispatch(outputTypes[..i], basename, src, nifti, old(Current()))
      {
        ghost var prev := Dispatch(outputTypes[..i], basename, src, nifti, old(Current()));
        assert outputTypes[..i + 1][..i] == outputTypes[..i];
        assert Dispatch(outputTypes[..i + 1], basename, src, nifti, old(Current()))
            == Step(prev, outputTypes[i], basename, src, nifti);
        o := Write(outputTypes[i], settings, basename, slices, nifti);
        i := i + 1;
      }
      if i < |outputTypes| {
        DispatchAfterFail(outputTypes, i, basename, src, nifti, old(Current()));
      } else {
        assert outputTypes[..i] == outputTypes;
      }
    }

    /** main() with the given command line. */
    method Run(outputTypes: seq<Format>, args: seq<string>, isDir: bool, docs: map<string, seq<Node>>,
               slices: map<string, seq<byte>>, nifti: bool) returns (o: Outcome)
      modifies this, cache
      ensures Progress(o, Current()) == Main(outputTypes, args, isDir, docs, slices, nifti, old(Current()))
    {
      var checked := CheckArguments(outputTypes, args);
      if checked.Err? {
        return Fail(checked.error);
      }
      var inputDirectory := checked.value.0;
      var outputBasename := checked.value.1;
      var read := GetSettings(inputDirectory, isDir, docs);
      if read.Err? {
        return Fail(read.error);
      }
      MainDispatches(outputTypes, args, isDir, docs, slices, nifti, Current());
      o := WriteAll(outputTypes, read.value, outputBasename, slices, nifti);
    }
  }
}
