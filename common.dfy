/** Shared value types of the converter: bytes, 16-bit samples, and the
    failure-compatible Result type that stands for the script's exceptions. */
module Common {

  /** One byte of a decompressed slice file or of the raw output. */
  type byte = x: int | 0 <= x < 256

  /** A signed 16-bit sample (numpy's int16). */
  type int16 = x: int | -32768 <= x < 32768

  datatype Option<T> = None | Some(value: T)

  /** The exceptions the script can raise, one constructor per cause. */
  datatype Error =
    | UsageError(message: string)     // parser.error in main
    | MissingInputArgument            // args[0] with no positional argument at all
    | NotADirectory                   // RuntimeError("Expected a directory.")
    | SettingsUnreadable(path: string) // open/gunzip/parse of the sidecar failed
    | ElementMissing(tag: string)     // getElementsByTagName(tag)[0] on an empty list
    | NoTextData(name: string)        // n.childNodes[0].data on a non-text child
    | KeyMissing(key: string)         // settings[key] for an absent key
    | NotAnInteger(text: string)      // int(text) raised ValueError
    | SliceUnreadable(path: string)   // open/gunzip of a slice file failed
    | SliceSizeMismatch(path: string) // fromstring/reshape raised ValueError
    | NiftiUnavailable                // the NiftiImage name was never imported

  datatype Result<T> = Ok(value: T) | Err(error: Error) {
    predicate IsFailure() {
      Err?
    }

    function PropagateFailure<U>(): Result<U>
      requires Err?
    {
      Err(error)
    }

    function Extract(): T
      requires Ok?
    {
      value
    }
  }

  /** The outcome of an action run only for its effect. */
  datatype Outcome = Pass | Fail(error: Error) {
    predicate IsFailure() {
      Fail?
    }

    function PropagateFailure(): Outcome
      requires Fail?
    {
      this
    }
  }

  /** Dictionary lookup with Python's KeyError. */
  function Lookup(m: map<string, string>, key: string): (r: Result<string>)
    ensures r.Ok? <==> key in m
    ensures r.Ok? ==> r.value == m[key]
    ensures r.Err? ==> r.error == KeyMissing(key)
  {
    if key in m then Ok(m[key]) else Err(KeyMissing(key))
  }

  /** Concatenation of a sequence of sequences. */
  function Concat<T>(ss: seq<seq<T>>): seq<T>
  {
    if |ss| == 0 then [] else Concat(ss[..|ss| - 1]) + ss[|ss| - 1]
  }

  lemma ConcatAppend<T>(ss: seq<seq<T>>, s: seq<T>)
    ensures Concat(ss + [s]) == Concat(ss) + s
  {
    assert (ss + [s])[..|ss|] == ss;
  }

  lemma {:induction false} ConcatJoin<T>(a: seq<seq<T>>, b: seq<seq<T>>)
    ensures Concat(a + b) == Concat(a) + Concat(b)
    decreases |b|
  {
    if |b| == 0 {
      assert a + b == a;
    } else {
      var b' := b[..|b| - 1];
      assert a + b == (a + b') + [b[|b| - 1]];
      ConcatAppend(a + b', b[|b| - 1]);
      ConcatJoin(a, b');
      ConcatAppend(b', b[|b| - 1]);
      assert b == b' + [b[|b| - 1]];
    }
  }

  /** When every part has length n, the concatenation has n * |ss| elements. */
  lemma {:induction false} ConcatUniformLength<T>(ss: seq<seq<T>>, n: nat)
    requires forall i :: 0 <= i < |ss| ==> |ss[i]| == n
    ensures |Concat(ss)| == n * |ss|
    decreases |ss|
  {
    if |ss| > 0 {
      var k := |ss| - 1;
      ConcatUniformLength(ss[..k], n);
      assert n * |ss| == n * k + n;
    }
  }

  /** When every part has length n, element j of part i sits at position
      i * n + j of the concatenation. */
  lemma {:induction false} ConcatUniformAt<T>(ss: seq<seq<T>>, n: nat, i: nat, j: nat)
    requires forall k :: 0 <= k < |ss| ==> |ss[k]| == n
    requires i < |ss| && j < n
    ensures i * n + j < |Concat(ss)| && Concat(ss)[i * n + j] == ss[i][j]
    decreases |ss|
  {
    var k := |ss| - 1;
    var front := ss[..k];
    ConcatUniformLength(front, n);
    assert Concat(ss) == Concat(front) + ss[k];
    if i < k {
      ConcatUniformAt(front, n, i, j);
    } else {
      assert i * n == n * k;
    }
  }
}
