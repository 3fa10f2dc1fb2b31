/** The feature-extraction script: every `.wav` clip of every class folder is
    loaded, forced to two seconds, augmented, and each version's decibel
    mel-spectrogram is appended to X with the folder's class index in y.
    Loading, the noise draw and the pitch shifter are external and enter as
    parameters. */
module Preprocess {
  import opened Base
  import opened Config
  import Signal
  import Features

  type Samples = Signal.Samples

  const DataDir: string := "./data/synthetic_train"

  /** `int(SAMPLE_RATE * DURATION)`. */
  const TargetLength: nat := 32000

  /** The white-noise factor of the second version. */
  const NoiseFactor: real := 0.005

  /** The semitone steps tried by the pitch shifter, in order. */
  const ShiftDown: real := -2.0
  const ShiftUp: real := 2.0

  /** A pitch shifter that may raise: None stands for the exception. */
  type Shifter = (Samples, real) -> Option<Samples>

  /** The script's environment: the folder listing (None when the folder does
      not exist), the loader (None when it raises), the noise vector drawn for
      a file, the pitch shifter and the mel transform. */
  datatype Env = Env(
    listing: string -> Option<seq<string>>,
    load: string -> Option<Samples>,
    noise: string -> Samples,
    shift: Shifter,
    melDb: Features.MelTransform)

  lemma TargetLengthFromRate()
    ensures TargetLength == Trunc(SampleRate as real * Duration)
    ensures TargetLength == BlockSize
  {
    SizesFromRate();
  }

  /** `augment_audio`: the original, the noisy copy, then the two pitch shifts
      inside one `try`, so the upward shift is only attempted after the
      downward one succeeded, and a failing upward shift keeps the downward
      one. */
  function Augment(audio: Samples, noise: Samples, shift: Shifter): (r: seq<Samples>)
    requires |noise| == |audio|
    ensures 2 <= |r| <= 4
    ensures r[0] == audio
    ensures |r[1]| == |audio| && forall i :: 0 <= i < |audio| ==> r[1][i] == audio[i] + noise[i] * NoiseFactor
    ensures |r| == 2 <==> shift(audio, ShiftDown).None?
    ensures |r| >= 3 ==> shift(audio, ShiftDown) == Some(r[2])
    ensures |r| == 4 <==> shift(audio, ShiftDown).Some? && shift(audio, ShiftUp).Some?
    ensures |r| == 4 ==> shift(audio, ShiftUp) == Some(r[3])
  {
    var basic := [audio, Signal.Add(audio, Signal.Scale(noise, NoiseFactor))];
    match shift(audio, ShiftDown)
    case None => basic
    case Some(down) =>
      match shift(audio, ShiftUp)
      case None => basic + [down]
      case Some(up) => basic + [down, up]
  }

  predicate EndsWith(s: string, suffix: string)
  {
    |suffix| <= |s| && s[|s| - |suffix|..] == suffix
  }

  /** The `.wav` entries of a listing, in listing order. */
  function WavFiles(names: seq<string>): (r: seq<string>)
    ensures forall i :: 0 <= i < |r| ==> EndsWith(r[i], ".wav") && r[i] in names
    ensures forall n :: n in names && EndsWith(n, ".wav") ==> n in r
  {
    if |names| == 0 then []
    else (if EndsWith(names[0], ".wav") then [names[0]] else []) + WavFiles(names[1..])
  }

  /** A single entry is kept exactly when it is a `.wav` name. */
  lemma WavFilesSingle(n: string)
    ensures WavFiles([n]) == (if EndsWith(n, ".wav") then [n] else [])
  {
    assert [n][1..] == [];
  }

  /** The filter keeps listing order: filtering a concatenation concatenates
      the filtered parts, so with WavFilesSingle the result is determined
      entry by entry. */
  lemma {:induction false} WavFilesAppend(a: seq<string>, b: seq<string>)
    ensures WavFiles(a + b) == WavFiles(a) + WavFiles(b)
  {
    if |a| > 0 {
      assert (a + b)[0] == a[0];
      assert (a + b)[1..] == a[1..] + b;
      WavFilesAppend(a[1..], b);
    } else {
      assert a + b == b;
    }
  }

  function FolderPath(className: string): string
  {
    DataDir + "/" + className
  }

  function FilePath(className: string, file: string): string
  {
    FolderPath(className) + "/" + file
  }

  /** The spectrograms of a list of versions, in order. */
  function MelAll(melDb: Features.MelTransform, versions: seq<Samples>): (r: seq<Features.MelSpec>)
    ensures |r| == |versions|
    ensures forall i :: 0 <= i < |versions| ==> r[i] == melDb(versions[i])
  {
    seq(|versions|, i requires 0 <= i < |versions| => melDb(versions[i]))
  }

  /** The samples one file contributes after loading and length fixing. */
  function Versions(env: Env, path: string): seq<Samples>
  {
    match env.load(path)
    case None => []
    case Some(raw) =>
      var audio := Signal.FixLength(raw, TargetLength);
      Augment(audio, Signal.FixLength(env.noise(path), TargetLength), env.shift)
  }

  /** The rows one file appends to X: none when loading raised. */
  function FileFeatures(env: Env, path: string): seq<Features.MelSpec>
  {
    MelAll(env.melDb, Versions(env, path))
  }

  /** A loaded file adds two to four rows, the first from the clip itself,
      forced to two seconds; a file that fails to load adds none. */
  lemma FileFeaturesCount(env: Env, path: string)
    ensures env.load(path).None? ==> FileFeatures(env, path) == []
    ensures env.load(path).Some? ==>
              2 <= |FileFeatures(env, path)| <= 4 &&
              FileFeatures(env, path)[0] == env.melDb(Signal.FixLength(env.load(path).value, TargetLength))
  {
  }

  /** Reference definition: the rows of a class folder's files, in order. */
  function FilesFeatures(env: Env, className: string, files: seq<string>): seq<Features.MelSpec>
  {
    if |files| == 0 then []
    else FilesFeatures(env, className, files[..|files| - 1]) + FileFeatures(env, FilePath(className, files[|files| - 1]))
  }

  /** The rows of class k: none when its folder is missing. */
  function ClassFeatures(env: Env, k: nat): seq<Features.MelSpec>
    requires k < |Classes|
  {
    match env.listing(FolderPath(Classes[k]))
    case None => []
    case Some(names) => FilesFeatures(env, Classes[k], WavFiles(names))
  }

  function Repeat(k: nat, n: nat): (r: seq<nat>)
    ensures |r| == n && forall i :: 0 <= i < n ==> r[i] == k
  {
    seq(n, _ => k)
  }

  predicate Sorted(y: seq<nat>)
  {
    forall i, j :: 0 <= i < j < |y| ==> y[i] <= y[j]
  }

  /** Reference definition of X after the first k classes. */
  function Rows(env: Env, k: nat): seq<Features.MelSpec>
    requires k <= |Classes|
  {
    if k == 0 then [] else Rows(env, k - 1) + ClassFeatures(env, k - 1)
  }

  /** Reference definition of y after the first k classes: each class index
      repeated once per row its folder produced. */
  function Labels(env: Env, k: nat): (y: seq<nat>)
    requires k <= |Classes|
    ensures |y| == |Rows(env, k)|
  {
    if k == 0 then [] else Labels(env, k - 1) + Repeat(k - 1, |ClassFeatures(env, k - 1)|)
  }

  /** y only holds indices of the classes seen so far, in ascending order. */
  lemma {:induction false} LabelsSorted(env: Env, k: nat)
    requires k <= |Classes|
    ensures forall i :: 0 <= i < |Labels(env, k)| ==> Labels(env, k)[i] < k
    ensures Sorted(Labels(env, k))
  {
    if k > 0 {
      LabelsSorted(env, k - 1);
      var prev := Labels(env, k - 1);
      var y := Labels(env, k);
      assert forall i :: 0 <= i < |prev| ==> y[i] == prev[i] && prev[i] < k - 1;
      assert forall i :: |prev| <= i < |y| ==> y[i] == k - 1;
    }
  }

  lemma InRepeat(c: nat, k: nat, n: nat)
    ensures c in Repeat(k, n) <==> n > 0 && c == k
  {
    if n > 0 && c == k {
      assert Repeat(k, n)[0] == c;
    }
  }

  /** A class index appears in y exactly when its folder produced rows, so a
      missing folder's index never appears. */
  lemma {:induction false} LabelPresentIffRows(env: Env, k: nat, c: nat)
    requires k <= |Classes| && c < |Classes|
    ensures c in Labels(env, k) <==> c < k && ClassFeatures(env, c) != []
  {
    if k > 0 {
      LabelPresentIffRows(env, k - 1, c);
      InRepeat(c, k - 1, |ClassFeatures(env, k - 1)|);
    }
  }

  lemma MissingFolderAbsent(env: Env, c: nat)
    requires c < |Classes| && env.listing(FolderPath(Classes[c])).None?
    ensures c !in Labels(env, |Classes|)
  {
    LabelPresentIffRows(env, |Classes|, c);
  }

  lemma RepeatAppend(k: nat, a: nat, b: nat)
    ensures Repeat(k, a) + Repeat(k, b) == Repeat(k, a + b)
  {
  }

  /** `main` before saving: the loop over the classes in order, appending
      each class folder's rows to X and its index to y. */
  method BuildDataset(env: Env) returns (x: seq<Features.MelSpec>, y: seq<nat>)
    ensures x == Rows(env, |Classes|) && y == Labels(env, |Classes|)
    ensures |x| == |y| && Sorted(y)
    ensures forall i :: 0 <= i < |y| ==> y[i] < |Classes| && x[i] in ClassFeatures(env, y[i])
    ensures forall c :: 0 <= c < |Classes| ==> (c in y <==> ClassFeatures(env, c) != [])
  {
    x, y := [], [];
    var k := 0;
    while k < |Classes|
      invariant 0 <= k <= |Classes|
      invariant x == Rows(env, k) && y == Labels(env, k)
    {
      x, y := AppendClass(env, k, x, y);
      k := k + 1;
    }
    LabelsSorted(env, k);
    forall i | 0 <= i < |y|
      ensures x[i] in ClassFeatures(env, y[i])
    {
      RowsBelongToTheirClass(env, k, i);
    }
    forall c | 0 <= c < |Classes|
      ensures c in y <==> ClassFeatures(env, c) != []
    {
      LabelPresentIffRows(env, k, c);
    }
  }

  /** One iteration of the class loop: a missing folder is skipped, otherwise
      its `.wav` files are processed in listing order. */
  method AppendClass(env: Env, k: nat, x0: seq<Features.MelSpec>, y0: seq<nat>)
    returns (x: seq<Features.MelSpec>, y: seq<nat>)
    requires k < |Classes|
    ensures x == x0 + ClassFeatures(env, k)
    ensures y == y0 + Repeat(k, |ClassFeatures(env, k)|)
  {
    match env.listing(FolderPath(Classes[k])) {
      case None =>
        x, y := x0, y0;
        assert x0 + [] == x0 && y0 + Repeat(k, 0) == y0;
      case Some(names) =>
        x, y := AppendFiles(env, k, WavFiles(names), x0, y0);
    }
  }

  /** The loop over one folder's files, in listing order. */
  method AppendFiles(env: Env, k: nat, files: seq<string>, x0: seq<Features.MelSpec>, y0: seq<nat>)
    returns (x: seq<Features.MelSpec>, y: seq<nat>)
    requires k < |Classes|
    ensures x == x0 + FilesFeatures(env, Classes[k], files)
    ensures y == y0 + Repeat(k, |FilesFeatures(env, Classes[k], files)|)
  {
    x, y := x0, y0;
    var j := 0;
    while j < |files|
      invariant 0 <= j <= |files|
      invariant x == x0 + FilesFeatures(env, Classes[k], files[..j])
      invariant y == y0 + Repeat(k, |x| - |x0|)
    {
      assert files[..j + 1][..j] == files[..j];
      var before := FilesFeatures(env, Classes[k], files[..j]);
      var added := FileFeatures(env, FilePath(Classes[k], files[j]));
      assert FilesFeatures(env, Classes[k], files[..j + 1]) == before + added;
      x, y := AppendFile(env, k, FilePath(Classes[k], files[j]), x, y);
      RepeatAppend(k, |before|, |added|);
      j := j + 1;
    }
    assert files[..j] == files;
  }

  /** One file: one row per surviving version, each labelled with k. */
  method AppendFile(env: Env, k: nat, path: string, x0: seq<Features.MelSpec>, y0: seq<nat>)
    returns (x: seq<Features.MelSpec>, y: seq<nat>)
    ensures x == x0 + FileFeatures(env, path)
    ensures y == y0 + Repeat(k, |FileFeatures(env, path)|)
  {
    var versions := Versions(env, path);
    x, y := x0, y0;
    var v := 0;
    while v < |versions|
      invariant 0 <= v <= |versions|
      invariant x == x0 + MelAll(env.melDb, versions[..v])
      invariant y == y0 + Repeat(k, v)
    {
      assert versions[..v + 1] == versions[..v] + [versions[v]];
      x := x + [env.melDb(versions[v])];
      y := y + [k];
      v := v + 1;
    }
    assert versions[..v] == versions;
  }

  /** Row i of X came from the class folder y[i] names. */
  lemma {:induction false} RowsBelongToTheirClass(env: Env, k: nat, i: nat)
    requires k <= |Classes| && i < |Labels(env, k)|
    ensures Labels(env, k)[i] < k && Rows(env, k)[i] in ClassFeatures(env, Labels(env, k)[i])
  {
    var prevX := Rows(env, k - 1);
    var prevY := Labels(env, k - 1);
    var block := ClassFeatures(env, k - 1);
    assert Rows(env, k) == prevX + block;
    assert Labels(env, k) == prevY + Repeat(k - 1, |block|);
    if i < |prevY| {
      RowsBelongToTheirClass(env, k - 1, i);
      assert Rows(env, k)[i] == prevX[i] && Labels(env, k)[i] == prevY[i];
    } else {
      assert Rows(env, k)[i] == block[i - |prevX|] && Labels(env, k)[i] == k - 1;
    }
  }
}
