/** The synthetic-data script: target clips are mixed into background clips at
    a drawn signal-to-noise ratio, peak-normalised, optionally built from a
    pitch- or speed-augmented foreground, and written under numbered names;
    then pure background samples with an optional gain are written. The
    random draws, `10**x`, `sqrt` and the audio loader enter as parameters. */
module Synthetic {
  import opened Base
  import opened Config
  import Signal
  import Decimal
  import Preprocess

  type Samples = Signal.Samples

  const DataDir: string := "data"
  const SyntheticDir: string := "data/synthetic_train"
  const BackgroundClass: string := "background"

  /** Samples generated per target class, and pure background samples. */
  const SamplesPerTarget: nat := 1000

  /** The classes of `xs` other than `drop`, in order. */
  function Without(xs: seq<string>, drop: string): (r: seq<string>)
    ensures forall c :: c in r <==> c in xs && c != drop
  {
    if |xs| == 0 then [] else (if xs[0] == drop then [] else [xs[0]]) + Without(xs[1..], drop)
  }

  /** `TARGET_CLASSES`: every class but the background, in class order. */
  function TargetClasses(): (t: seq<string>)
    ensures forall c :: c in t <==> c in Classes && c != BackgroundClass
  {
    Without(Classes, BackgroundClass)
  }

  lemma TargetClassesValue()
    ensures TargetClasses() == ["chainsaw", "gunshot"]
  {
  }

  /** `os.path.join(DATA_DIR, label)`. */
  function SourceFolder(className: string): string
  {
    DataDir + "/" + className
  }

  /** Every clip of a folder, forced to two seconds, in listing order. The
      loader is total here: a failing load ends the script. */
  function LoadClips(names: seq<string>, folder: string, load: string -> Samples): (clips: seq<Samples>)
    ensures |clips| == |Preprocess.WavFiles(names)|
    ensures forall i :: 0 <= i < |clips| ==>
              clips[i] == Signal.FixLength(load(folder + "/" + Preprocess.WavFiles(names)[i]), Preprocess.TargetLength)
  {
    var files := Preprocess.WavFiles(names);
    seq(|files|, i requires 0 <= i < |files| => Signal.FixLength(load(folder + "/" + files[i]), Preprocess.TargetLength))
  }

  /** All clips of one length, as LoadClips produces them. */
  predicate Fixed(clips: seq<Samples>)
  {
    forall i :: 0 <= i < |clips| ==> |clips[i]| == Preprocess.TargetLength
  }

  lemma LoadClipsFixed(names: seq<string>, folder: string, load: string -> Samples)
    ensures Fixed(LoadClips(names, folder, load))
  {
  }

  type Positive = r: real | r > 0.0 witness 1.0

  /** The floating-point primitives `mix_audio` uses: `10 ** x`, which is
      always positive, and `np.sqrt`. */
  datatype MixMath = MixMath(pow10: real -> Positive, sqrt: real -> real)

  /** `sqrt(target_bg_power / bg_power)` with `target_bg_power` the
      foreground's power lowered by the SNR in decibels. */
  function BackgroundScale(fg: Samples, bg: Samples, snrDb: real, math: MixMath): real
    requires |fg| > 0 && |bg| > 0 && !Signal.Silent(bg)
  {
    var target := Signal.MeanSquare(fg) / math.pow10(snrDb / 10.0);
    math.sqrt(target / Signal.MeanSquare(bg))
  }

  /** The foreground plus the scaled background, before normalisation. */
  function Mixture(fg: Samples, bg: Samples, snrDb: real, math: MixMath): (m: Samples)
    requires |fg| == |bg| > 0 && !Signal.Silent(bg)
    ensures |m| == |fg|
    ensures forall i :: 0 <= i < |fg| ==> m[i] == fg[i] + bg[i] * BackgroundScale(fg, bg, snrDb, math)
  {
    Signal.Add(fg, Signal.Scale(bg, BackgroundScale(fg, bg, snrDb, math)))
  }

  /** `mix_audio`: a silent background (zero power) returns the foreground
      untouched; otherwise the mixture, divided by its peak when that peak
      exceeds 1. */
  function MixAudio(fg: Samples, bg: Samples, snrDb: real, math: MixMath): (r: Samples)
    requires |fg| == |bg| > 0
    ensures |r| == |fg|
    ensures Signal.Silent(bg) ==> r == fg
    ensures !Signal.Silent(bg) ==> r == Signal.PeakNormalize(Mixture(fg, bg, snrDb, math))
    ensures !Signal.Silent(bg) ==> Signal.Peak(r) <= 1.0
  {
    if Signal.MeanSquare(bg) == 0.0 then fg
    else
      var mixed := Mixture(fg, bg, snrDb, math);
      Signal.PeakNormalizeBounds(mixed);
      Signal.PeakNormalize(mixed)
  }

  /** The two normalisation branches: a mixture within [-1, 1] is kept as it
      is, a louder one is divided by its peak so that its peak is exactly 1. */
  lemma MixAudioNormalises(fg: Samples, bg: Samples, snrDb: real, math: MixMath)
    requires |fg| == |bg| > 0 && !Signal.Silent(bg)
    ensures Signal.Peak(Mixture(fg, bg, snrDb, math)) <= 1.0 ==>
              MixAudio(fg, bg, snrDb, math) == Mixture(fg, bg, snrDb, math)
    ensures Signal.Peak(Mixture(fg, bg, snrDb, math)) > 1.0 ==>
              && MixAudio(fg, bg, snrDb, math)
                   == Signal.Divide(Mixture(fg, bg, snrDb, math), Signal.Peak(Mixture(fg, bg, snrDb, math)))
              && Signal.Peak(MixAudio(fg, bg, snrDb, math)) == 1.0
  {
    Signal.PeakNormalizeBounds(Mixture(fg, bg, snrDb, math));
  }

  /** The draws behind one target sample: the foreground and background
      choices (taken modulo the number of clips), the SNR, and the augmented
      foreground when augmentation was drawn and did not raise. */
  datatype Draw = Draw(fore: nat, back: nat, snr: real, augmented: Option<Samples>)

  /** The draws behind one background sample: the clip and the optional
      gain. */
  datatype BackgroundDraw = BackgroundDraw(back: nat, gain: Option<real>)

  datatype Random = Random(target: (string, nat) -> Draw, background: nat -> BackgroundDraw)

  /** One written file: its folder, its name and its samples. */
  datatype Written = Written(folder: string, name: string, audio: Samples)

  /** One target sample's audio: the mix of the foreground, or of the
      augmented foreground forced back to two seconds. */
  function SynthSample(fore: Samples, back: Samples, d: Draw, math: MixMath): (r: Samples)
    requires |fore| == |back| == Preprocess.TargetLength
    ensures |r| == Preprocess.TargetLength
    ensures !Signal.Silent(back) ==> Signal.Peak(r) <= 1.0
    ensures d.augmented.None? ==> r == MixAudio(fore, back, d.snr, math)
    ensures d.augmented.Some? ==>
              r == MixAudio(Signal.FixLength(d.augmented.value, Preprocess.TargetLength), back, d.snr, math)
    ensures Signal.Silent(back) && d.augmented.None? ==> r == fore
    ensures Signal.Silent(back) && d.augmented.Some? ==> r == Signal.FixLength(d.augmented.value, Preprocess.TargetLength)
  {
    match d.augmented
    case None => MixAudio(fore, back, d.snr, math)
    case Some(a) => MixAudio(Signal.FixLength(a, Preprocess.TargetLength), back, d.snr, math)
  }

  /** `f"synth_{label}_{i:04d}_snr{int(snr)}.wav"`, as the class prefix, the
      four index digits and the SNR suffix. */
  function OutName(className: string, i: nat, snr: real): string
  {
    OutPrefix(className) + Decimal.Show4(i) + OutSuffix(snr)
  }

  function OutPrefix(className: string): string
  {
    "synth_" + className + "_"
  }

  function OutSuffix(snr: real): string
  {
    "_snr" + Decimal.ShowInt(Trunc(snr)) + ".wav"
  }

  /** `f"synth_bg_{i:04d}.wav"`. */
  function BackgroundName(i: nat): string
  {
    "synth_bg_" + Decimal.Show4(i) + ".wav"
  }

  /** Index 7 is written as four digits, and an SNR of -3.7 dB is tagged -3:
      `int()` truncates toward zero, where a floor would give -4. */
  lemma OutNameExample()
    ensures OutName("chainsaw", 7, -3.7) == "synth_chainsaw_0007_snr-3.wav"
    ensures BackgroundName(42) == "synth_bg_0042.wav"
  {
    assert Trunc(-3.7) == -3;
    assert Decimal.Show4(7) == "0007";
    assert Decimal.Show4(42) == "0042";
  }

  lemma SliceMiddle<T>(a: seq<T>, b: seq<T>, c: seq<T>)
    ensures (a + b + c)[|a|..|a| + |b|] == b
  {
  }

  /** The index of a sample name is the number its four digits spell. */
  lemma OutNameIndex(className: string, i: nat, snr: real)
    requires i < 10000
    ensures var p := |OutPrefix(className)|;
            |OutName(className, i, snr)| >= p + 4 &&
            Decimal.AllDigits(OutName(className, i, snr)[p..p + 4]) &&
            Decimal.Parse(OutName(className, i, snr)[p..p + 4]) == i
  {
    SliceMiddle(OutPrefix(className), Decimal.Show4(i), OutSuffix(snr));
    Decimal.ParseShow4(i);
  }

  /** Two samples of one class with different indices never share a file
      name, whatever their SNRs. */
  lemma OutNamesDistinct(className: string, i: nat, j: nat, s1: real, s2: real)
    requires i < 10000 && j < 10000 && i != j
    ensures OutName(className, i, s1) != OutName(className, j, s2)
  {
    OutNameIndex(className, i, s1);
    OutNameIndex(className, j, s2);
  }

  lemma BackgroundNamesDistinct(i: nat, j: nat)
    requires i < 10000 && j < 10000 && i != j
    ensures BackgroundName(i) != BackgroundName(j)
  {
    SliceMiddle("synth_bg_", Decimal.Show4(i), ".wav");
    SliceMiddle("synth_bg_", Decimal.Show4(j), ".wav");
    Decimal.ParseShow4(i);
    Decimal.ParseShow4(j);
  }

  /** Iteration i of a target class's loop. */
  function TargetSample(className: string, clips: seq<Samples>, background: seq<Samples>,
                        rnd: Random, math: MixMath, i: nat): (w: Written)
    requires |clips| > 0 && |background| > 0 && Fixed(clips) && Fixed(background)
    ensures w.folder == SyntheticDir + "/" + className
    ensures w.name == OutName(className, i, rnd.target(className, i).snr)
    ensures |w.audio| == Preprocess.TargetLength
    ensures var d := rnd.target(className, i);
            w.audio == SynthSample(clips[d.fore % |clips|], background[d.back % |background|], d, math)
  {
    var d := rnd.target(className, i);
    var fore := clips[d.fore % |clips|];
    var back := background[d.back % |background|];
    Written(SyntheticDir + "/" + className, OutName(className, i, d.snr), SynthSample(fore, back, d, math))
  }

  /** One target class: nothing when it has no clips, otherwise
      SamplesPerTarget numbered samples. */
  function ClassOutputs(className: string, clips: seq<Samples>, background: seq<Samples>,
                        rnd: Random, math: MixMath): (out: seq<Written>)
    requires |background| > 0 && Fixed(clips) && Fixed(background)
    ensures |out| == (if |clips| == 0 then 0 else SamplesPerTarget)
  {
    if |clips| == 0 then []
    else seq(SamplesPerTarget, i requires 0 <= i < SamplesPerTarget => TargetSample(className, clips, background, rnd, math, i))
  }

  /** No two files written for one class share a name. */
  lemma ClassOutputsDistinct(className: string, clips: seq<Samples>, background: seq<Samples>,
                             rnd: Random, math: MixMath, i: nat, j: nat)
    requires |background| > 0 && Fixed(clips) && Fixed(background)
    requires i < j < |ClassOutputs(className, clips, background, rnd, math)|
    ensures ClassOutputs(className, clips, background, rnd, math)[i].name
            != ClassOutputs(className, clips, background, rnd, math)[j].name
  {
    var out := ClassOutputs(className, clips, background, rnd, math);
    var wi := TargetSample(className, clips, background, rnd, math, i);
    var wj := TargetSample(className, clips, background, rnd, math, j);
    assert out[i] == wi && out[j] == wj;
    OutNamesDistinct(className, i, j, rnd.target(className, i).snr, rnd.target(className, j).snr);
  }

  /** Iteration i of the background loop. */
  function BackgroundSample(background: seq<Samples>, rnd: Random, i: nat): (w: Written)
    requires |background| > 0 && Fixed(background)
    ensures w.folder == SyntheticDir + "/" + BackgroundClass && w.name == BackgroundName(i)
    ensures |w.audio| == Preprocess.TargetLength
    ensures var d := rnd.background(i);
            var clip := background[d.back % |background|];
            && (d.gain.None? ==> w.audio == clip)
            && (d.gain.Some? ==> w.audio == Signal.Scale(clip, d.gain.value))
  {
    var d := rnd.background(i);
    var clip := background[d.back % |background|];
    var audio := match d.gain case None => clip case Some(g) => Signal.Scale(clip, g);
    Written(SyntheticDir + "/" + BackgroundClass, BackgroundName(i), audio)
  }

  function BackgroundOutputs(background: seq<Samples>, rnd: Random): (out: seq<Written>)
    requires |background| > 0 && Fixed(background)
    ensures |out| == SamplesPerTarget
  {
    seq(SamplesPerTarget, i requires 0 <= i < SamplesPerTarget => BackgroundSample(background, rnd, i))
  }

  /** The target classes' outputs for the first k target classes. */
  function TargetOutputs(targets: seq<seq<Samples>>, background: seq<Samples>, rnd: Random, math: MixMath, k: nat): seq<Written>
    requires k <= |targets| == |TargetClasses()|
    requires |background| > 0 && Fixed(background)
    requires forall c :: 0 <= c < |targets| ==> Fixed(targets[c])
  {
    if k == 0 then []
    else TargetOutputs(targets, background, rnd, math, k - 1)
         + ClassOutputs(TargetClasses()[k - 1], targets[k - 1], background, rnd, math)
  }

  /** `main`: nothing at all without background clips; otherwise every
      target class with clips, then the pure background samples. */
  function Generate(targets: seq<seq<Samples>>, background: seq<Samples>, rnd: Random, math: MixMath): seq<Written>
    requires |targets| == |TargetClasses()|
    requires Fixed(background) && forall c :: 0 <= c < |targets| ==> Fixed(targets[c])
  {
    if |background| == 0 then []
    else TargetOutputs(targets, background, rnd, math, |targets|) + BackgroundOutputs(background, rnd)
  }

  /** The folder listings `main` reads, None for a missing folder. */
  type Listing = string -> Option<seq<string>>

  /** Every source folder `main` lists exists: the background one and one
      per target class. */
  predicate AllListed(listing: Listing)
  {
    && listing(SourceFolder(BackgroundClass)).Some?
    && forall c :: 0 <= c < |TargetClasses()| ==> listing(SourceFolder(TargetClasses()[c])).Some?
  }

  /** `{label: load_audio_files(label) for label in TARGET_CLASSES}`: None as
      soon as one folder is missing, since `os.listdir` raises. */
  function LoadTargets(listing: Listing, load: string -> Samples): (r: Option<seq<seq<Samples>>>)
    ensures r.Some? <==> forall c :: 0 <= c < |TargetClasses()| ==> listing(SourceFolder(TargetClasses()[c])).Some?
    ensures r.Some? ==> |r.value| == |TargetClasses()|
    ensures r.Some? ==> forall c :: 0 <= c < |r.value| ==> Fixed(r.value[c])
    ensures r.Some? ==> forall c :: 0 <= c < |r.value| ==>
              var folder := SourceFolder(TargetClasses()[c]);
              r.value[c] == LoadClips(listing(folder).value, folder, load)
  {
    var t := TargetClasses();
    if forall c :: 0 <= c < |t| ==> listing(SourceFolder(t[c])).Some? then
      Some(seq(|t|, c requires 0 <= c < |t| =>
                 LoadClips(listing(SourceFolder(t[c])).value, SourceFolder(t[c]), load)))
    else None
  }

  /** The whole of `main`: load the background clips, then every target
      class, then generate. A missing source folder raises before the first
      file is written. */
  function Main(listing: Listing, load: string -> Samples, rnd: Random, math: MixMath): (out: seq<Written>)
    ensures !AllListed(listing) ==> out == []
    ensures AllListed(listing) ==>
              var folder := SourceFolder(BackgroundClass);
              var background := LoadClips(listing(folder).value, folder, load);
              && LoadTargets(listing, load).Some?
              && out == Generate(LoadTargets(listing, load).value, background, rnd, math)
  {
    var folder := SourceFolder(BackgroundClass);
    match listing(folder)
    case None => []
    case Some(names) =>
      var background := LoadClips(names, folder, load);
      LoadClipsFixed(names, folder, load);
      match LoadTargets(listing, load)
      case None => []
      case Some(targets) => Generate(targets, background, rnd, math)
  }

  /** A run writes something only when every source folder exists and the
      background folder holds a `.wav` file, and then it writes 1000 files
      per target class with clips plus 1000 background files. */
  lemma MainWrites(listing: Listing, load: string -> Samples, rnd: Random, math: MixMath)
    ensures |Main(listing, load, rnd, math)| > 0 ==>
              AllListed(listing) && |Preprocess.WavFiles(listing(SourceFolder(BackgroundClass)).value)| > 0
    ensures AllListed(listing) && |Preprocess.WavFiles(listing(SourceFolder(BackgroundClass)).value)| > 0 ==>
              |Main(listing, load, rnd, math)| == SamplesPerTarget * (Producing(LoadTargets(listing, load).value, |TargetClasses()|) + 1)
  {
    if AllListed(listing) {
      var folder := SourceFolder(BackgroundClass);
      var names := listing(folder).value;
      LoadClipsFixed(names, folder, load);
      GenerateShape(LoadTargets(listing, load).value, LoadClips(names, folder, load), rnd, math);
    }
  }

  /** How many of the first k target classes have clips. */
  function Producing(targets: seq<seq<Samples>>, k: nat): nat
    requires k <= |targets|
  {
    if k == 0 then 0 else Producing(targets, k - 1) + (if |targets[k - 1]| == 0 then 0 else 1)
  }

  lemma {:induction false} TargetOutputsShape(targets: seq<seq<Samples>>, background: seq<Samples>,
                                              rnd: Random, math: MixMath, k: nat)
    requires k <= |targets| == |TargetClasses()|
    requires |background| > 0 && Fixed(background)
    requires forall c :: 0 <= c < |targets| ==> Fixed(targets[c])
    ensures |TargetOutputs(targets, background, rnd, math, k)| == SamplesPerTarget * Producing(targets, k)
    ensures forall i :: 0 <= i < |TargetOutputs(targets, background, rnd, math, k)| ==>
              |TargetOutputs(targets, background, rnd, math, k)[i].audio| == Preprocess.TargetLength
  {
    if k > 0 {
      TargetOutputsShape(targets, background, rnd, math, k - 1);
      var prev := TargetOutputs(targets, background, rnd, math, k - 1);
      var block := ClassOutputs(TargetClasses()[k - 1], targets[k - 1], background, rnd, math);
      assert TargetOutputs(targets, background, rnd, math, k) == prev + block;
      forall i | 0 <= i < |block|
        ensures |block[i].audio| == Preprocess.TargetLength
      {
        assert block[i] == TargetSample(TargetClasses()[k - 1], targets[k - 1], background, rnd, math, i);
      }
    }
  }

  /** The whole run: no background clips means no file at all; otherwise
      SamplesPerTarget files per target class that has clips plus
      SamplesPerTarget background files, every one two seconds long. */
  lemma GenerateShape(targets: seq<seq<Samples>>, background: seq<Samples>, rnd: Random, math: MixMath)
    requires |targets| == |TargetClasses()|
    requires Fixed(background) && forall c :: 0 <= c < |targets| ==> Fixed(targets[c])
    ensures |background| == 0 ==> Generate(targets, background, rnd, math) == []
    ensures |background| > 0 ==>
              |Generate(targets, background, rnd, math)| == SamplesPerTarget * (Producing(targets, |targets|) + 1)
    ensures forall i :: 0 <= i < |Generate(targets, background, rnd, math)| ==>
              |Generate(targets, background, rnd, math)[i].audio| == Preprocess.TargetLength
  {
    if |background| > 0 {
      TargetOutputsShape(targets, background, rnd, math, |targets|);
      var t := TargetOutputs(targets, background, rnd, math, |targets|);
      var b := BackgroundOutputs(background, rnd);
      assert Generate(targets, background, rnd, math) == t + b;
      forall i | 0 <= i < |b|
        ensures |b[i].audio| == Preprocess.TargetLength
      {
        assert b[i] == BackgroundSample(background, rnd, i);
      }
    }
  }
}
