/** The feature extractor of the detector: an external mel-spectrogram in
    decibels, with its time axis forced to the classifier's fixed width. */
module Features {
  import opened Config
  import Signal

  /** Rows are mel bins, columns are time frames. */
  type Matrix = seq<seq<real>>

  /** What the external `melspectrogram` + `power_to_db` pipeline returns for
      `n_mels=64`: one row per mel bin, of whatever frame count it produced. */
  type MelSpec = m: Matrix | |m| == NMels witness seq(64, _ => [])

  /** The external transform from a raw window to its decibel spectrogram. */
  type MelTransform = seq<real> -> MelSpec

  /** The classifier's input shape: NMels rows of ExpectedWidth frames. */
  predicate IsTensor(t: Matrix)
  {
    |t| == NMels && forall r :: 0 <= r < |t| ==> |t[r]| == ExpectedWidth
  }

  /** Pad every row on the right with 0 up to ExpectedWidth frames, or drop the
      frames beyond it. */
  function NormalizeWidth(m: Matrix): (t: Matrix)
    ensures |t| == |m|
    ensures forall r :: 0 <= r < |m| ==> |t[r]| == ExpectedWidth
    ensures forall r, c :: 0 <= r < |m| && 0 <= c < ExpectedWidth ==>
              t[r][c] == (if c < |m[r]| then m[r][c] else 0.0)
  {
    seq(|m|, r requires 0 <= r < |m| => Signal.FixLength(m[r], ExpectedWidth))
  }

  /** `preprocess_audio`: the window's spectrogram normalised to the fixed
      classifier shape. */
  function Extract(window: seq<real>, melDb: MelTransform): (t: Matrix)
    ensures IsTensor(t)
    ensures forall r, c :: 0 <= r < NMels && 0 <= c < ExpectedWidth ==>
              t[r][c] == (if c < |melDb(window)[r]| then melDb(window)[r][c] else 0.0)
  {
    NormalizeWidth(melDb(window))
  }

  /** Frames both shapes share are kept, and a spectrogram that already has the
      expected width passes through unchanged. */
  lemma NormalizeWidthKeepsExact(m: Matrix)
    requires forall r :: 0 <= r < |m| ==> |m[r]| == ExpectedWidth
    ensures NormalizeWidth(m) == m
  {
    var t := NormalizeWidth(m);
    forall r | 0 <= r < |m| ensures t[r] == m[r] {
      assert forall c :: 0 <= c < ExpectedWidth ==> t[r][c] == m[r][c];
    }
  }

  /** Normalising twice is normalising once. */
  lemma NormalizeWidthIdempotent(m: Matrix)
    ensures NormalizeWidth(NormalizeWidth(m)) == NormalizeWidth(m)
  {
    NormalizeWidthKeepsExact(NormalizeWidth(m));
  }
}
