/** Constants shared by the streaming detector and the training scripts. */
module Config {
  import opened Base

  /** The fixed, ordered class list: classifier output index i names Classes[i]. */
  const Classes: seq<string> := ["background", "chainsaw", "gunshot"]

  const SampleRate: nat := 16000
  /** Window length in seconds. */
  const Duration: real := 2.0
  /** Hop between consecutive windows in seconds. */
  const WindowStep: real := 0.5

  /** Samples in the rolling window, `int(SAMPLE_RATE * DURATION)`. */
  const BlockSize: nat := 32000
  /** Samples per captured block, `int(SAMPLE_RATE * WINDOW_STEP)`. */
  const StepSize: nat := 8000

  /** Mel bins and expected time frames of the classifier input (64, 63, 1). */
  const NMels: nat := 64
  const ExpectedWidth: nat := 63

  /** The literal sizes are the ones the source derives from the rate and the
      durations, and a window is exactly four blocks. */
  lemma SizesFromRate()
    ensures BlockSize == Trunc(SampleRate as real * Duration)
    ensures StepSize == Trunc(SampleRate as real * WindowStep)
    ensures BlockSize == 4 * StepSize
  {
  }
}
