/** The streaming core (`AudioProcessor`): a FIFO of captured blocks, a
    rolling window of the most recent BlockSize samples, and one processing
    step that consumes the oldest block, slides the window and, when a
    classifier is loaded, reports the window's top class. */
module Processor {
  import opened Base
  import opened Config
  import Signal
  import Features
  import Classify

  /** One capture callback's worth of mono samples. */
  type Block = seq<real>

  /** The processor: pending blocks (oldest first), the rolling window, and
      the stream flags. */
  datatype State = State(queue: seq<Block>, buffer: seq<real>, running: bool, streamOpen: bool)

  /** The window has its fixed length and every pending block is one step,
      as the input stream is opened with `blocksize=STEP_SIZE`. */
  predicate Valid(s: State)
  {
    && |s.buffer| == BlockSize
    && forall i :: 0 <= i < |s.queue| ==> |s.queue[i]| == StepSize
  }

  /** The external numerics one step uses: the decibel spectrogram and the
      square root that turns the mean square into the RMS. */
  datatype Dsp = Dsp(melDb: Features.MelTransform, sqrt: real -> real)

  /** `(prediction, confidence, label, rms)` of one processed window. */
  datatype Output = Output(probs: Classify.Probs, confidence: real, className: string, rms: real)

  /** The processor as constructed: empty queue, silent window, no stream. */
  function Init(): (s: State)
    ensures Valid(s)
    ensures s.queue == [] && Signal.Silent(s.buffer)
    ensures !s.running && !s.streamOpen
  {
    State([], Signal.Zeros(BlockSize), false, false)
  }

  /** A block as the input stream delivers it: `blocksize=STEP_SIZE` frames. */
  type StepBlock = b: Block | |b| == StepSize witness seq(8000, _ => 0.0)

  /** The capture callback: append a copy of the delivered block. */
  function Capture(s: State, block: Block): (s': State)
    requires Valid(s) && |block| == StepSize
    ensures Valid(s')
    ensures s'.queue == s.queue + [block]
    ensures s'.buffer == s.buffer && s'.running == s.running && s'.streamOpen == s.streamOpen
  {
    s.(queue := s.queue + [block])
  }

  /** Open the input stream unless one is already open. */
  function StartStream(s: State): (s': State)
    ensures !s.streamOpen ==> s'.streamOpen && s'.running
    ensures s.streamOpen ==> s' == s
    ensures s'.queue == s.queue && s'.buffer == s.buffer
  {
    if !s.streamOpen then s.(streamOpen := true, running := true) else s
  }

  /** Close the input stream if one is open. */
  function StopStream(s: State): (s': State)
    ensures s.streamOpen ==> !s'.streamOpen && !s'.running
    ensures !s.streamOpen ==> s' == s
    ensures s'.queue == s.queue && s'.buffer == s.buffer
  {
    if s.streamOpen then s.(streamOpen := false, running := false) else s
  }

  /** `running` is set and cleared only together with the stream. */
  predicate FlagsAgree(s: State)
  {
    s.running == s.streamOpen
  }

  /** Starting and stopping keep the flags in step, starting twice is
      starting once, and stopping after starting leaves no stream running. */
  lemma StreamFlags(s: State)
    requires FlagsAgree(s)
    ensures FlagsAgree(StartStream(s)) && FlagsAgree(StopStream(s))
    ensures StartStream(StartStream(s)) == StartStream(s)
    ensures StopStream(StopStream(s)) == StopStream(s)
    ensures !StopStream(StartStream(s)).running && !StopStream(StartStream(s)).streamOpen
  {
  }

  /** `np.roll(buf, -k)`: rotate left by k positions. */
  function Roll(buf: seq<real>, k: nat): (r: seq<real>)
    requires k <= |buf|
    ensures |r| == |buf|
  {
    buf[k..] + buf[..k]
  }

  /** `buf[-len(data):] = data`: overwrite the tail. */
  function WriteTail(buf: seq<real>, data: seq<real>): (r: seq<real>)
    requires |data| <= |buf|
    ensures |r| == |buf|
  {
    buf[..|buf| - |data|] + data
  }

  /** The window update: roll left by one step, then overwrite the vacated
      tail with the new block. The result keeps the window length, keeps the
      old samples from StepSize onward as its head, and ends with the block. */
  function UpdateBuffer(buf: seq<real>, data: seq<real>): (r: seq<real>)
    requires |buf| == BlockSize && |data| == StepSize
    ensures |r| == BlockSize
    ensures r[..BlockSize - StepSize] == buf[StepSize..]
    ensures r[BlockSize - StepSize..] == data
    ensures r == buf[StepSize..] + data
  {
    var rolled := Roll(buf, StepSize);
    assert rolled[..BlockSize - StepSize] == buf[StepSize..];
    WriteTail(rolled, data)
  }

  /** `process_next_chunk(gain)`. On an empty queue nothing changes and the
      result is None. Otherwise exactly the oldest block is removed, scaled by
      the gain and slid into the window; the window is updated whether or not
      a classifier is loaded, and a result is produced only when one is. */
  function ProcessNextChunk(s: State, gain: real, model: Option<Classify.Classifier>, dsp: Dsp)
    : (r: (State, Option<Output>))
    requires Valid(s)
    ensures Valid(r.0)
    ensures s.queue == [] ==> r.0 == s && r.1 == None
    ensures s.queue != [] ==>
              r.0 == s.(queue := s.queue[1..],
                        buffer := s.buffer[StepSize..] + Signal.Scale(s.queue[0], gain))
    ensures r.1.Some? <==> s.queue != [] && model.Some?
    ensures r.1.Some? ==>
              var o := r.1.value;
              && o.probs == model.value(Features.Extract(r.0.buffer, dsp.melDb))
              && o.className == Classes[Classify.ArgMax(o.probs)]
              && o.confidence == o.probs[Classify.ArgMax(o.probs)]
              && (forall j :: 0 <= j < |o.probs| ==> o.probs[j] <= o.confidence)
              && o.rms == dsp.sqrt(Signal.MeanSquare(r.0.buffer))
  {
    if |s.queue| == 0 then (s, None)
    else
      var newData := Signal.Scale(s.queue[0], gain);
      var s' := s.(queue := s.queue[1..], buffer := UpdateBuffer(s.buffer, newData));
      assert forall i :: 0 <= i < |s'.queue| ==> s'.queue[i] == s.queue[i + 1];
      match model
      case None => (s', None)
      case Some(predict) =>
        var probs := predict(Features.Extract(s'.buffer, dsp.melDb));
        var top := Classify.Top(probs);
        var rms := dsp.sqrt(Signal.MeanSquare(s'.buffer));
        (s', Some(Output(probs, top.confidence, top.className, rms)))
  }

  /** The state after n calls of `process_next_chunk` with one gain. */
  function Steps(s: State, n: nat, gain: real, model: Option<Classify.Classifier>, dsp: Dsp)
    : (t: State)
    requires Valid(s)
    ensures Valid(t)
  {
    if n == 0 then s else ProcessNextChunk(Steps(s, n - 1, gain, model, dsp), gain, model, dsp).0
  }

  /** The window after sliding in each block, scaled by the gain, in order. */
  function Feed(buf: seq<real>, blocks: seq<Block>, gain: real): (r: seq<real>)
    requires |buf| == BlockSize
    requires forall i :: 0 <= i < |blocks| ==> |blocks[i]| == StepSize
    ensures |r| == BlockSize
  {
    if |blocks| == 0 then buf
    else
      var last := |blocks| - 1;
      UpdateBuffer(Feed(buf, blocks[..last], gain), Signal.Scale(blocks[last], gain))
  }

  /** Every scaled block, in arrival order, as one signal. */
  function History(blocks: seq<Block>, gain: real): (h: seq<real>)
    requires forall i :: 0 <= i < |blocks| ==> |blocks[i]| == StepSize
    ensures |h| == StepSize * |blocks|
  {
    if |blocks| == 0 then []
    else
      var last := |blocks| - 1;
      History(blocks[..last], gain) + Signal.Scale(blocks[last], gain)
  }

  /** The newest BlockSize samples of a signal. */
  function Newest(h: seq<real>): (w: seq<real>)
    requires |h| >= BlockSize
    ensures |w| == BlockSize
  {
    h[|h| - BlockSize..]
  }

  /** FIFO: n steps consume exactly the n oldest blocks, in arrival order,
      into the window, and leave the rest of the queue and the flags alone. */
  lemma {:induction false} StepsConsumeOldestFirst(s: State, n: nat, gain: real,
                                                   model: Option<Classify.Classifier>, dsp: Dsp)
    requires Valid(s) && n <= |s.queue|
    ensures Steps(s, n, gain, model, dsp).queue == s.queue[n..]
    ensures Steps(s, n, gain, model, dsp).buffer == Feed(s.buffer, s.queue[..n], gain)
    ensures Steps(s, n, gain, model, dsp).running == s.running
    ensures Steps(s, n, gain, model, dsp).streamOpen == s.streamOpen
  {
    if n == 0 {
      assert s.queue[..0] == [];
    } else {
      var prev := Steps(s, n - 1, gain, model, dsp);
      StepsConsumeOldestFirst(s, n - 1, gain, model, dsp);
      assert prev.queue[0] == s.queue[n - 1];
      assert prev.queue[1..] == s.queue[n..];
      assert s.queue[..n][..n - 1] == s.queue[..n - 1];
      assert s.queue[..n][n - 1] == s.queue[n - 1];
    }
  }

  lemma {:induction false} HistoryAppend(a: seq<Block>, b: seq<Block>, gain: real)
    requires forall i :: 0 <= i < |a| ==> |a[i]| == StepSize
    requires forall i :: 0 <= i < |b| ==> |b[i]| == StepSize
    ensures History(a + b, gain) == History(a, gain) + History(b, gain)
  {
    if |b| == 0 {
      assert a + b == a;
    } else {
      var last := |b| - 1;
      assert (a + b)[..|a + b| - 1] == a + b[..last];
      assert (a + b)[|a + b| - 1] == b[last];
      HistoryAppend(a, b[..last], gain);
    }
  }

  /** The window is always the newest BlockSize samples of the initial window
      followed by every block slid in since. */
  lemma {:induction false} FeedKeepsNewest(buf: seq<real>, blocks: seq<Block>, gain: real)
    requires |buf| == BlockSize
    requires forall i :: 0 <= i < |blocks| ==> |blocks[i]| == StepSize
    ensures Feed(buf, blocks, gain) == Newest(buf + History(blocks, gain))
  {
    if |blocks| == 0 {
      assert buf + [] == buf;
    } else {
      var last := |blocks| - 1;
      var h := buf + History(blocks[..last], gain);
      var x := Signal.Scale(blocks[last], gain);
      FeedKeepsNewest(buf, blocks[..last], gain);
      assert buf + History(blocks, gain) == h + x;
      NewestSlide(h, x);
    }
  }

  /** Sliding one step's samples into the newest window of a signal gives the
      newest window of the extended signal. */
  lemma NewestSlide(h: seq<real>, x: seq<real>)
    requires |h| >= BlockSize && |x| == StepSize
    ensures Newest(h)[StepSize..] + x == Newest(h + x)
  {
    assert Newest(h)[StepSize..] == h[|h| - BlockSize + StepSize..];
    assert (h + x)[|h| + StepSize - BlockSize..] == h[|h| - BlockSize + StepSize..] + x;
  }

  /** Because a window is exactly four blocks, after four or more blocks the
      window is the concatenation of the last four scaled blocks in arrival
      order, whatever it held before. */
  lemma FourBlocksFillWindow(buf: seq<real>, blocks: seq<Block>, gain: real)
    requires |buf| == BlockSize && |blocks| >= 4
    requires forall i :: 0 <= i < |blocks| ==> |blocks[i]| == StepSize
    ensures Feed(buf, blocks, gain) == History(blocks[|blocks| - 4..], gain)
  {
    var k := |blocks| - 4;
    FeedKeepsNewest(buf, blocks, gain);
    assert blocks == blocks[..k] + blocks[k..];
    HistoryAppend(blocks[..k], blocks[k..], gain);
    var early := buf + History(blocks[..k], gain);
    assert buf + History(blocks, gain) == early + History(blocks[k..], gain);
  }

  /** The four-push scenario: blocks A, B, C, D leave the window A‖B‖C‖D
      (scaled), chronological and not reversed. */
  lemma FourPushes(buf: seq<real>, a: Block, b: Block, c: Block, d: Block, gain: real)
    requires |buf| == BlockSize
    requires |a| == StepSize && |b| == StepSize && |c| == StepSize && |d| == StepSize
    ensures Feed(buf, [a, b, c, d], gain)
            == Signal.Scale(a, gain) + Signal.Scale(b, gain) + Signal.Scale(c, gain) + Signal.Scale(d, gain)
  {
    var bs := [a, b, c, d];
    FourBlocksFillWindow(buf, bs, gain);
    assert bs[0..] == bs;
    assert bs[..3] == [a, b, c];
    assert [a, b, c][..2] == [a, b];
    assert [a, b][..1] == [a];
    assert [a][..0] == [];
    assert History([a], gain) == Signal.Scale(a, gain);
    assert History([a, b], gain) == Signal.Scale(a, gain) + Signal.Scale(b, gain);
    assert History([a, b, c], gain) == History([a, b], gain) + Signal.Scale(c, gain);
    assert History(bs, gain) == History([a, b, c], gain) + Signal.Scale(d, gain);
  }
}
