/** The desktop monitor: a start/stop flag machine over the processor and the
    rule that turns one processing result into the displayed text and colour.
    Widgets are modelled by the state they hold; layout and timers are not. */
module Gui {
  import opened Base
  import Processor
  import Classify
  import Decision
  import Config
  import Signal

  datatype Colour = Gray | Red | Green

  /** The result line: initial text, a detection, or the scanning volume. */
  datatype Display = Waiting | Detected(className: string, confidence: real) | Scanning(rms: real)

  datatype Status = Ready | Monitoring | Stopped

  datatype Monitor = Monitor(running: bool, startEnabled: bool, stopEnabled: bool, status: Status,
                             display: Display, colour: Colour, proc: Processor.State)

  /** The window as first shown: idle, only Start enabled, gray waiting text. */
  function Init(): (g: Monitor)
    ensures !g.running && g.startEnabled && !g.stopEnabled
    ensures g.status == Ready && g.display == Waiting && g.colour == Gray
    ensures g.proc == Processor.Init()
  {
    Monitor(false, true, false, Ready, Waiting, Gray, Processor.Init())
  }

  /** The labels the monitor paints red. */
  const RedLabels: seq<string> := ["chainsaw", "gunshot"]

  /** The display rule of `update_loop` for one result: above 0.6 a detection,
      red for chainsaw or gunshot and green otherwise; else the scanning
      volume in gray. */
  function Render(o: Processor.Output): (d: (Display, Colour))
    ensures d.0 == Detected(o.className, o.confidence) <==> o.confidence > 0.6
    ensures d.0 == Scanning(o.rms) <==> o.confidence <= 0.6
    ensures d.1 == Red <==> o.confidence > 0.6 && (o.className == "chainsaw" || o.className == "gunshot")
    ensures d.1 == Green <==> o.confidence > 0.6 && o.className != "chainsaw" && o.className != "gunshot"
    ensures d.1 == Gray <==> o.confidence <= 0.6
  {
    if o.confidence > 0.6 then
      (Detected(o.className, o.confidence), if o.className in RedLabels then Red else Green)
    else (Scanning(o.rms), Gray)
  }

  /** The colour a tier of the command-line detector would be shown in. */
  function TierColour(t: Decision.Tier): Colour
  {
    match t
    case Danger => Red
    case Safe => Green
    case Uncertain => Gray
  }

  /** The monitor's colour rule and the detector's tier rule agree: red is
      danger, green is safe, gray is uncertain. */
  lemma RenderAgreesWithTier(o: Processor.Output)
    ensures Render(o).1 == TierColour(Decision.TierOf(o.className, o.confidence))
  {
  }

  /** `update_loop`: nothing while stopped; otherwise process one chunk at
      gain 1.0 and, if it produced a result, show it. A None result leaves the
      text and colour as they were. */
  function UpdateLoop(g: Monitor, model: Option<Classify.Classifier>, dsp: Processor.Dsp): (g': Monitor)
    requires Processor.Valid(g.proc)
    ensures Processor.Valid(g'.proc)
    ensures !g.running ==> g' == g
    ensures g'.running == g.running && g'.status == g.status
    ensures g'.startEnabled == g.startEnabled && g'.stopEnabled == g.stopEnabled
    ensures g.running ==>
              var r := Processor.ProcessNextChunk(g.proc, 1.0, model, dsp);
              && g'.proc == r.0
              && (r.1.None? ==> g'.display == g.display && g'.colour == g.colour)
              && (r.1.Some? ==> (g'.display, g'.colour) == Render(r.1.value))
  {
    if !g.running then g
    else
      var r := Processor.ProcessNextChunk(g.proc, 1.0, model, dsp);
      match r.1
      case None => g.(proc := r.0)
      case Some(o) =>
        var d := Render(o);
        g.(proc := r.0, display := d.0, colour := d.1)
  }

  /** `start_monitoring`: set running, swap the buttons, open the stream and
      run the first update. */
  function StartMonitoring(g: Monitor, model: Option<Classify.Classifier>, dsp: Processor.Dsp): (g': Monitor)
    requires Processor.Valid(g.proc)
    ensures Processor.Valid(g'.proc)
    ensures g'.running && !g'.startEnabled && g'.stopEnabled && g'.status == Monitoring
    ensures g'.proc.streamOpen
    ensures var r := Processor.ProcessNextChunk(Processor.StartStream(g.proc), 1.0, model, dsp);
            && g'.proc == r.0
            && (r.1.None? ==> g'.display == g.display && g'.colour == g.colour)
            && (r.1.Some? ==> (g'.display, g'.colour) == Render(r.1.value))
  {
    var started := g.(running := true, startEnabled := false, stopEnabled := true,
                      status := Monitoring, proc := Processor.StartStream(g.proc));
    UpdateLoop(started, model, dsp)
  }

  /** `stop_monitoring`: clear running, swap the buttons back, close the stream. */
  function StopMonitoring(g: Monitor): (g': Monitor)
    requires Processor.Valid(g.proc)
    ensures Processor.Valid(g'.proc)
    ensures !g'.running && g'.startEnabled && !g'.stopEnabled && g'.status == Stopped
    ensures !g'.proc.streamOpen
    ensures Processor.FlagsAgree(g.proc) ==> !g'.proc.running
    ensures g'.proc.queue == g.proc.queue && g'.proc.buffer == g.proc.buffer
    ensures g'.display == g.display && g'.colour == g.colour
  {
    g.(running := false, startEnabled := true, stopEnabled := false,
       status := Stopped, proc := Processor.StopStream(g.proc))
  }

  /** Stopping keeps the pending blocks: a Start after a Stop first processes
      the oldest block that was queued before the Stop, sliding it into the
      window that was there before the Stop. */
  lemma StopThenStartResumesQueue(g: Monitor, model: Option<Classify.Classifier>, dsp: Processor.Dsp)
    requires Consistent(g) && g.proc.queue != []
    ensures var g' := StartMonitoring(StopMonitoring(g), model, dsp);
            && g'.proc.queue == g.proc.queue[1..]
            && g'.proc.buffer == g.proc.buffer[Config.StepSize..] + Signal.Scale(g.proc.queue[0], 1.0)
  {
    var stopped := StopMonitoring(g);
    assert stopped.proc.queue == g.proc.queue && stopped.proc.buffer == g.proc.buffer;
  }

  /** The user's actions, the stream's capture callback delivering a block,
      and the timer tick. */
  datatype Event = Start | Stop | Captured(block: Processor.StepBlock) | Tick

  function Step(g: Monitor, e: Event, model: Option<Classify.Classifier>, dsp: Processor.Dsp): (g': Monitor)
    requires Processor.Valid(g.proc)
    ensures Processor.Valid(g'.proc)
  {
    match e
    case Start => StartMonitoring(g, model, dsp)
    case Stop => StopMonitoring(g)
    case Captured(b) => g.(proc := Processor.Capture(g.proc, b))
    case Tick => UpdateLoop(g, model, dsp)
  }

  function Run(g: Monitor, events: seq<Event>, model: Option<Classify.Classifier>, dsp: Processor.Dsp)
    : (g': Monitor)
    requires Processor.Valid(g.proc)
    ensures Processor.Valid(g'.proc)
    decreases |events|
  {
    if |events| == 0 then g else Run(Step(g, events[0], model, dsp), events[1..], model, dsp)
  }

  /** Exactly one button is enabled, Stop exactly while monitoring, and the
      monitor runs exactly while the processor's stream is open. */
  predicate Consistent(g: Monitor)
  {
    && Processor.Valid(g.proc)
    && g.stopEnabled == g.running
    && g.startEnabled == !g.running
    && g.proc.streamOpen == g.running
    && Processor.FlagsAgree(g.proc)
  }

  lemma StepKeepsConsistent(g: Monitor, e: Event, model: Option<Classify.Classifier>, dsp: Processor.Dsp)
    requires Consistent(g)
    ensures Consistent(Step(g, e, model, dsp))
  {
    Processor.StreamFlags(g.proc);
  }

  /** From the initial window, after any sequence of clicks and ticks, the two
      buttons are never both enabled and the stream is open exactly while
      monitoring. */
  lemma {:induction false} RunKeepsConsistent(g: Monitor, events: seq<Event>,
                                              model: Option<Classify.Classifier>, dsp: Processor.Dsp)
    requires Consistent(g)
    ensures Consistent(Run(g, events, model, dsp))
    ensures !(Run(g, events, model, dsp).startEnabled && Run(g, events, model, dsp).stopEnabled)
    decreases |events|
  {
    if |events| > 0 {
      StepKeepsConsistent(g, events[0], model, dsp);
      RunKeepsConsistent(Step(g, events[0], model, dsp), events[1..], model, dsp);
    }
  }

  lemma InitConsistent()
    ensures Consistent(Init())
  {
  }

  /** From the initial window, Start, one captured block and one tick with a
      model loaded consume that block and replace the waiting text by a
      result, whichever class it names. */
  lemma CaptureThenTickShowsResult(b: Processor.StepBlock, predict: Classify.Classifier, dsp: Processor.Dsp)
    ensures var g := Run(Init(), [Start, Captured(b), Tick], Some(predict), dsp);
            g.running && g.proc.queue == [] && g.display != Waiting
  {
    var g1 := Step(Init(), Start, Some(predict), dsp);
    var g2 := Step(g1, Captured(b), Some(predict), dsp);
    var g3 := Step(g2, Tick, Some(predict), dsp);
    assert g1.proc.queue == [] && g1.running;
    assert g2.proc.queue == [b] && g2.running;
    assert Run(Init(), [Start, Captured(b), Tick], Some(predict), dsp) == Run(g1, [Captured(b), Tick], Some(predict), dsp);
    assert Run(g1, [Captured(b), Tick], Some(predict), dsp) == Run(g2, [Tick], Some(predict), dsp);
    assert Run(g2, [Tick], Some(predict), dsp) == Run(g3, [], Some(predict), dsp);
  }
}
