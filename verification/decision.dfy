/** The alert decision of the laptop-microphone detector: every prediction is
    put in exactly one tier, and a danger prediction raises a ranger alert and
    a beep on that very cycle (there is no debounce). */
module Decision {
  import opened Base
  import opened Config
  import Features
  import Classify

  /** Confidence must be strictly above this to count as a detection. */
  const Threshold: real := 0.6

  /** The labels that escalate to a danger alert. */
  const Concerning: set<string> := {"gunshot", "chainsaw"}

  datatype Tier = Uncertain | Safe | Danger

  /** The tier of one prediction. */
  function TierOf(className: string, confidence: real): (t: Tier)
    ensures t == Uncertain <==> confidence <= Threshold
    ensures t == Danger <==> Threshold < confidence && className in Concerning
    ensures t == Safe <==> Threshold < confidence && className !in Concerning
  {
    if confidence > Threshold then
      if className in Concerning then Danger else Safe
    else Uncertain
  }

  /** What one cycle of the detector reports: the tier line, and for danger
      the ranger message and a beep. */
  datatype Report = Report(className: string, confidence: real, tier: Tier,
                           alert: Option<string>, beep: bool)

  /** The message sent to the ranger for a concerning label. */
  function AlertMessage(className: string): string
  {
    "Illegal Activity: " + className
  }

  /** One pass of the detector loop on one captured block: extract features,
      predict, read out the top class and decide. */
  function DetectCycle(block: seq<real>, melDb: Features.MelTransform,
                       predict: Classify.Classifier): (r: Report)
    ensures r.className == Classes[Classify.ArgMax(predict(Features.Extract(block, melDb)))]
    ensures r.confidence == predict(Features.Extract(block, melDb))[Classify.ArgMax(predict(Features.Extract(block, melDb)))]
    ensures r.tier == TierOf(r.className, r.confidence)
    ensures r.alert.Some? <==> r.tier == Danger
    ensures r.alert.Some? ==> r.alert.value == AlertMessage(r.className)
    ensures r.beep <==> r.tier == Danger
  {
    var top := Classify.Top(predict(Features.Extract(block, melDb)));
    var tier := TierOf(top.className, top.confidence);
    if tier == Danger then
      Report(top.className, top.confidence, tier, Some(AlertMessage(top.className)), true)
    else
      Report(top.className, top.confidence, tier, None, false)
  }

  /** The detector loop over the blocks it takes from the queue, in order. */
  function Detect(blocks: seq<seq<real>>, melDb: Features.MelTransform,
                  predict: Classify.Classifier): (rs: seq<Report>)
    ensures |rs| == |blocks|
    ensures forall i :: 0 <= i < |blocks| ==> rs[i] == DetectCycle(blocks[i], melDb, predict)
  {
    if |blocks| == 0 then []
    else [DetectCycle(blocks[0], melDb, predict)] + Detect(blocks[1..], melDb, predict)
  }

  function CountAlerts(rs: seq<Report>): nat
  {
    if |rs| == 0 then 0 else (if rs[0].alert.Some? then 1 else 0) + CountAlerts(rs[1..])
  }

  function CountDanger(rs: seq<Report>): nat
  {
    if |rs| == 0 then 0 else (if rs[0].tier == Danger then 1 else 0) + CountDanger(rs[1..])
  }

  /** No debounce: over any run, the number of alerts equals the number of
      danger cycles, so a sustained detection alerts on every cycle. */
  lemma {:induction false} EveryDangerCycleAlerts(blocks: seq<seq<real>>, melDb: Features.MelTransform,
                                                  predict: Classify.Classifier)
    ensures CountAlerts(Detect(blocks, melDb, predict)) == CountDanger(Detect(blocks, melDb, predict))
  {
    if |blocks| > 0 {
      var rs := Detect(blocks, melDb, predict);
      assert rs[1..] == Detect(blocks[1..], melDb, predict);
      EveryDangerCycleAlerts(blocks[1..], melDb, predict);
    }
  }

  /** Three concrete cases: a confident background prediction is safe, a
      confident chainsaw prediction is danger, and a confidence of exactly the
      threshold is uncertain. */
  lemma TierScenarios()
    ensures Classify.Top([0.9, 0.05, 0.05]).className == "background"
    ensures TierOf("background", 0.9) == Safe
    ensures Classify.Top([0.1, 0.85, 0.05]).className == "chainsaw"
    ensures TierOf("chainsaw", 0.85) == Danger
    ensures TierOf("gunshot", Threshold) == Uncertain
  {
    Classify.ArgMaxUnique([0.9, 0.05, 0.05], 0);
    Classify.ArgMaxUnique([0.1, 0.85, 0.05], 1);
  }
}
