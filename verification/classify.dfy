/** The classifier boundary and the argmax read-out of its output. */
module Classify {
  import opened Config
  import Features

  /** A probability vector: one entry per class of Classes, in that order. */
  type Probs = p: seq<real> | |p| == |Classes| witness [0.0, 0.0, 0.0]

  /** The external classifier (`model.predict` on one input tensor). */
  type Classifier = Features.Matrix -> Probs

  /** `np.argmax`: the index of the first maximal entry. */
  function ArgMax(p: seq<real>): (k: nat)
    requires |p| > 0
    ensures k < |p|
    ensures forall j :: 0 <= j < |p| ==> p[j] <= p[k]
    ensures forall j :: 0 <= j < k ==> p[j] < p[k]
  {
    if |p| == 1 then 0
    else
      var k := ArgMax(p[..|p| - 1]);
      assert forall j :: 0 <= j < |p| - 1 ==> p[..|p| - 1][j] == p[j];
      if p[|p| - 1] > p[k] then |p| - 1 else k
  }

  /** Any index that is maximal and strictly above everything before it is the
      argmax, so the argmax is characterised by its contract. */
  lemma ArgMaxUnique(p: seq<real>, k: nat)
    requires k < |p|
    requires forall j :: 0 <= j < |p| ==> p[j] <= p[k]
    requires forall j :: 0 <= j < k ==> p[j] < p[k]
    ensures ArgMax(p) == k
  {
    var m := ArgMax(p);
  }

  /** The label and confidence read from one prediction. */
  datatype TopClass = TopClass(className: string, confidence: real)

  /** `class_idx = argmax(prediction)`, `confidence = prediction[class_idx]`,
      `label = CLASSES[class_idx]`. */
  function Top(p: Probs): (t: TopClass)
    ensures t.className in Classes
    ensures forall j :: 0 <= j < |p| ==> p[j] <= t.confidence
    ensures exists k :: 0 <= k < |p| && t.confidence == p[k] && t.className == Classes[k]
    ensures t.className == Classes[ArgMax(p)] && t.confidence == p[ArgMax(p)]
  {
    var k := ArgMax(p);
    TopClass(Classes[k], p[k])
  }
}
