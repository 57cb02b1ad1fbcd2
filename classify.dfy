/**
 * The label pick in `EmotionProcessor.recv` (music.py): `label[np.argmax(scores)]`.
 * The classifier and the label file are inputs; what is modelled is the first-maximum
 * index and the lookup, including the two ways the lookup raises.
 */
module Classify {

  /** `k` is the first index holding the largest score: numpy's tie-break. */
  predicate IsFirstMax(scores: seq<real>, k: nat)
  {
    k < |scores| &&
    (forall j :: 0 <= j < |scores| ==> scores[j] <= scores[k]) &&
    (forall j :: 0 <= j < k ==> scores[j] < scores[k])
  }

  /** The index `np.argmax` returns for a non-empty score vector. */
  function ArgMax(scores: seq<real>): (k: nat)
    requires |scores| > 0
    ensures IsFirstMax(scores, k)
    decreases |scores|
  {
    if |scores| == 1 then 0
    else
      var k := ArgMax(scores[..|scores| - 1]);
      if scores[|scores| - 1] > scores[k] then |scores| - 1 else k
  }

  /** The first maximum is unique, so ArgMax is the only index with that property. */
  lemma ArgMaxIsTheFirstMax(scores: seq<real>, k: nat)
    requires IsFirstMax(scores, k)
    ensures ArgMax(scores) == k
  {
  }

  /** What the lookup yields: a label, or the exception numpy raises instead. */
  datatype Prediction =
    | Predicted(emotion: string)
    | NoScores                    // argmax of an empty vector raises
    | IndexOutOfRange(index: nat) // the winning index lies past the label vocabulary

  /** `labels[argmax(scores)]`, with its error outcomes. */
  function PickLabel(scores: seq<real>, labels: seq<string>): (p: Prediction)
    ensures p.NoScores? <==> |scores| == 0
    ensures p.Predicted? ==> p.emotion in labels
    ensures p.IndexOutOfRange? ==> IsFirstMax(scores, p.index) && p.index >= |labels|
    ensures 0 < |scores| <= |labels| ==> p.Predicted?
  {
    if |scores| == 0 then NoScores
    else
      var k := ArgMax(scores);
      if k < |labels| then Predicted(labels[k]) else IndexOutOfRange(k)
  }

  /** The picked label is the one at the first maximal score. */
  lemma PickLabelAtFirstMax(scores: seq<real>, labels: seq<string>, k: nat)
    requires IsFirstMax(scores, k) && k < |labels|
    ensures PickLabel(scores, labels) == Predicted(labels[k])
  {
  }
}
