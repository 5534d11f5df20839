/**
 * The decision policy of one inference step of the touch alarm: the
 * classifier's result for the current frame is turned into "touched" or
 * "not touched".
 */
module Decision {

  /** The two labels the user trains, one per button. */
  const NotTouchLabel: string := "not_touch"
  const TouchLabel: string := "touch"

  /** A step counts as touched only above this confidence (strictly). */
  const TouchConfidence: real := 0.8

  /**
   * What the nearest-neighbour classifier reports for one frame: the
   * predicted label and a confidence for each label it has examples of.
   * The classifier itself is not modelled; its result is an input.
   */
  datatype Prediction = Prediction(predicted: string, confidences: map<string, real>)

  /**
   * A step is touched exactly when the predicted label is the touch label and
   * the confidence recorded for that label is strictly above the threshold.
   * A label with no recorded confidence compares as `undefined > 0.8`, which
   * is false.
   */
  predicate IsTouched(p: Prediction)
  {
    p.predicted == TouchLabel && p.predicted in p.confidences && p.confidences[p.predicted] > TouchConfidence
  }

  /**
   * The decision depends on nothing but the predicted label and the
   * confidence of that label: confidences of other labels do not matter.
   */
  lemma DecisionIgnoresOtherLabels(p: Prediction, q: Prediction)
    requires p.predicted == q.predicted
    requires p.predicted in p.confidences <==> q.predicted in q.confidences
    requires p.predicted in p.confidences ==> p.confidences[p.predicted] == q.confidences[q.predicted]
    ensures IsTouched(p) <==> IsTouched(q)
  {
  }

  /**
   * Raising the confidence of a touched prediction keeps it touched; lowering
   * the confidence of an untouched one keeps it untouched.
   */
  lemma DecisionMonotone(p: Prediction, c: real)
    requires p.predicted in p.confidences && p.confidences[p.predicted] <= c
    ensures IsTouched(p) ==> IsTouched(p.(confidences := p.confidences[p.predicted := c]))
  {
  }

  /**
   * The boundary cases of the threshold test: a confidence of exactly the
   * threshold never passes, whatever else the map holds; another label or a
   * missing confidence is never touched; just above the threshold passes.
   */
  lemma ThresholdBoundary()
    ensures forall p: Prediction :: p.predicted in p.confidences && p.confidences[p.predicted] == TouchConfidence ==> !IsTouched(p)
    ensures forall p: Prediction :: p.predicted != TouchLabel ==> !IsTouched(p)
    ensures forall p: Prediction :: TouchLabel !in p.confidences ==> !IsTouched(p)
    ensures IsTouched(Prediction(TouchLabel, map[TouchLabel := 0.81]))
    ensures IsTouched(Prediction(TouchLabel, map[TouchLabel := 1.0, NotTouchLabel := 0.0]))
  {
  }
}
