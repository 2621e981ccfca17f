/** What the prediction page shows for one prediction: the AQI value as a
    whole number (`int(pred[0])`, truncation toward zero) and the category of
    the untruncated prediction. The model that produces the prediction is not
    part of this model; its output is an arbitrary real. */
module Display {
  import opened Classifier

  /** Python's `int` on a float: drop the fractional part, toward zero. */
  function TruncateTowardZero(x: real): (n: int)
    ensures x >= 0.0 ==> 0.0 <= n as real <= x < n as real + 1.0
    ensures x < 0.0 ==> n as real - 1.0 < x <= n as real <= 0.0
  {
    if x >= 0.0 then x.Floor else -((-x).Floor)
  }

  /** The truncated value is the only integer between 0 and the prediction
      (inclusive) that is less than one away from it. */
  lemma TruncationUnique(x: real, m: int)
    requires (0.0 <= m as real <= x || x <= m as real <= 0.0)
    requires x - 1.0 < m as real < x + 1.0
    ensures m == TruncateTowardZero(x)
  {
  }

  /** For a non-negative prediction the displayed value is its floor ... */
  lemma DisplayIsFloor(x: real)
    requires x >= 0.0
    ensures TruncateTowardZero(x) == x.Floor
  {
  }

  /** ... and for a negative one it is not: -0.5 displays 0, its floor is -1. */
  lemma NegativeIsNotFloor()
    ensures TruncateTowardZero(-0.5) == 0 && (-0.5).Floor == -1
  {
  }

  /** The two values the page shows for one prediction. */
  datatype Shown = Shown(aqi: int, category: Category)

  /** The pair of values the page writes for one prediction: the whole-number
      AQI and the category of the untruncated prediction. */
  function Present(pred: real): (r: Shown)
    ensures r.aqi == TruncateTowardZero(pred)
    ensures forall c :: InBand(c, pred) <==> (r.category != NoCategory && c == r.category)
  {
    Shown(TruncateTowardZero(pred), Classify(pred))
  }

  /** Worked cases: 42.9 shows 42 and Good, 75.0 shows 75 and Moderate. */
  lemma PresentExamples()
    ensures Present(42.9) == Shown(42, Good)
    ensures Present(75.0) == Shown(75, Moderate)
  {
  }

  /** Classification uses the raw score, not the displayed one: 50.5 displays
      50 yet gets no category, while 50.0 is Good. */
  lemma RawScoreClassified()
    ensures Present(50.5) == Shown(50, NoCategory)
    ensures Present(50.0) == Shown(50, Good)
    ensures Classify(TruncateTowardZero(50.5) as real) == Good
  {
  }

  /** For a non-negative prediction: where the raw score has a label, the
      displayed whole number has the same one; where it has none (a gap), the
      displayed number still would. So, for a non-negative prediction,
      classifying the raw score differs from classifying the displayed value
      exactly on the gaps. (For -1 < pred < 0 the displayed 0 would be Good
      while the raw score gets no category.) */
  lemma RawAgreesWithDisplayedOutsideGaps(pred: real)
    requires pred >= 0.0
    ensures Classify(TruncateTowardZero(pred) as real) != NoCategory
    ensures Classify(pred) != NoCategory ==>
              Classify(pred) == Classify(TruncateTowardZero(pred) as real)
    ensures Classify(pred) == NoCategory <==> InGap(pred)
  {
  }
}
