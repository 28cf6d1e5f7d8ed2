/**
 * The two values the question and result screens derive from the state:
 * the progress indicator (src/App.tsx, question screen header) and the body
 * mass index memo with its one-decimal rendering.
 */
module Display {
  import opened QuizTypes
  import opened QuizFlow
  import opened Reachability

  /** `Math.round`: the nearest integer, halves rounded up. */
  function MathRound(x: real): (n: int)
    ensures x - 0.5 < n as real <= x + 0.5
  {
    (x + 0.5).Floor
  }

  /** Width of the progress bar, in percent: the position counted from one,
    * over ten, times a hundred. */
  function ProgressWidth(index: int): (w: real)
    ensures w == ((index + 1) * 10) as real
  {
    ((index + 1) as real / 10.0) * 100.0
  }

  /** The "n% done" label: the rounded bar width, which is always a whole
    * multiple of ten. */
  function ProgressPercent(index: int): (p: int)
    ensures p as real == ProgressWidth(index)
    ensures p == (index + 1) * 10
  {
    MathRound(ProgressWidth(index))
  }

  /** The label and the bar both grow strictly with the question index. */
  lemma ProgressStrictlyIncreasing(i: int, j: int)
    requires i < j
    ensures ProgressPercent(i) < ProgressPercent(j)
    ensures ProgressWidth(i) < ProgressWidth(j)
  {
  }

  /** On every reachable question screen the label lies between 10% and
    * 90%, so the bar is never full: the formula divides by ten although
    * there are nine questions. */
  lemma ReachableProgressBounds(es: seq<Event>)
    requires Run(Init, es).quiz.step == QuestionScreen
    ensures var i := Run(Init, es).quiz.currentQuestionIndex;
      10 <= ProgressPercent(i) <= 90 && ProgressWidth(i) < 100.0
  {
    ReachableIndexInRange(es);
  }

  /** `toFixed(1)` as a count of tenths: the nearest multiple of a tenth,
    * with halves rounded away from zero (the digits are those of the
    * magnitude, with the sign put in front). */
  function ToFixed1(x: real): (tenths: int)
    ensures x >= 0.0 ==> 10.0 * x - 0.5 < tenths as real <= 10.0 * x + 0.5
    ensures x < 0.0 ==> 10.0 * x - 0.5 <= tenths as real < 10.0 * x + 0.5
    ensures x >= 0.0 ==> tenths >= 0
    ensures x <= 0.0 ==> tenths <= 0
  {
    if x >= 0.0 then MathRound(10.0 * x) else -MathRound(-10.0 * x)
  }

  /** Weight in kilograms over the square of the height, given in
    * centimetres, in metres. */
  function BodyMassIndex(weight: real, height: real): (b: real)
    requires height != 0.0
    ensures b * (height / 100.0) * (height / 100.0) == weight
  {
    var heightInMeters := height / 100.0;
    weight / (heightInMeters * heightInMeters)
  }

  /** The `bmi` memo, before rendering: weight over the square of the height
    * in metres when both entries are truthy, and null otherwise. */
  function Bmi(a: UserAnswers): (r: Option<real>)
    ensures r.Some? ==> Truthy(a.weight) && Truthy(a.height)
    ensures Truthy(a.weight) && Truthy(a.height) && a.weight.value.Num? && a.height.value.Num? ==>
      var w, h := a.weight.value.x, a.height.value.x;
      r.Some? && r.value * (h / 100.0) * (h / 100.0) == w
  {
    if Truthy(a.weight) && Truthy(a.height) && a.weight.value.Num? && a.height.value.Num? then
      Some(BodyMassIndex(a.weight.value.x, a.height.value.x))
    else None
  }

  /** The figure the result screens show, in tenths. */
  function BmiShown(a: UserAnswers): (r: Option<int>)
    ensures r.Some? <==> Bmi(a).Some?
    ensures r.Some? && Bmi(a).value >= 0.0 ==>
      10.0 * Bmi(a).value - 0.5 < r.value as real <= 10.0 * Bmi(a).value + 0.5
    ensures r.Some? && Bmi(a).value < 0.0 ==>
      10.0 * Bmi(a).value - 0.5 <= r.value as real < 10.0 * Bmi(a).value + 0.5
  {
    match Bmi(a)
    case Some(b) => Some(ToFixed1(b))
    case None => None
  }

  /** In every reachable state the figure is shown exactly when weight and
    * height are both present and non-zero. */
  lemma ReachableBmiGuard(es: seq<Event>)
    ensures var a := Run(Init, es).quiz.answers;
      BmiShown(a).Some? <==>
        a.weight.Some? && a.height.Some? && a.weight.value != Num(0.0) && a.height.value != Num(0.0)
  {
    ReachableWellTyped(es);
  }

  /** The figure depends on the weight and height entries alone. */
  lemma BmiOnlyReadsWeightAndHeight(a: UserAnswers, b: UserAnswers)
    requires a.weight == b.weight && a.height == b.height
    ensures Bmi(a) == Bmi(b) && BmiShown(a) == BmiShown(b)
  {
  }

  /** A weight of 75 kg and a height of 170 cm show as 26.0: the quotient
    * is 25.95..., which rounds up. */
  lemma BmiExample()
    ensures BmiShown(NoAnswers.With(Weight, Num(75.0)).With(Height, Num(170.0))) == Some(260)
  {
    var a := NoAnswers.With(Weight, Num(75.0)).With(Height, Num(170.0));
    assert a.weight == Some(Num(75.0)) && a.height == Some(Num(170.0));
    assert BodyMassIndex(75.0, 170.0) == 7500.0 / 289.0;
  }
}
