/**
 * The static question table and the position-to-field table that the
 * answer handler uses (src/App.tsx).
 */
module QuizData {
  import opened QuizTypes

  /** The nine questions, in display order. */
  const QUESTIONS: seq<Question> := [
    Question(1, Choice, ["3-5", "6-10", "10+"], true),
    Question(2, Choice, ["skinny-fat", "normal-belly", "overweight", "obese"], true),
    Question(3, Choice, ["belly", "hips", "arms", "legs", "full-body"], true),
    Question(4, Number, [], false),
    Question(5, Number, [], false),
    Question(6, Choice, ["busy", "moderate", "sedentary", "active"], false),
    Question(7, Choice, ["less-5", "6-7", "8+"], false),
    Question(8, Choice, ["less-1", "1-2", "more-2"], true),
    Question(9, Choice, ["anxiety", "hunger", "time", "discipline"], false)
  ]

  /** `QUESTIONS[i]`, which is `undefined` off the end of the array. The
    * ids run 1..9 in array order. */
  function QuestionAt(i: int): (q: Option<Question>)
    ensures q.Some? <==> 0 <= i < 9
    ensures q.Some? ==> q.value.id == i + 1
  {
    if 0 <= i < |QUESTIONS| then Some(QUESTIONS[i]) else None
  }

  /** Whether the question at position `i` carries feedback text: exactly
    * the first three and the eighth. */
  function HasFeedback(i: int): (b: bool)
    ensures b <==> i == 0 || i == 1 || i == 2 || i == 7
  {
    match QuestionAt(i)
    case Some(q) => q.hasFeedback
    case None => false
  }

  /** Whether the question at position `i` is a number input: exactly the
    * weight and height questions. */
  function IsNumeric(i: int): (b: bool)
    ensures b <==> i == 3 || i == 4
  {
    match QuestionAt(i)
    case Some(q) => q.kind == Number
    case None => false
  }

  /** The handler's `fieldMap`: the answer key written by the question at
    * position `i`, `undefined` for positions it does not list. */
  function FieldAt(i: int): (f: Option<Field>)
    ensures f.Some? <==> 0 <= i < |QUESTIONS|
  {
    if i == 0 then Some(Goal)
    else if i == 1 then Some(BodyType)
    else if i == 2 then Some(FocusArea)
    else if i == 3 then Some(Weight)
    else if i == 4 then Some(Height)
    else if i == 5 then Some(Routine)
    else if i == 6 then Some(Sleep)
    else if i == 7 then Some(Water)
    else if i == 8 then Some(Obstacle)
    else None
  }

  /** The position of the question that writes key `f`. */
  function IndexOf(f: Field): (i: nat)
    ensures i < |QUESTIONS|
  {
    match f
    case Goal => 0
    case BodyType => 1
    case FocusArea => 2
    case Weight => 3
    case Height => 4
    case Routine => 5
    case Sleep => 6
    case Water => 7
    case Obstacle => 8
  }

  /** `fieldMap` is a bijection between the nine positions and the nine
    * answer keys: each key is written by exactly one question. */
  lemma FieldMapBijection()
    ensures forall f :: FieldAt(IndexOf(f)) == Some(f)
    ensures forall i :: 0 <= i < |QUESTIONS| ==> IndexOf(FieldAt(i).value) == i
  {
    forall i | 0 <= i < |QUESTIONS|
      ensures IndexOf(FieldAt(i).value) == i
    {
      assert i == 0 || i == 1 || i == 2 || i == 3 || i == 4 || i == 5 || i == 6 || i == 7 || i == 8;
    }
  }

  /** What the question screen lets the user submit: the value of one of
    * the rendered option buttons for a choice question, a number for a
    * number question. */
  predicate Accepts(q: Question, v: Value)
  {
    match q.kind
    case Choice => v.Text? && v.s in q.optionValues
    case Number => v.Num?
  }

  /** The keys written by number questions are exactly weight and height. */
  lemma NumericKeys(f: Field)
    ensures IsNumeric(IndexOf(f)) <==> f == Weight || f == Height
  {
  }
}
