/**
 * A complete session through the funnel, from the opening screen to the
 * final protocol page, with a weight of 75 kg and a height of 170 cm.
 */
module Session {
  import opened QuizTypes
  import opened QuizFlow
  import opened Display

  /** A quiz-state snapshot with no feedback shown and no timer pending. */
  function Idle(step: QuizStep, index: int, a: UserAnswers): (s: AppState)
    ensures s.quiz == QuizState(step, index, a) && !s.showFeedback && s.timer.None?
  {
    AppState(QuizState(step, index, a), false, None)
  }

  /** A question screen whose feedback is on display, with the timer holding
    * the record `next`. */
  function Dwell(index: int, a: UserAnswers, next: UserAnswers): (s: AppState)
    ensures s.quiz == QuizState(QuestionScreen, index, a) && s.showFeedback
    ensures s.timer == Some(PendingTimer(next, index))
  {
    AppState(QuizState(QuestionScreen, index, a), true, Some(PendingTimer(next, index)))
  }

  /** The answer records after each of the nine answers is stored. */
  const A1: UserAnswers := NoAnswers.(goal := Some(Text("6-10")))
  const A2: UserAnswers := A1.(bodyType := Some(Text("overweight")))
  const A3: UserAnswers := A2.(focusArea := Some(Text("belly")))
  const A4: UserAnswers := A3.(weight := Some(Num(75.0)))
  const A5: UserAnswers := A4.(height := Some(Num(170.0)))
  const A6: UserAnswers := A5.(routine := Some(Text("busy")))
  const A7: UserAnswers := A6.(sleep := Some(Text("6-7")))
  const A8: UserAnswers := A7.(water := Some(Text("1-2")))
  const A9: UserAnswers := A8.(obstacle := Some(Text("anxiety")))

  /** The session in four stretches. */
  const Stretch1: seq<Event> := [Start, Answer(Text("6-10")), TimerFires, Answer(Text("overweight"))]
  const Stretch2: seq<Event> := [TimerFires, Answer(Text("belly")), TimerFires, Answer(Num(75.0)), Answer(Num(170.0))]
  const Stretch3: seq<Event> := [Resume, Answer(Text("busy")), Answer(Text("6-7")), Answer(Text("1-2"))]
  const Stretch4: seq<Event> := [TimerFires, Answer(Text("anxiety")), SeeProtocol]

  /** Everything up to and including the height answer. */
  const ToPartial: seq<Event> := Stretch1 + Stretch2

  /** The rest of the session, from the partial result to the final page. */
  const ToFinal: seq<Event> := Stretch3 + Stretch4

  /** Running two event sequences one after the other is running their
    * concatenation. */
  lemma {:induction false} RunConcat(s: AppState, a: seq<Event>, b: seq<Event>)
    ensures Run(s, a + b) == Run(Run(s, a), b)
    decreases |a|
  {
    if a != [] {
      assert (a + b)[0] == a[0];
      assert (a + b)[1..] == a[1..] + b;
      RunConcat(Step(s, a[0]), a[1..], b);
    } else {
      assert a + b == b;
    }
  }

  /** Start and the first two answers: the feedback of the second is on
    * display. */
  lemma Stretch1Run()
    ensures Run(Init, Stretch1) == Dwell(1, A1, A2)
  {
  }

  /** The third answer, weight and height: the partial result. */
  lemma Stretch2Run()
    ensures Run(Dwell(1, A1, A2), Stretch2) == Idle(PartialResult, 4, A5)
  {
  }

  /** Resume and three more answers: the feedback of the water question is
    * on display. */
  lemma Stretch3Run()
    ensures Run(Idle(PartialResult, 4, A5), Stretch3) == Dwell(7, A7, A8)
  {
  }

  /** The last answer and the social proof button: the final page. */
  lemma Stretch4Run()
    ensures Run(Dwell(7, A7, A8), Stretch4) == Idle(FinalResult, 8, A9)
  {
  }

  /** The first part stops at the partial result after the height question,
    * with exactly the first five answers stored. */
  lemma SampleToPartial()
    ensures Run(Init, ToPartial) == Idle(PartialResult, 4, A5)
    ensures forall f :: A5.Get(f).Some? <==> f in {Goal, BodyType, FocusArea, Weight, Height}
  {
    Stretch1Run();
    Stretch2Run();
    RunConcat(Init, Stretch1, Stretch2);
    FirstFiveKeys();
  }

  /** The record stored at the partial result holds exactly the keys of the
    * first five questions. */
  lemma FirstFiveKeys()
    ensures forall f :: A5.Get(f).Some? <==> f in {Goal, BodyType, FocusArea, Weight, Height}
  {
  }

  /** The partial result screen of the session shows 26.0. */
  lemma SamplePartialBmi()
    ensures BmiShown(Run(Init, ToPartial).quiz.answers) == Some(260)
  {
    SampleToPartial();
    BmiOnlyReadsWeightAndHeight(A5, NoAnswers.With(Weight, Num(75.0)).With(Height, Num(170.0)));
    BmiExample();
  }

  /** The whole session ends on the final page with every answer stored. */
  lemma SampleSession()
    ensures Run(Init, ToPartial + ToFinal) == Idle(FinalResult, 8, A9)
    ensures forall f :: A9.Get(f).Some?
  {
    SampleToPartial();
    SampleToFinal();
    RunConcat(Init, ToPartial, ToFinal);
    AllNineKeys();
  }

  /** From the partial result, the second part ends on the final page. */
  lemma SampleToFinal()
    ensures Run(Idle(PartialResult, 4, A5), ToFinal) == Idle(FinalResult, 8, A9)
  {
    Stretch3Run();
    Stretch4Run();
    RunConcat(Idle(PartialResult, 4, A5), Stretch3, Stretch4);
  }

  /** The record stored at the end holds every key. */
  lemma AllNineKeys()
    ensures forall f :: A9.Get(f).Some?
  {
  }
}
