/**
 * The quiz flow of the `App` component (src/App.tsx) as a pure state
 * machine. Each user gesture, and the firing of the feedback timer, is one
 * atomic event; a gesture whose button is not on screen is a no-op.
 */
module QuizFlow {
  import opened QuizTypes
  import opened QuizData

  /** The callback the 2000 ms feedback timer will run: the answer record the
    * handler built and the question index its closure saw. */
  datatype PendingTimer = PendingTimer(answers: UserAnswers, index: int)

  /** The component's state: the quiz state, the `showFeedback` flag and the
    * feedback timer, if one is scheduled. */
  datatype AppState = AppState(quiz: QuizState, showFeedback: bool, timer: Option<PendingTimer>)

  datatype Event =
    | Start               // "start now" on the opening screen
    | Answer(value: Value) // an option button, or "continue" under the number input
    | TimerFires          // the feedback timer elapses
    | Resume              // "continue analysis" on the partial result screen
    | SeeProtocol         // "see my final protocol" on the social proof screen

  /** The state the component mounts with. */
  const Init: AppState := AppState(QuizState(Opening, 0, NoAnswers), false, None)

  /** The screen whose button raises the event; the timer belongs to none. */
  function ScreenOf(e: Event): Option<QuizStep>
  {
    match e
    case Start => Some(Opening)
    case Answer(_) => Some(QuestionScreen)
    case TimerFires => None
    case Resume => Some(PartialResult)
    case SeeProtocol => Some(SocialProof)
  }

  /** The screen changes the flow allows: opening to question, question to
    * partial result or social proof, partial result back to question, and
    * social proof to the final page. */
  predicate ScreenEdge(from: QuizStep, to: QuizStep)
  {
    || (from == Opening && to == QuestionScreen)
    || (from == QuestionScreen && to == PartialResult)
    || (from == QuestionScreen && to == SocialProof)
    || (from == PartialResult && to == QuestionScreen)
    || (from == SocialProof && to == FinalResult)
  }

  /** Whether the event can happen in state `s`: its button is rendered, or,
    * for the timer, a timer is scheduled. The question screen shows its
    * buttons only while no feedback is displayed, and only values the
    * current question offers can be submitted. */
  predicate Enabled(s: AppState, e: Event)
    ensures Enabled(s, e) && ScreenOf(e).Some? ==> s.quiz.step == ScreenOf(e).value
  {
    match e
    case Start => s.quiz.step == Opening
    case Answer(v) =>
      && s.quiz.step == QuestionScreen
      && !s.showFeedback
      && QuestionAt(s.quiz.currentQuestionIndex).Some?
      && Accepts(QuestionAt(s.quiz.currentQuestionIndex).value, v)
    case TimerFires => s.timer.Some?
    case Resume => s.quiz.step == PartialResult
    case SeeProtocol => s.quiz.step == SocialProof
  }

  /** `handleStart`: only the step changes. */
  function HandleStart(s: AppState): (r: AppState)
    ensures r.quiz.step == QuestionScreen
    ensures r.quiz.currentQuestionIndex == s.quiz.currentQuestionIndex
    ensures r.quiz.answers == s.quiz.answers
    ensures r.showFeedback == s.showFeedback && r.timer == s.timer
  {
    s.(quiz := s.quiz.(step := QuestionScreen))
  }

  /** `proceed(newAnswers)`, where `index` is the question index the calling
    * closure saw: store the answers, then leave for the partial result after
    * position 4, for the social proof after position 8, and otherwise move
    * on to the next question. */
  function Proceed(s: AppState, newAnswers: UserAnswers, index: int): (r: AppState)
    ensures r.quiz.answers == newAnswers
    ensures r.showFeedback == s.showFeedback && r.timer == s.timer
    ensures index == 4 ==>
      r.quiz.step == PartialResult && r.quiz.currentQuestionIndex == s.quiz.currentQuestionIndex
    ensures index == 8 ==>
      r.quiz.step == SocialProof && r.quiz.currentQuestionIndex == s.quiz.currentQuestionIndex
    ensures index != 4 && index != 8 ==>
      r.quiz.step == s.quiz.step && r.quiz.currentQuestionIndex == s.quiz.currentQuestionIndex + 1
  {
    if index == 4 then
      s.(quiz := s.quiz.(answers := newAnswers, step := PartialResult))
    else if index == 8 then
      s.(quiz := s.quiz.(answers := newAnswers, step := SocialProof))
    else
      s.(quiz := s.quiz.(answers := newAnswers, currentQuestionIndex := s.quiz.currentQuestionIndex + 1))
  }

  /** `handleAnswer(v)` on a rendered question: write `v` under the key
    * `fieldMap` gives for the current position; for a question with
    * feedback, raise the flag and schedule the timer, otherwise proceed at
    * once. */
  function HandleAnswer(s: AppState, v: Value): (r: AppState)
    requires FieldAt(s.quiz.currentQuestionIndex).Some?
    ensures var i, f := s.quiz.currentQuestionIndex, FieldAt(s.quiz.currentQuestionIndex).value;
      HasFeedback(i) ==>
        && r.quiz == s.quiz
        && r.showFeedback
        && r.timer.Some? && r.timer.value.index == i
        && r.timer.value.answers.Get(f) == Some(v)
        && forall g :: g != f ==> r.timer.value.answers.Get(g) == s.quiz.answers.Get(g)
    ensures var i, f := s.quiz.currentQuestionIndex, FieldAt(s.quiz.currentQuestionIndex).value;
      !HasFeedback(i) ==>
        && r.showFeedback == s.showFeedback && r.timer == s.timer
        && r.quiz.answers.Get(f) == Some(v)
        && (forall g :: g != f ==> r.quiz.answers.Get(g) == s.quiz.answers.Get(g))
        && (i == 4 ==> r.quiz.step == PartialResult && r.quiz.currentQuestionIndex == i)
        && (i == 8 ==> r.quiz.step == SocialProof && r.quiz.currentQuestionIndex == i)
        && (i != 4 && i != 8 ==> r.quiz.step == s.quiz.step && r.quiz.currentQuestionIndex == i + 1)
  {
    var index := s.quiz.currentQuestionIndex;
    var newAnswers := s.quiz.answers.With(FieldAt(index).value, v);
    if HasFeedback(index) then
      s.(showFeedback := true, timer := Some(PendingTimer(newAnswers, index)))
    else
      Proceed(s, newAnswers, index)
  }

  /** The timer callback: clear the flag, then proceed with the record and
    * index it captured. */
  function FireTimer(s: AppState): (r: AppState)
    requires s.timer.Some?
    ensures !r.showFeedback && r.timer.None?
    ensures r.quiz.answers == s.timer.value.answers
    ensures s.timer.value.index == 4 ==>
      r.quiz.step == PartialResult && r.quiz.currentQuestionIndex == s.quiz.currentQuestionIndex
    ensures s.timer.value.index == 8 ==>
      r.quiz.step == SocialProof && r.quiz.currentQuestionIndex == s.quiz.currentQuestionIndex
    ensures s.timer.value.index != 4 && s.timer.value.index != 8 ==>
      r.quiz.step == s.quiz.step && r.quiz.currentQuestionIndex == s.quiz.currentQuestionIndex + 1
  {
    var p := s.timer.value;
    Proceed(s.(showFeedback := false, timer := None), p.answers, p.index)
  }

  /** The inline handler of the partial result screen. */
  function HandleResume(s: AppState): (r: AppState)
    ensures r.quiz.step == QuestionScreen && r.quiz.currentQuestionIndex == 5
    ensures r.quiz.answers == s.quiz.answers
    ensures r.showFeedback == s.showFeedback && r.timer == s.timer
  {
    s.(quiz := s.quiz.(step := QuestionScreen, currentQuestionIndex := 5))
  }

  /** The inline handler of the social proof screen. */
  function HandleSeeProtocol(s: AppState): (r: AppState)
    ensures r.quiz.step == FinalResult
    ensures r.quiz.currentQuestionIndex == s.quiz.currentQuestionIndex
    ensures r.quiz.answers == s.quiz.answers
    ensures r.showFeedback == s.showFeedback && r.timer == s.timer
  {
    s.(quiz := s.quiz.(step := FinalResult))
  }

  /** One event. A gesture whose button is not on screen changes nothing,
    * and every change of screen a gesture causes is one the flow allows
    * (for the timer this needs the invariant of reachable states). */
  function Step(s: AppState, e: Event): (r: AppState)
    ensures !Enabled(s, e) ==> r == s
    ensures e != TimerFires && r.quiz.step != s.quiz.step ==> ScreenEdge(s.quiz.step, r.quiz.step)
    ensures s.quiz.step == FinalResult && s.timer.None? ==> r == s
  {
    if !Enabled(s, e) then s
    else
      match e
      case Start => HandleStart(s)
      case Answer(v) => HandleAnswer(s, v)
      case TimerFires => FireTimer(s)
      case Resume => HandleResume(s)
      case SeeProtocol => HandleSeeProtocol(s)
  }

  /** A sequence of events, applied in order. Once the final page is shown
    * with no timer pending, no sequence of events leaves it. */
  function Run(s: AppState, es: seq<Event>): (r: AppState)
    ensures s.quiz.step == FinalResult && s.timer.None? ==> r == s
    decreases |es|
  {
    if es == [] then s else Run(Step(s, es[0]), es[1..])
  }

  /** The answer record the next `proceed` will store: the one the pending
    * timer holds, or the committed one when no timer is scheduled. */
  function Upcoming(s: AppState): UserAnswers
  {
    match s.timer
    case Some(p) => p.answers
    case None => s.quiz.answers
  }

  /** On the opening screen only "start" has an effect, and it moves to the
    * question screen leaving the index and the answers as they were. */
  lemma OpeningOnlyStarts(s: AppState, e: Event)
    requires s.quiz.step == Opening && s.timer.None?
    ensures e != Start ==> Step(s, e) == s
    ensures e == Start ==>
      && Step(s, e).quiz == s.quiz.(step := QuestionScreen)
      && Step(s, e).showFeedback == s.showFeedback
  {
  }

  /** An accepted answer writes exactly the key `fieldMap` gives for the
    * current position into the record the next `proceed` stores; every other
    * key keeps its committed entry. */
  lemma AnswerWritesOneField(s: AppState, v: Value)
    requires Enabled(s, Answer(v)) && s.timer.None?
    ensures var f := FieldAt(s.quiz.currentQuestionIndex).value;
      && Upcoming(Step(s, Answer(v))).Get(f) == Some(v)
      && forall g :: g != f ==> Upcoming(Step(s, Answer(v))).Get(g) == s.quiz.answers.Get(g)
  {
  }

  /** Answering a question with feedback commits nothing yet: it raises the
    * flag and schedules the timer with the current index. Answering one
    * without feedback proceeds at once and leaves no timer behind. */
  lemma FeedbackDefersProceed(s: AppState, v: Value)
    requires Enabled(s, Answer(v)) && s.timer.None?
    ensures var r := Step(s, Answer(v));
      HasFeedback(s.quiz.currentQuestionIndex) ==>
        && r.quiz == s.quiz
        && r.showFeedback
        && r.timer.Some? && r.timer.value.index == s.quiz.currentQuestionIndex
    ensures var r := Step(s, Answer(v));
      !HasFeedback(s.quiz.currentQuestionIndex) ==>
        && r == Proceed(s, s.quiz.answers.With(FieldAt(s.quiz.currentQuestionIndex).value, v),
                        s.quiz.currentQuestionIndex)
  {
  }

  /** While the feedback flag is up no answer is accepted. */
  lemma FeedbackGate(s: AppState, v: Value)
    requires s.showFeedback
    ensures Step(s, Answer(v)) == s
  {
  }

  /** When the timer fires the flag comes down, the timer is gone, and the
    * record it captured is stored by `proceed`. */
  lemma TimerClearsFlagAndProceeds(s: AppState)
    requires s.timer.Some?
    ensures var r := Step(s, TimerFires);
      && !r.showFeedback && r.timer.None?
      && r.quiz.answers == s.timer.value.answers
      && (s.timer.value.index == 4 ==> r.quiz.step == PartialResult)
      && (s.timer.value.index == 8 ==> r.quiz.step == SocialProof)
      && (s.timer.value.index != 4 && s.timer.value.index != 8 ==>
            r.quiz.step == s.quiz.step && r.quiz.currentQuestionIndex == s.quiz.currentQuestionIndex + 1)
  {
  }

  /** The initial state: the opening screen at index 0 with an empty record,
    * no feedback shown and no timer. */
  lemma InitialState()
    ensures Init.quiz.step == Opening && Init.quiz.currentQuestionIndex == 0
    ensures forall f :: Init.quiz.answers.Get(f) == None
    ensures !Init.showFeedback && Init.timer.None?
  {
  }

  /** The final screen has no handler that changes state. */
  lemma FinalIsTerminal(s: AppState, e: Event)
    requires s.quiz.step == FinalResult && s.timer.None?
    ensures Step(s, e) == s
  {
  }
}
