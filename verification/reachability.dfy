/**
 * What holds in every state the component can reach from its initial state:
 * the question index stays inside the question array, the answers are a
 * prefix of the questions answered in order, and the final screen is only
 * reached once all nine keys are written.
 */
module Reachability {
  import opened QuizTypes
  import opened QuizData
  import opened QuizFlow

  /** Exactly the keys of the first `n` questions are present. */
  predicate AnsweredUpTo(a: UserAnswers, n: int)
  {
    forall f :: a.Get(f).Some? <==> IndexOf(f) < n
  }

  /** Every present entry is a value its question lets the user submit. */
  predicate WellTyped(a: UserAnswers)
  {
    forall f :: a.Get(f).Some? ==> Accepts(QUESTIONS[IndexOf(f)], a.Get(f).value)
  }

  /** The inductive invariant of the flow. */
  predicate Inv(s: AppState)
  {
    var q := s.quiz;
    && 0 <= q.currentQuestionIndex < |QUESTIONS|
    && WellTyped(q.answers)
    && match q.step
       case Opening =>
         q.currentQuestionIndex == 0 && AnsweredUpTo(q.answers, 0) && !s.showFeedback && s.timer.None?
       case QuestionScreen =>
         && AnsweredUpTo(q.answers, q.currentQuestionIndex)
         && (match s.timer
             case None => !s.showFeedback
             case Some(p) =>
               && s.showFeedback
               && p.index == q.currentQuestionIndex
               && HasFeedback(p.index)
               && AnsweredUpTo(p.answers, p.index + 1)
               && WellTyped(p.answers))
       case PartialResult =>
         q.currentQuestionIndex == 4 && AnsweredUpTo(q.answers, 5) && !s.showFeedback && s.timer.None?
       case SocialProof =>
         q.currentQuestionIndex == 8 && AnsweredUpTo(q.answers, 9) && !s.showFeedback && s.timer.None?
       case FinalResult =>
         q.currentQuestionIndex == 8 && AnsweredUpTo(q.answers, 9) && !s.showFeedback && s.timer.None?
  }

  /** How many questions the user has answered so far, counting an answer
    * whose feedback is still on screen. */
  function Answered(s: AppState): int
  {
    match s.quiz.step
    case Opening => 0
    case QuestionScreen => s.quiz.currentQuestionIndex + (if s.timer.Some? then 1 else 0)
    case PartialResult => 5
    case SocialProof => 9
    case FinalResult => 9
  }

  /** Whether event `e` is an answer the component accepts in state `s`. */
  predicate AcceptsAnswer(s: AppState, e: Event)
  {
    e.Answer? && Enabled(s, e)
  }

  /** The positions of the accepted answers along a run, in order. */
  function AnswerLog(s: AppState, es: seq<Event>): seq<int>
    decreases |es|
  {
    if es == [] then []
    else
      (if AcceptsAnswer(s, es[0]) then [s.quiz.currentQuestionIndex] else [])
      + AnswerLog(Step(s, es[0]), es[1..])
  }

  /** The positions `lo, lo + 1, ..., hi - 1`. */
  function Range(lo: int, hi: int): (r: seq<int>)
    requires lo <= hi
    ensures |r| == hi - lo
    ensures forall k :: 0 <= k < |r| ==> r[k] == lo + k
  {
    seq(hi - lo, k => lo + k)
  }

  lemma InitInv()
    ensures Inv(Init) && Answered(Init) == 0
  {
  }

  /** Writing a submissible value for position `i` into a record holding
    * exactly the first `i` keys yields a record holding the first `i + 1`. */
  lemma WithExtends(a: UserAnswers, i: int, v: Value)
    requires 0 <= i < |QUESTIONS|
    requires AnsweredUpTo(a, i) && WellTyped(a)
    requires Accepts(QUESTIONS[i], v)
    ensures AnsweredUpTo(a.With(FieldAt(i).value, v), i + 1)
    ensures WellTyped(a.With(FieldAt(i).value, v))
  {
    FieldMapBijection();
    var f := FieldAt(i).value;
    var b := a.With(f, v);
    forall g
      ensures b.Get(g).Some? <==> IndexOf(g) < i + 1
      ensures b.Get(g).Some? ==> Accepts(QUESTIONS[IndexOf(g)], b.Get(g).value)
    {
      if g == f {
        assert IndexOf(g) == i;
      } else {
        assert IndexOf(g) != i;
      }
    }
  }

  /** `proceed` from a question screen with the record of the first `i + 1`
    * answers re-establishes the invariant and counts `i + 1` answers. */
  lemma ProceedInv(s: AppState, a: UserAnswers)
    requires s.quiz.step == QuestionScreen && s.timer.None? && !s.showFeedback
    requires 0 <= s.quiz.currentQuestionIndex < |QUESTIONS|
    requires AnsweredUpTo(a, s.quiz.currentQuestionIndex + 1) && WellTyped(a)
    ensures Inv(Proceed(s, a, s.quiz.currentQuestionIndex))
    ensures Answered(Proceed(s, a, s.quiz.currentQuestionIndex)) == s.quiz.currentQuestionIndex + 1
  {
  }

  /** One event preserves the invariant; an accepted answer is the answer to
    * question `Answered(s)` and raises the count by one, and every other
    * event leaves the count alone. */
  lemma StepInv(s: AppState, e: Event)
    requires Inv(s)
    ensures Inv(Step(s, e))
    ensures AcceptsAnswer(s, e) ==>
      s.quiz.currentQuestionIndex == Answered(s) && Answered(Step(s, e)) == Answered(s) + 1
    ensures !AcceptsAnswer(s, e) ==> Answered(Step(s, e)) == Answered(s)
  {
    if Enabled(s, e) {
      match e
      case Answer(v) =>
        var i := s.quiz.currentQuestionIndex;
        WithExtends(s.quiz.answers, i, v);
        var a := s.quiz.answers.With(FieldAt(i).value, v);
        if !HasFeedback(i) {
          ProceedInv(s, a);
        }
      case TimerFires =>
        var p := s.timer.value;
        ProceedInv(s.(showFeedback := false, timer := None), p.answers);
      case _ =>
    }
  }

  /** The invariant holds after any sequence of events, and the count of
    * answers never goes down. */
  lemma {:induction false} RunInv(s: AppState, es: seq<Event>)
    requires Inv(s)
    ensures Inv(Run(s, es))
    ensures Answered(s) <= Answered(Run(s, es))
    decreases |es|
  {
    if es != [] {
      StepInv(s, es[0]);
      RunInv(Step(s, es[0]), es[1..]);
    }
  }

  /** Along any run from a reachable state the accepted answers are the
    * questions `Answered(s), Answered(s) + 1, ...` in that order, one each. */
  lemma {:induction false} AnswerLogInOrder(s: AppState, es: seq<Event>)
    requires Inv(s)
    ensures Answered(s) <= Answered(Run(s, es))
    ensures AnswerLog(s, es) == Range(Answered(s), Answered(Run(s, es)))
    decreases |es|
  {
    if es != [] {
      var s' := Step(s, es[0]);
      StepInv(s, es[0]);
      AnswerLogInOrder(s', es[1..]);
      assert Run(s, es) == Run(s', es[1..]);
    }
  }

  /** In a state satisfying the invariant, while the feedback is on display
    * the timer is the only event that changes anything. */
  lemma FeedbackBlocksAllButTimer(s: AppState, e: Event)
    requires Inv(s) && s.showFeedback
    ensures e != TimerFires ==> Step(s, e) == s
    ensures Step(s, TimerFires) != s
  {
  }

  /** In a state satisfying the invariant a pending timer belongs to a
    * feedback question (positions 0, 1, 2 or 7), so when it fires the quiz
    * moves on to the next question on the same screen, with the flag down
    * and the answer stored. */
  lemma TimerAdvances(s: AppState)
    requires Inv(s) && s.timer.Some?
    ensures var i := s.timer.value.index;
      i == s.quiz.currentQuestionIndex && (i == 0 || i == 1 || i == 2 || i == 7)
    ensures var r := Step(s, TimerFires);
      && r.quiz.step == QuestionScreen
      && r.quiz.currentQuestionIndex == s.quiz.currentQuestionIndex + 1
      && !r.showFeedback && r.timer.None?
      && AnsweredUpTo(r.quiz.answers, r.quiz.currentQuestionIndex)
  {
  }

  /** In a state satisfying the invariant every change of screen, the
    * timer's included, is one the flow allows. */
  lemma ScreenChangesFollowFlow(s: AppState, e: Event)
    requires Inv(s)
    ensures Step(s, e).quiz.step != s.quiz.step ==> ScreenEdge(s.quiz.step, Step(s, e).quiz.step)
  {
    if e == TimerFires && s.timer.Some? {
      TimerAdvances(s);
    }
  }

  /** In every reachable state the current question exists. */
  lemma ReachableIndexInRange(es: seq<Event>)
    ensures var q := Run(Init, es).quiz;
      0 <= q.currentQuestionIndex <= 8 && QuestionAt(q.currentQuestionIndex).Some?
  {
    InitInv();
    RunInv(Init, es);
  }

  /** A reachable final screen has every key written, and the run answered
    * the nine questions exactly once each, in order. */
  lemma FinalHasAllAnswers(es: seq<Event>)
    requires Run(Init, es).quiz.step == FinalResult
    ensures forall f :: Run(Init, es).quiz.answers.Get(f).Some?
    ensures AnswerLog(Init, es) == Range(0, 9)
  {
    InitInv();
    RunInv(Init, es);
    AnswerLogInOrder(Init, es);
  }

  /** Once reached, the final screen is never left, whatever follows. */
  lemma {:induction false} FinalStaysFinal(s: AppState, more: seq<Event>)
    requires Inv(s) && s.quiz.step == FinalResult
    ensures Run(s, more) == s
    decreases |more|
  {
    if more != [] {
      FinalIsTerminal(s, more[0]);
      FinalStaysFinal(s, more[1..]);
    }
  }

  /** Every key holds a value its question accepts in every reachable state;
    * in particular weight and height, when present, are numbers. */
  lemma ReachableWellTyped(es: seq<Event>)
    ensures WellTyped(Run(Init, es).quiz.answers)
    ensures var a := Run(Init, es).quiz.answers;
      (a.weight.Some? ==> a.weight.value.Num?) && (a.height.Some? ==> a.height.value.Num?)
  {
    InitInv();
    RunInv(Init, es);
    var a := Run(Init, es).quiz.answers;
    assert a.weight == a.Get(Weight) && a.height == a.Get(Height);
  }
}
