/**
 * The quiz's record types: a question definition, the answer record the
 * quiz accumulates, and the flow state of the component (src/types.ts).
 */
module QuizTypes {

  datatype Option<+T> = None | Some(value: T)

  /** A value handed to the answer handler: an option's value string for a
    * choice question, or the number parsed from the input box for a
    * numeric one (the handler's `string | number` parameter). */
  datatype Value = Text(s: string) | Num(x: real)

  /** JavaScript truthiness of an optional answer field: an absent field,
    * the empty string and the number zero are all falsy. */
  predicate Truthy(v: Option<Value>)
  {
    match v
    case None => false
    case Some(Text(s)) => s != ""
    case Some(Num(x)) => x != 0.0
  }

  /** The keys of the answer record. */
  datatype Field = Weight | Height | Goal | BodyType | FocusArea | Routine | Sleep | Water | Obstacle

  /** The answer record: one optional entry per key. */
  datatype UserAnswers = UserAnswers(
    weight: Option<Value>,
    height: Option<Value>,
    goal: Option<Value>,
    bodyType: Option<Value>,
    focusArea: Option<Value>,
    routine: Option<Value>,
    sleep: Option<Value>,
    water: Option<Value>,
    obstacle: Option<Value>)
  {
    /** The entry stored under key `f`. */
    function Get(f: Field): Option<Value>
    {
      match f
      case Weight => weight
      case Height => height
      case Goal => goal
      case BodyType => bodyType
      case FocusArea => focusArea
      case Routine => routine
      case Sleep => sleep
      case Water => water
      case Obstacle => obstacle
    }

    /** The spread-and-override `{ ...answers, [f]: v }`: key `f` now holds
      * `v` and every other key keeps its entry. */
    function With(f: Field, v: Value): (r: UserAnswers)
      ensures r.Get(f) == Some(v)
      ensures forall g :: g != f ==> r.Get(g) == Get(g)
    {
      match f
      case Weight => this.(weight := Some(v))
      case Height => this.(height := Some(v))
      case Goal => this.(goal := Some(v))
      case BodyType => this.(bodyType := Some(v))
      case FocusArea => this.(focusArea := Some(v))
      case Routine => this.(routine := Some(v))
      case Sleep => this.(sleep := Some(v))
      case Water => this.(water := Some(v))
      case Obstacle => this.(obstacle := Some(v))
    }
  }

  /** The empty record `{}` the component starts with. */
  const NoAnswers: UserAnswers :=
    UserAnswers(None, None, None, None, None, None, None, None, None)

  /** A question is either a list of options or a number input. */
  datatype QuestionKind = Choice | Number

  /** A question definition. Only the parts that steer the flow are kept:
    * its id, its kind, the values of its options (empty for a numeric
    * question) and whether it carries feedback text. */
  datatype Question = Question(id: nat, kind: QuestionKind, optionValues: seq<string>, hasFeedback: bool)

  /** The five screens of the funnel. */
  datatype QuizStep = Opening | QuestionScreen | PartialResult | SocialProof | FinalResult

  /** The component's main state object. */
  datatype QuizState = QuizState(step: QuizStep, currentQuestionIndex: int, answers: UserAnswers)
}
