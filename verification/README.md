# Quiz flow of the metabolic-protocol funnel, in Dafny

The funnel is one React component, `App`. It asks nine questions one at a time. After the
height question it shows a partial result with a body mass index. After the last question it
shows testimonials ("social proof"), and then the final protocol page with its offer. This
project models the component's state machine and proves properties of it. The machine has
five screens (`opening`, `question`, `partial_result`, `social_proof`, `final_result`), a
question index, an answer record with nine optional keys, and a `showFeedback` flag. Some
questions display feedback text for two seconds before the quiz moves on, and the flag
covers that time.

Files and modules:

- `types.dfy`, module `QuizTypes`: the record types. These are the answer record with its
  nine keys, the question, the screen label and the quiz state. The module also defines
  JavaScript truthiness of an answer entry.
- `questions.dfy`, module `QuizData`: the nine-entry question table and the answer handler's
  position-to-key table (`fieldMap`). It also defines which values a question lets the user
  submit.
- `flow.dfy`, module `QuizFlow`: the component's state, and one event per gesture, plus one
  for the feedback timer. It has the handlers (`handleStart`, `handleAnswer`, `proceed`, the
  resume button, the social-proof button), the transition function `Step`, the run of an
  event sequence `Run`, and lemmas about single transitions.
- `reachability.dfy`, module `Reachability`: the inductive invariant of every reachable
  state, the count of answered questions, the log of accepted answers, and the theorems
  about reachable states.
- `display.dfy`, module `Display`: the progress label and bar, `Math.round`, the body mass
  index memo, and its `toFixed(1)` rendering.
- `session.dfy`, module `Session`: one complete session from the opening screen to the final
  page, with a weight of 75 kg and a height of 170 cm.

How the model works:

- The 2000 ms `setTimeout` is the event `TimerFires`. The scheduled callback is a
  `PendingTimer` value in the state. It holds the answer record the handler built and the
  question index its closure saw, and `proceed` runs with both when the event fires.
- While the feedback is on screen, the committed answer record does not yet contain the new
  answer. It is stored only when the timer's `proceed` runs.
- An event whose button is not rendered leaves the state unchanged. The buttons are: the
  start button on the opening screen; the option buttons and the "continue" button only on
  the question screen while no feedback is shown; one "continue" button on the partial
  result screen; and one on the social proof screen.
- A choice answer must be one of the current question's option values. A number answer may
  be any number, because the code only disables submission while the input box is empty.

Behaviour worth noting:

- The progress formula divides the position, counted from one, by 10. The label therefore
  runs from 10% to 90% over the nine questions, and the bar never reaches 100%
  (`ReachableProgressBounds`).
- `handleStart` changes only the screen and leaves the index as it is. The invariant
  (`InitInv`, `RunInv`) keeps the index at 0 on every reachable opening screen, so start
  always leads to the first question.
- For 75 kg and 170 cm the quotient is 25.95..., and `toFixed(1)` shows 26.0
  (`BmiExample`).
- A numeric answer may be zero or negative. The only thing the input refuses is an empty box.
- The transitions are keyed on question positions in the array, not on question ids. After
  position 4 the partial result is shown, after position 8 the social proof is shown, and
  resuming jumps to position 5.

## Model

| member | source | states |
|---|---|---|
| QuizTypes.UserAnswers.With | src/App.tsx:157 | spreading the record and overriding one key stores the value under that key and leaves every other key as it was |
| QuizData.QuestionAt | src/App.tsx:24-118 | the question array has nine entries with ids 1..9 in order; any other position is undefined |
| QuizData.HasFeedback | src/App.tsx:24-118 | exactly the questions at positions 0, 1, 2 and 7 carry feedback text |
| QuizData.IsNumeric | src/App.tsx:24-118 | exactly the questions at positions 3 (weight) and 4 (height) are number inputs |
| QuizData.FieldAt | src/App.tsx:144-156 | `fieldMap` gives a key for exactly the positions 0..8 |
| QuizData.FieldMapBijection | src/App.tsx:144-154 | `fieldMap` is a bijection between the nine positions and the nine answer keys, with `IndexOf` as its inverse |
| QuizData.NumericKeys | src/App.tsx:144-154 | the keys written by number questions are exactly weight and height |
| QuizFlow.HandleStart | src/App.tsx:139-141 | start moves to the question screen and keeps the index, the answers and the feedback state |
| QuizFlow.Proceed | src/App.tsx:170-183 | proceed stores the answers; after position 4 it shows the partial result and keeps the index; after position 8 it shows the social proof and keeps the index; otherwise it advances the index by one on the same screen |
| QuizFlow.HandleAnswer | src/App.tsx:143-168 | an answer to a feedback question leaves the quiz state alone, raises the flag and schedules a timer holding the current index and the record with the value written under the current position's key, other keys kept; an answer to any other question writes that key in the committed record, keeps the flag and timer, and proceeds (partial result at position 4, social proof at position 8, next index otherwise) |
| QuizFlow.FireTimer | src/App.tsx:161-164 | the timer callback lowers the flag, removes the timer, stores the captured record, and proceeds by the captured index: partial result at 4, social proof at 8, next index on the same screen otherwise |
| QuizFlow.HandleResume | src/App.tsx:343-344 | leaving the partial result returns to the question screen at position 5 with the answers, the flag and the timer kept |
| QuizFlow.HandleSeeProtocol | src/App.tsx:428-429 | leaving the social proof shows the final screen with the index, the answers, the flag and the timer kept |
| QuizFlow.Enabled | src/App.tsx:539-543 | an event can only happen on the screen that renders its button: start on the opening screen, answers on the question screen, resume on the partial result, the protocol button on the social proof |
| QuizFlow.Step | src/App.tsx:539-543 | an event whose button is not rendered changes nothing; every screen change a gesture causes is opening to question, question to partial result or social proof, partial result to question, or social proof to final; the final screen with no timer never changes |
| QuizFlow.Run | src/App.tsx:438-524 | from the final screen with no timer pending, any sequence of events leaves the state as it is |
| QuizFlow.InitialState | src/App.tsx:121-126 | the component mounts on the opening screen at index 0, with no answers, the flag down and no timer |
| QuizFlow.OpeningOnlyStarts | src/App.tsx:539-543 | on the opening screen every event except start is a no-op, and start changes only the screen |
| QuizFlow.AnswerWritesOneField | src/App.tsx:143-157 | an accepted answer writes the value under the key `fieldMap` gives for the current position, and every other key keeps its committed entry |
| QuizFlow.FeedbackDefersProceed | src/App.tsx:159-167 | an answer to a feedback question commits nothing, raises the flag and schedules the timer with the current index; an answer to any other question is exactly `proceed` of the record with the value written under the current key, at the current index |
| QuizFlow.FeedbackGate | src/App.tsx:226-305 | while the feedback flag is up, no answer changes the state |
| QuizFlow.TimerClearsFlagAndProceeds | src/App.tsx:161-164 | when the timer fires the flag is cleared, the timer is gone and the captured record is stored; the quiz leaves for the partial result or the social proof at captured positions 4 and 8, and otherwise moves to the next index on the same screen |
| QuizFlow.FinalIsTerminal | src/App.tsx:438-524 | on the final screen with no timer pending, no event changes the state |
| Reachability.InitInv | src/App.tsx:121-126 | the initial state (opening, index 0, empty record, flag down) satisfies the invariant and counts no answers |
| Reachability.StepInv | src/App.tsx:139-183 | every event preserves the invariant; an accepted answer is for question number `Answered(s)` and raises the count by one, and every other event leaves the count unchanged |
| Reachability.RunInv | src/App.tsx:129 | the invariant holds after any sequence of events, and the answer count never decreases |
| Reachability.AnswerLogInOrder | src/App.tsx:143-183 | along any run, the positions of the accepted answers are consecutive and increasing, with one answer per position |
| Reachability.FeedbackBlocksAllButTimer | src/App.tsx:226-305 | while the feedback is on display, every event except the timer is a no-op, and the timer does change the state |
| Reachability.TimerAdvances | src/App.tsx:159-167 | in a reachable state a pending timer belongs to the current question, which is one of the feedback positions 0, 1, 2 and 7; when it fires, the quiz shows the next question with the flag down and the answers of all earlier positions stored |
| Reachability.ScreenChangesFollowFlow | src/App.tsx:139-183 | in a reachable state every screen change, the timer's included, follows the flow: opening to question, question to partial result or social proof, partial result to question, social proof to final |
| Reachability.ReachableIndexInRange | src/App.tsx:129 | in every reachable state the index lies in 0..8, so `QUESTIONS[currentQuestionIndex]` is defined |
| Reachability.FinalHasAllAnswers | src/App.tsx:170-183 | a reachable final screen has all nine keys written, and the run answered positions 0..8 once each, in that order |
| Reachability.FinalStaysFinal | src/App.tsx:438-524 | from a reachable final screen, any further events leave the state unchanged |
| Reachability.ReachableWellTyped | src/App.tsx:266-301 | in every reachable state each written key holds a value its question offers, so weight and height hold numbers |
| Display.MathRound | src/App.tsx:214 | `Math.round` returns the integer within one half of its argument, rounding halves up |
| Display.ProgressWidth | src/App.tsx:220 | the bar width is ten percent per position, counted from one |
| Display.ProgressPercent | src/App.tsx:214 | the percentage label equals the bar width and is (index + 1) * 10 |
| Display.ProgressStrictlyIncreasing | src/App.tsx:211-220 | the label and the bar width are strictly increasing in the index |
| Display.ReachableProgressBounds | src/App.tsx:211-220 | on every reachable question screen the label lies between 10 and 90 and the bar is below 100% |
| Display.ToFixed1 | src/App.tsx:134 | one-decimal rendering gives the nearest number of tenths, with a tie rounded away from zero (up for a non-negative value, down for a negative one), and keeps the sign |
| Display.BodyMassIndex | src/App.tsx:133-134 | the index times the square of the height in metres gives back the weight |
| Display.Bmi | src/App.tsx:131-137 | the index exists only when weight and height are both truthy; for numeric entries it is the weight divided by the square of the height in metres |
| Display.BmiShown | src/App.tsx:131-137 | the displayed figure exists exactly when the index does, and is the index's nearest number of tenths, a tie rounded away from zero |
| Display.BmiOnlyReadsWeightAndHeight | src/App.tsx:131-137 | the index and the displayed figure depend only on the weight and height entries |
| Display.ReachableBmiGuard | src/App.tsx:132 | in every reachable state the figure is shown exactly when weight and height are present and not zero |
| Display.BmiExample | src/App.tsx:131-137 | 75 kg and 170 cm display as 26.0 |
| Session.RunConcat | src/App.tsx:121-183 | running two event sequences one after the other equals running their concatenation |
| Session.SampleToPartial | src/App.tsx:121-183 | start, three feedback answers with their timers, weight 75 and height 170 end on the partial result screen at index 4 with exactly the first five answers stored |
| Session.SamplePartialBmi | src/App.tsx:131-137 | that partial result screen shows a body mass index of 26.0 |
| Session.SampleToFinal | src/App.tsx:343-429 | from that partial result, resume, the last four answers and the social-proof button end on the final screen at index 8 with all nine answers stored |
| Session.SampleSession | src/App.tsx:121-429 | continuing with resume, the last four answers (one with feedback) and the social-proof button ends on the final screen at index 8 with all nine answers stored |

## Left out

- Rendering, animation, icons, images, question texts, option labels, placeholders, units, testimonials, prices and the checkout link: these are presentation and change no state. `Question` keeps only the id, the kind, the option values and whether feedback text exists.
- The `tempNumber` input buffer and the `Number(...)` parse of it: a number answer is an exact real number. NaN, infinities and the buffer's reset in `proceed` are not modelled.
- Display.Bmi: uses exact real arithmetic instead of IEEE doubles. An entry that is text instead of a number gives no index, where JavaScript would coerce it; `ReachableWellTyped` shows that no reachable state has such an entry.
- Display.ToFixed1: exact rounding of a real number, not of its nearest double, and the result is a count of tenths, not a string.
- Display.ProgressPercent: the floating-point error of `(i + 1) / 10 * 100` is not modelled; `Math.round` removes it for every index the quiz reaches.
- The wall-clock length of the 2000 ms delay, React's batching of state updates and stale-closure effects: each event is one atomic update, and the timer is an event.
- The "question n of 10" counter text: display only; its number is the index plus one, like the progress label.
- The lookups of the final screen's labels for goal and focus area (`find` on the options): display only.
