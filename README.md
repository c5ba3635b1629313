# Physics quiz session — a Dafny model

This project models the logic of a small browser quiz, PhysicsTest12. The quiz shows a fixed list of
physics questions. Each question has two answer slots, one per physical quantity. For each slot the
user picks one of three options: "increases" (1), "decreases" (2) or "does not change" (3). The value
0 means nothing is picked yet. The quiz keeps the elapsed time, scores the test and can show a review
of every answer.

The model has two modules, one per component:

- `QuestionView` (`question_view.dfy`) models `Question.tsx`. This component holds no state, so it is
  modelled with functions and lemmas. The two slot-change handlers return a new answer pair and keep
  the other slot. `MarkOption`, `RenderOptions` and `SlotOptions` give the selected, correct, wrong
  and disabled markers of each option.
- `TestSession` (`test_session.dfy`) models `TestComponent.tsx`. The five `useState` variables are
  the fields of the class `Session`. The question list is a `const` field. Every event handler
  (answer, next, previous, jump, timer tick, review toggle, restart) is a method. Each method's
  `modifies` clause names only the fields that handler sets, so every other field stays unchanged.
  `Valid()` is the session invariant:
  - the question list is not empty;
  - the current index is in bounds;
  - records exist only for question positions;
  - each record's `isCorrect` is the judgement of its stored pair.
  
  `CalculateResults` is a loop over the stored records, proved against `CorrectCount`. The helpers
  (`FormatTime`, `OptionLabel`, `GetQuestionStatus`, the review predicates, the colour bands) are
  functions.
- `QuizScenario` (`scenario.dfy`) drives a `Session` only through its methods. It walks through
  three questions: one right, one with a slot wrong, one unanswered. Then it finishes the test and
  toggles the review.

The question list is a parameter of the session constructor and must not be empty. The data file it
comes from, `src/data/questions`, is not part of this model. The score uses the integer formula
`(200 * correct + total) / (2 * total)`. This is round-half-up of `100 * correct / total`, and it is
what `Math.round` gives for non-negative counts when the arithmetic is exact.

The review shows the correct-answer block only when a record exists and is incorrect
(`TestComponent.tsx:239`), so an unanswered question shows no correct-answer block.
`ShowCorrectBlock` and `ThreeQuestionSession` state this.

## Model

| member | source | states |
|---|---|---|
| `TestSession.Session.constructor` | src/components/TestComponent/TestComponent.tsx:12-16 | The session starts at question 0, with no records, zero seconds, and results and review hidden; the invariant holds |
| `TestSession.Session.Tick` | src/components/TestComponent/TestComponent.tsx:18-25 | A tick adds one second while results are hidden; once results are shown the time stays the same; nothing else changes |
| `TestSession.Session.HandleAnswer` | src/components/TestComponent/TestComponent.tsx:36-49 | Stores the pair for the current question; `isCorrect` is true iff the pair equals the question's correct pair; all other records and fields stay unchanged; the current answer becomes the stored pair |
| `TestSession.Judge` | src/components/TestComponent/TestComponent.tsx:38-40 | An answer is right iff it equals the correct pair, i.e. iff both slots match |
| `TestSession.OneSlotWrongIsWrong` | src/components/TestComponent/TestComponent.tsx:38-40 | A mismatch in one slot alone makes the answer wrong |
| `TestSession.Session.NextQuestion` | src/components/TestComponent/TestComponent.tsx:51-57 | Below the last index it moves one forward and keeps the results flag; at the last index it keeps the index and shows the results; the index stays in bounds |
| `TestSession.Session.PrevQuestion` | src/components/TestComponent/TestComponent.tsx:59-63 | Moves one back when the index is above 0; at 0 it does nothing |
| `TestSession.Session.GoToQuestion` | src/components/TestComponent/TestComponent.tsx:65-67 | Sets the index to any valid position; records and other fields stay unchanged |
| `TestSession.Session.CalculateResults` | src/components/TestComponent/TestComponent.tsx:69-81 | The counting loop returns the number of stored records marked correct, at most the number of questions; the total is the number of questions; the percentage is the rounded share, between 0 and 100 |
| `TestSession.CorrectCountBound` | src/components/TestComponent/TestComponent.tsx:70-77 | When records exist only for question positions, the correct count never exceeds the number of questions |
| `TestSession.AllCorrectCount` | src/components/TestComponent/TestComponent.tsx:70-77 | When every question has a record marked correct, the count equals the number of questions |
| `TestSession.Percentage` | src/components/TestComponent/TestComponent.tsx:78 | The result is the round-half-up of 100·correct/total: 2·total·p ≤ 200·correct + total < 2·total·(p+1); for correct ≤ total it is between 0 and 100 |
| `TestSession.AllRightIsFull` | src/components/TestComponent/TestComponent.tsx:78 | All questions right gives 100 |
| `TestSession.PercentageExamples` | src/components/TestComponent/TestComponent.tsx:78 | 0 right gives 0; 3 of 4 gives 75; 1 of 3 gives 33 |
| `TestSession.Decimal` | src/components/TestComponent/TestComponent.tsx:86 | A whole number's text is a non-empty string of digits; it starts with '0' only for zero, and it is one digit exactly below 10 |
| `TestSession.DecimalRoundTrip` | src/components/TestComponent/TestComponent.tsx:86 | Reading back the digits of a number's text gives the number |
| `TestSession.PadSeconds` | src/components/TestComponent/TestComponent.tsx:86 | Seconds below 60 become exactly two digits that read back as those seconds |
| `TestSession.FormatTime` | src/components/TestComponent/TestComponent.tsx:83-87 | The text is unpadded minutes (the text of seconds/60), then ':', then two digits below 60; minutes·60 + seconds read back gives the input |
| `TestSession.FormatTimeExamples` | src/components/TestComponent/TestComponent.tsx:83-87 | 0 gives "0:00", 59 gives "0:59", 60 gives "1:00", 125 gives "2:05" |
| `TestSession.Find` | src/components/TestComponent/TestComponent.tsx:33 | Returns the first option with the given value, or none exactly when no option has it |
| `TestSession.OptionLabel` | src/components/TestComponent/TestComponent.tsx:27-34 | Values 1, 2 and 3 get their fixed labels, in that order; every other value gets "" |
| `TestSession.OptionLabelInjective` | src/components/TestComponent/TestComponent.tsx:27-34 | Two values with the same non-empty label are the same value |
| `TestSession.UnansweredHasNoLabel` | src/components/TestComponent/TestComponent.tsx:33 | The unanswered value 0 has the empty label |
| `TestSession.Session.ToggleShowAnswers` | src/components/TestComponent/TestComponent.tsx:89-91 | Flips the review flag and changes nothing else |
| `TestSession.Session.GetQuestionStatus` | src/components/TestComponent/TestComponent.tsx:93-99 | The current index is always Current, even with a record; otherwise Unanswered iff there is no record, otherwise Correct or Incorrect from the record |
| `TestSession.Session.StatusReflectsAnswer` | src/components/TestComponent/TestComponent.tsx:93-99 | In a valid session, a non-current question is Correct iff its stored pair is the correct pair, and Incorrect iff a stored pair differs from it |
| `TestSession.ColourBand` | src/components/TestComponent/TestComponent.tsx:119-124 | 80 and above is green, 60 to 79 amber, below 60 red |
| `TestSession.ColourBandMonotone` | src/components/TestComponent/TestComponent.tsx:119-124 | A higher percentage never gets a worse colour |
| `TestSession.Session.Restart` | src/components/TestComponent/TestComponent.tsx:145 | Every field goes back to its initial value |
| `TestSession.Session.ReviewVerdict` | src/components/TestComponent/TestComponent.tsx:157-182 | The review banner is Unanswered iff there is no record, else Correct or Incorrect from the record |
| `TestSession.Session.ReviewSlotWrong` | src/components/TestComponent/TestComponent.tsx:199-226 | A slot is flagged only when a record exists, it is incorrect, and that slot differs from the correct value |
| `TestSession.Session.ShowCorrectBlock` | src/components/TestComponent/TestComponent.tsx:239 | The correct-answer block appears iff a record exists and is incorrect, so never for an unanswered question |
| `TestSession.Session.ReviewFlagsAgree` | src/components/TestComponent/TestComponent.tsx:199-239 | In a valid session, a slot is flagged iff a record exists and that slot differs; the block appears iff at least one slot is flagged |
| `TestSession.Session.CurrentAnswer` | src/components/TestComponent/TestComponent.tsx:280-282 | The current question's pair is its stored pair, or (0, 0) when it has no record |
| `QuizScenario.AnswerFirstTwo` | src/components/TestComponent/TestComponent.tsx:36-99 | Answering question 1 right and question 2 with one slot wrong stores exactly those two records; question 2 on screen reports Current |
| `QuizScenario.SkipAndFinish` | src/components/TestComponent/TestComponent.tsx:18-91 | Finishing from question 2 shows the results; the time stops and stays stopped while the review is toggled; the records stay the same |
| `QuizScenario.ThreeQuestionSession` | src/components/TestComponent/TestComponent.tsx:69-239 | One of three right gives 1 of 3, 33 percent and time "0:05"; the returned review values show the unanswered third question as Unanswered with no block, the second with only its second slot flagged and the block shown, the first as Correct with no block |
| `QuizScenario.ToggleTwice` | src/components/TestComponent/TestComponent.tsx:89-91 | Two toggles restore the whole session |
| `QuestionView.HandleFirstChange` | src/components/Question/Question.tsx:25-27 | The new pair has the chosen value first and keeps the second slot |
| `QuestionView.HandleSecondChange` | src/components/Question/Question.tsx:29-31 | The new pair keeps the first slot and has the chosen value second |
| `QuestionView.ChangeSlot` | src/components/Question/Question.tsx:106-124 | The first group uses the first handler and the second group the second: the changed slot gets the value and the other slot is kept |
| `QuestionView.ChangeSlotSameValue` | src/components/Question/Question.tsx:25-31 | Choosing the value a slot already has reports the same pair |
| `QuestionView.ChangeSlotTwice` | src/components/Question/Question.tsx:25-31 | A second change to the same slot overrides the first |
| `QuestionView.ChangeSlotsCommute` | src/components/Question/Question.tsx:25-31 | Changing both slots gives the same pair in either order |
| `QuestionView.MarkOption` | src/components/Question/Question.tsx:39-43 | With the reveal flag off nothing is marked or disabled; wrong implies selected and not the correct value; no option is both correct and wrong |
| `QuestionView.RenderOptions` | src/components/Question/Question.tsx:33-72 | One marker record per option, in the question's order |
| `QuestionView.CorrectValueFor` | src/components/Question/Question.tsx:106-124 | A slot gets its correct value only when correctness is revealed, and none otherwise |
| `QuestionView.SlotOptions` | src/components/Question/Question.tsx:100-128 | Per option: selected iff it equals the slot's value; disabled iff revealed; correct iff revealed and it equals the correct value; wrong iff revealed, selected and the slot's value is not correct; never both correct and wrong |
| `QuestionView.NoMarksWhenHidden` | src/components/Question/Question.tsx:23-61 | Without the reveal flag no option is correct or wrong and inputs are enabled |
| `QuestionView.AtMostOneSelected` | src/components/Question/Question.tsx:39-40 | With distinct option values, at most one option per slot is selected |
| `QuestionView.AtMostOneCorrect` | src/components/Question/Question.tsx:39-41 | With distinct option values, at most one option per slot is marked correct |
| `QuestionView.WrongIsTheSelectedMismatch` | src/components/Question/Question.tsx:42-43 | When revealed, an option is wrong iff it is the selected one and the slot's value is not correct |
| `QuestionView.UnansweredSelectsNothing` | src/components/Question/Question.tsx:40 | The unanswered value 0 selects no option when no option has value 0 |
| `QuestionView.ChoosingOptionReports` | src/components/Question/Question.tsx:60 | Choosing an option reports the pair with that slot set to the option's value and the other slot kept |

## Left out

- Markup, CSS class strings and the display texts other than the three option labels are presentation only. This includes the correct and wrong marker spans (`Question.tsx:64-69`), which follow the correct and wrong flags exactly.
- The image `onError` handler (`Question.tsx:85-89`) only hides DOM elements.
- The `setInterval`/`clearInterval` lifecycle is not modelled, and neither is real time. `Tick` is one interval firing; its effect depends on `showResults`, as the effect's condition does. The React render cycle and batching of updates are not modelled: each handler is one atomic step.
- `window.location.reload()` is modelled by `Restart` as a reset of every field. The page reload itself is not modelled.
- The progress-bar width (`TestComponent.tsx:300`) is floating point and only drives the display.
- `Math.round` on a float is replaced by the exact integer formula in `Percentage`. Floating-point rounding error is not modelled. The first case where they differ is 23 of 40: in double precision `23 / 40 * 100` is 57.49999999999999, so the source shows 57 where `Percentage(23, 40)` is 58. No total below 40 differs.
- Numbers are unbounded integers. JavaScript's double-precision limits do not matter at quiz sizes.
- Loading the question list is not modelled. The list is a constructor parameter and must be non-empty. With an empty list the source divides by zero and indexes past the end.
- `GoToQuestion` requires a valid index. The source does no bounds check, but its only caller passes indices of the question list.
- `HandleAnswer` is not guarded by `showResults`, just as the source's handler is not. It is only reachable while the question screen is shown.
- The question id, number, text, image and quantity names are carried in `Question` but used by no logic.
