# Love Maths quiz round, modelled in Dafny

The Love Maths page asks arithmetic questions of four game types (addition,
subtraction, multiplication, division), grades the typed answer, keeps a
score and a tally of mistakes, and after a short dwell moves on to a new
question of the same game type. This project models that round:

- `Questions.dfy` (module `Questions`): the operand draw `floor(r * 25) + 1`,
  the operand transform of each display function (`BuildQuestion`), the
  operator symbols (`SymbolOf`) and the switch that maps them back
  (`OpOfSymbol`), the game type names (`GameTypeName`) and the dispatch on
  them (`ParseGameType`), and the answer computed from a displayed question
  (`CorrectAnswer`, with `Math.floor(a / b)` as `JsFloorDiv` over real
  division). Unknown game types and operators are `Err` results.
- `Session.dfy` (module `Session`): the page state as a value (question,
  score, mistakes, whether submit is enabled, feedback, the game type of the
  pending advance) and its transitions `RunGame`, `CheckAnswer`, `Submit`
  and `Advance`, each returning the next state and the error that aborted it.
  An aborted event keeps the effects that happen before the throw: starting
  a round with an unknown game type has already cleared the feedback, and
  grading with an unknown operator has already disabled submit. `Run`
  applies a sequence of events (game type buttons, submissions, timer ticks).
- `QuizPage.dfy` (module `QuizPage`): class `Quiz`, whose fields are those
  of the page and whose methods update them in place; `RunGame`,
  `CheckAnswer`, `Submit`, `Advance` and the constructor are each proved to
  have exactly the effect of the matching `Session` function, while
  `IncrementScore` and `IncrementWrongAnswer`, which have no `Session`
  counterpart, are proved against the fields as they were before the call.
- `Wrappers.dfy`: `Option` and `Result`.

Random values are parameters in [0, 1); the parsed answer box is an
`Option<int>` whose `None` is NaN; a script number that is not an integer
(NaN or an infinity from a division by zero) is `None` as well, and strict
equality `===` is `StrictEquals`, under which NaN equals nothing.

Three behaviours of the code that are easy to miss:

- The advance uses the game type captured when the answer was graded. A game
  type button pressed during the dwell shows its question, but the pending
  advance then replaces it with one of the graded game type
  (`Session.AdvanceOutcome`).
- Grading a question whose operator is unknown aborts after submit was
  disabled, and no advance is scheduled, so submit stays disabled.
- The displayed question is kept as numbers and a symbol; the code reads
  them back from the page's text, which returns the same integers.

## Model

| member | source | states |
|---|---|---|
| Questions.BuildQuestion | assets/js/script.js:151-177 | the operand transform of the four display functions: addition and multiplication show the draws, subtraction swaps them when the first is smaller, division shows the product as dividend over the second draw, each with its own symbol |
| Questions.CorrectAnswer | assets/js/script.js:113-130 | the answer read back from a displayed question: sum, difference, product or floored quotient with its game-type name, and an unknown-operator error for any other symbol |
| Questions.JsFloorDiv | assets/js/script.js:125 | Math.floor of the real quotient, and no integer (NaN or an infinity) for a zero divisor |
| Questions.ParseGameType | assets/js/script.js:42-53 | the dispatch of a game-type name to one of the four game types, and an unknown-game-type error otherwise |
| Questions.OpOfSymbol | assets/js/script.js:88-95 | the switch from an operator symbol back to its game type, and an error for a symbol it does not list |
| Questions.SymbolOf | assets/js/script.js:154-176 | the operator symbol each display function writes |
| Questions.GameTypeName | assets/js/script.js:42-49 | the game-type name of each game type |
| Session.Start | assets/js/script.js:25 | the page after loading: both counters zero, submit enabled, no feedback, nothing pending, an addition question |
| Session.RunGame | assets/js/script.js:32-54 | a round start: feedback cleared, then a new question of the named game type, or an unknown-game-type error with the question unchanged |
| Session.CheckAnswer | assets/js/script.js:59-105 | grading as written: submit disabled, one counter incremented with its feedback, the advance scheduled for the displayed game type, or an unknown-operator error after submit was disabled |
| Session.StrictEquals | assets/js/script.js:70 | strict equality of two script numbers; NaN (None) equals nothing, itself included |
| Session.Submit | assets/js/script.js:8-10 | a submit press: graded only while submit is enabled, ignored otherwise |
| Session.Advance | assets/js/script.js:98-104 | the timer callback: feedback cleared, a round of the captured game type started, submit re-enabled once it started |
| Session.Step | assets/js/script.js:4-26 | one page event: a game-type button other than submit, a submit press, or a timer tick that fires only when an advance is pending |
| Session.Run | assets/js/script.js:4-26 | a sequence of page events applied in order; an aborted event keeps the effects made before the throw, and the later events still apply |
| Questions.Draw | assets/js/script.js:38-40 | every operand drawn from a random value in [0, 1) lies in [1, 25] |
| Questions.DrawCoversRange | assets/js/script.js:39-40 | every integer in [1, 25] is the draw of some random value in [0, 1) |
| Questions.GameTypeRoundTrip | assets/js/script.js:42-49 | the dispatch maps a name to a game type exactly when that is the game type's own name |
| Questions.UnknownGameTypeRejected | assets/js/script.js:50-53 | the dispatch fails exactly for names that are none of the four, with an unknown-game-type error naming the input |
| Questions.SymbolRoundTrip | assets/js/script.js:88-95 | the switch maps a symbol to a game type exactly when it is the symbol the display function of that game type writes |
| Questions.FloorDivPositive | assets/js/script.js:125 | for a positive divisor the floor of the real quotient is integer division |
| Questions.AnswerAgreesWithSwitch | assets/js/script.js:113-130 | the answer is computed exactly for the operators the switch knows, it names the same game type as the switch, and any other operator is an unknown-operator error |
| Questions.UnchangedOperands | assets/js/script.js:151-169 | addition and multiplication show the draws unchanged and their answer is the sum or product |
| Questions.SubtractionNonNegative | assets/js/script.js:157-163 | after the swap the first operand is at least the second, the operands are the draws in some order, and the answer is their difference in [0, 24] |
| Questions.DivisionExact | assets/js/script.js:171-176 | the dividend is the product of the draws, the divisor is the second draw and at least 1, the remainder is zero and the answer is exactly the first draw |
| Questions.BuiltQuestionAnswer | assets/js/script.js:113-130 | the question built for any game type carries its symbol and its answer is the intended one (sum, larger minus smaller, product, first draw) |
| Questions.BuiltIsGenerated | assets/js/script.js:151-177 | every question built from in-range draws satisfies the generated-question invariant |
| Questions.GeneratedHasDraws | assets/js/script.js:151-177 | every question satisfying the invariant is built from some in-range draws |
| Questions.GeneratedHasIntegerAnswer | assets/js/script.js:113-130 | a generated question always has an integer answer, never an error or NaN |
| Session.StartWellFormed | assets/js/script.js:25 | after loading, nothing is graded, submit is enabled and an addition question is shown |
| Session.RunGameOutcome | assets/js/script.js:32-54 | a round start never changes the counters, submit or the pending advance, clears the feedback, fails exactly for an unknown game type leaving the question unchanged, and otherwise shows a generated question of that game type |
| Session.RunGameWellFormed | assets/js/script.js:32-54 | starting a round keeps the session invariant |
| Session.CheckAnswerGradesOnce | assets/js/script.js:59-95 | grading a generated question never fails, disables submit, schedules an advance of the displayed game type, and increments exactly one counter: the score if and only if the answer equals the computed one |
| Session.UnparseableIsWrong | assets/js/script.js:68-70 | an answer that does not parse counts as a mistake and never scores |
| Session.ComputedAnswerScores | assets/js/script.js:68-75 | submitting the computed answer always scores and leaves the mistakes unchanged |
| Session.SubmitWellFormed | assets/js/script.js:65-66 | a submission keeps the session invariant, leaves submit disabled, and changes nothing while submit is disabled |
| Session.AdvanceOutcome | assets/js/script.js:97-104 | the advance never fails, shows a generated question of the captured game type, clears the feedback, re-enables submit and leaves the counters alone |
| Session.NextRoundSameGameType | assets/js/script.js:87-104 | a grading followed by the advance stays on the same game type, re-enables submit and adds exactly one graded answer |
| Session.AtMostOneGradePerRound | assets/js/script.js:59-104 | over any sequence of events the invariant holds, counters never decrease, and the graded answers plus the enabled submit grow by exactly the number of advances that fired, so at most one answer is graded per round |
| Session.EnterTwiceGradesTwice | assets/js/script.js:19-23 | as written, two Enter presses within the dwell grade the same question twice |
| Session.SubmitTwiceGradesOnce | assets/js/script.js:65-66 | with the enabled check, a second submission before the advance grades nothing |
| Session.DocumentedScenarios | assets/js/script.js:39-80 | 7 + 3 answered 10 scores, NaN is a mistake, (4, 9) subtracts as 9 - 4 = 5, (6, 4) divides as 24 ÷ 4 = 6, an unknown game type shows no question |
| QuizPage.Quiz.constructor | assets/js/script.js:25 | the loaded page is the session start state |
| QuizPage.Quiz.IncrementScore | assets/js/script.js:135-138 | the score grows by one and nothing else changes |
| QuizPage.Quiz.IncrementWrongAnswer | assets/js/script.js:143-146 | the mistakes grow by one and nothing else changes |
| QuizPage.Quiz.RunGame | assets/js/script.js:32-54 | the new fields and the error are those of Session.RunGame |
| QuizPage.Quiz.CheckAnswer | assets/js/script.js:59-105 | the new fields and the error are those of Session.CheckAnswer |
| QuizPage.Quiz.Submit | assets/js/script.js:8-10 | the new fields and the error are those of Session.Submit |
| QuizPage.Quiz.Advance | assets/js/script.js:98-104 | the new fields and the error are those of Session.Advance |

## Findings

| source | as written | input that shows it | evidently intended | confidence | as-written member | corrected member |
|---|---|---|---|---|---|---|
| assets/js/script.js:19-23 | the Enter key calls checkAnswer directly, and checkAnswer disables submit but never checks it | press Enter twice within the 1.5 s dwell | one grading per question ("prevent spamming") | medium, not executed | Session.EnterTwiceGradesTwice | Session.SubmitTwiceGradesOnce |

`Session.CheckAnswer` is the grading as written; `Session.Submit` grades
only while submit is enabled, which is what a disabled button does for
clicks and what the Enter key evidently should do. `Session.Step`,
`Session.Run` and `QuizPage.Quiz.Submit` use `Submit`.

## Left out

- Reading and writing the page's elements (text content, classes, focus, clearing the answer box): the state is held as plain fields.
- Reading the operands back from the page's text with parseInt: the model keeps them as integers, which the text holds exactly.
- Full parseInt semantics for the answer box: the parsed answer is an `Option<int>`.
- The flash animation and the reflow trick: presentation only.
- The 1.5 s timer: the advance is an explicit call or a `Tick` event.
- Math.random: the random values are parameters in [0, 1).
- alert and throw: an error result.
- Event-listener wiring: `Select`, `Press` and `Tick` events stand for the buttons, submissions and timer.
- The initial counter values, which come from the page's markup: the start state has both at zero.
- Double precision of script numbers: every operand, product and quotient here is an integer of at most 625, which a double holds exactly; the random product `r * 25` is not, and the page rounds it to a double before flooring while `Questions.Draw` floors the exact real product, so the two can differ when r lies within one rounding step of a multiple of 1/25. Either way the draw lies in [1, 25], since even the largest random value gives 24 before the 1 is added.
- Several pending advances at once: `pending` holds one, so after repeated Enter presses only the last scheduled advance is modelled.
