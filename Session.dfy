/**
 * The quiz page's state as a value, and the transitions of a session:
 * starting a round for a game type, grading a submitted answer, and the
 * delayed advance to the next round of the same game type.
 */
module Session {
  import opened Wrappers
  import opened Questions

  /** The feedback line under the question. */
  datatype Feedback = Blank | Correct | Wrong(shown: Option<int>)

  /**
   * Everything the quiz keeps between events: the displayed question, the
   * two counters, whether submit is enabled, the feedback line, and the game
   * type of the advance scheduled after grading (None when none is pending).
   */
  datatype State = State(
    question: Question,
    score: nat,
    incorrect: nat,
    submitEnabled: bool,
    feedback: Feedback,
    pending: Option<Op>)

  /** The state after an event, and the error that aborted it, if any. */
  datatype Transition = Transition(next: State, failure: Option<Error>)

  /** The number of graded answers. */
  function Total(s: State): nat {
    s.score + s.incorrect
  }

  /** Strict equality of two script numbers: NaN equals nothing, itself included. */
  predicate StrictEquals(x: Option<int>, y: Option<int>) {
    x.Some? && y.Some? && x.value == y.value
  }

  /** The page after loading: both counters zero and an addition question. */
  function Start(r1: real, r2: real): State
    requires ValidDraw(r1) && ValidDraw(r2)
  {
    State(BuildQuestion(Add, Draw(r1), Draw(r2)), 0, 0, true, Blank, None)
  }

  /**
   * Starting a round: clear the feedback, draw two operands, and display the
   * question of the named game type; an unknown name aborts after the
   * feedback was cleared and leaves the question as it was.
   */
  function RunGame(s: State, gameType: string, r1: real, r2: real): Transition
    requires ValidDraw(r1) && ValidDraw(r2)
  {
    var cleared := s.(feedback := Blank);
    match ParseGameType(gameType)
    case Ok(op) => Transition(cleared.(question := BuildQuestion(op, Draw(r1), Draw(r2))), None)
    case Err(e) => Transition(cleared, Some(e))
  }

  /**
   * Grading as the page's checkAnswer does it: disable submit, compute the
   * correct answer from the displayed question, increment one counter, show
   * the feedback and schedule the advance for the displayed game type. An
   * unknown operator aborts after submit was disabled. Nothing here looks at
   * whether submit was enabled.
   */
  function CheckAnswer(s: State, answer: Option<int>): Transition {
    var locked := s.(submitEnabled := false);
    match CorrectAnswer(s.question)
    case Err(e) => Transition(locked, Some(e))
    case Ok(computed) =>
      AnswerAgreesWithSwitch(s.question);
      var graded :=
        if StrictEquals(answer, computed.value) then locked.(score := s.score + 1, feedback := Correct)
        else locked.(incorrect := s.incorrect + 1, feedback := Wrong(computed.value));
      Transition(graded.(pending := Some(OpOfSymbol(s.question.operator).value)), None)
  }

  /** A submission: graded only while submit is enabled, ignored otherwise. */
  function Submit(s: State, answer: Option<int>): Transition {
    if s.submitEnabled then CheckAnswer(s, answer) else Transition(s, None)
  }

  /**
   * The scheduled advance: clear the feedback, start a round of the game
   * type captured at grading, and re-enable submit once that round started.
   */
  function Advance(s: State, r1: real, r2: real): Transition
    requires s.pending.Some?
    requires ValidDraw(r1) && ValidDraw(r2)
  {
    var fired := s.(feedback := Blank, pending := None);
    var ran := RunGame(fired, GameTypeName(s.pending.value), r1, r2);
    if ran.failure.None? then Transition(ran.next.(submitEnabled := true), None) else ran
  }

  /**
   * The states a session can reach: a generated question is displayed, and
   * submit is enabled exactly when no advance is pending.
   */
  predicate WellFormed(s: State) {
    Generated(s.question) && (s.submitEnabled <==> s.pending.None?)
  }

  /** A session starts well formed, with nothing graded, on an addition question. */
  lemma StartWellFormed(r1: real, r2: real)
    requires ValidDraw(r1) && ValidDraw(r2)
    ensures WellFormed(Start(r1, r2))
    ensures Total(Start(r1, r2)) == 0 && Start(r1, r2).submitEnabled
    ensures OpOfSymbol(Start(r1, r2).question.operator) == Ok(Add)
  {
    BuiltIsGenerated(Add, Draw(r1), Draw(r2));
  }

  /**
   * Starting a round never touches the counters, submit or the pending
   * advance; it fails exactly for an unknown game type, and then no new
   * question is shown; otherwise the new question is a generated one of the
   * named game type.
   */
  lemma RunGameOutcome(s: State, gameType: string, r1: real, r2: real)
    requires ValidDraw(r1) && ValidDraw(r2)
    ensures var t := RunGame(s, gameType, r1, r2);
      && t.next.score == s.score && t.next.incorrect == s.incorrect
      && t.next.submitEnabled == s.submitEnabled && t.next.pending == s.pending
      && t.next.feedback == Blank
      && (t.failure.None? <==> ParseGameType(gameType).Ok?)
      && (t.failure.Some? ==>
            t.failure == Some(UnknownGameType(gameType)) && t.next.question == s.question)
      && (t.failure.None? ==>
            Generated(t.next.question) && OpOfSymbol(t.next.question.operator) == ParseGameType(gameType))
  {
    match ParseGameType(gameType)
    case Ok(op) =>
      BuiltIsGenerated(op, Draw(r1), Draw(r2));
      BuiltQuestionAnswer(op, Draw(r1), Draw(r2));
    case Err(_) =>
      UnknownGameTypeRejected(gameType);
  }

  /** Starting a round keeps a session well formed. */
  lemma RunGameWellFormed(s: State, gameType: string, r1: real, r2: real)
    requires ValidDraw(r1) && ValidDraw(r2)
    requires WellFormed(s)
    ensures WellFormed(RunGame(s, gameType, r1, r2).next)
  {
    RunGameOutcome(s, gameType, r1, r2);
  }

  /**
   * Grading a displayed question never fails, disables submit, schedules an
   * advance of the displayed game type, and increments exactly one counter:
   * the score exactly when the answer is the correct one, the mistakes
   * otherwise.
   */
  lemma CheckAnswerGradesOnce(s: State, answer: Option<int>)
    requires Generated(s.question)
    ensures CorrectAnswer(s.question).Ok? && CorrectAnswer(s.question).value.value.Some?
    ensures var t := CheckAnswer(s, answer);
      var expected := CorrectAnswer(s.question).value.value;
      && t.failure.None?
      && !t.next.submitEnabled
      && t.next.pending == Some(OpOfSymbol(s.question.operator).value)
      && t.next.question == s.question
      && Total(t.next) == Total(s) + 1
      && (answer == expected <==>
            t.next.score == s.score + 1 && t.next.incorrect == s.incorrect && t.next.feedback == Correct)
      && (answer != expected <==>
            t.next.incorrect == s.incorrect + 1 && t.next.score == s.score && t.next.feedback == Wrong(expected))
  {
    GeneratedHasIntegerAnswer(s.question);
  }

  /** An answer that does not parse is never correct. */
  lemma UnparseableIsWrong(s: State)
    requires WellFormed(s) && s.submitEnabled
    ensures Submit(s, None).next.incorrect == s.incorrect + 1
    ensures Submit(s, None).next.score == s.score
  {
    CheckAnswerGradesOnce(s, None);
  }

  /** Submitting the computed answer always scores. */
  lemma ComputedAnswerScores(s: State)
    requires WellFormed(s) && s.submitEnabled
    ensures CorrectAnswer(s.question).Ok?
    ensures Submit(s, CorrectAnswer(s.question).value.value).next.score == s.score + 1
    ensures Submit(s, CorrectAnswer(s.question).value.value).next.incorrect == s.incorrect
  {
    CheckAnswerGradesOnce(s, CorrectAnswer(s.question).value.value);
  }

  /**
   * A submission keeps a session well formed; while submit is disabled it
   * changes nothing, so a second submission before the advance is ignored.
   */
  lemma SubmitWellFormed(s: State, answer: Option<int>)
    requires WellFormed(s)
    ensures WellFormed(Submit(s, answer).next)
    ensures Submit(s, answer).failure.None?
    ensures !Submit(s, answer).next.submitEnabled
    ensures !s.submitEnabled ==> Submit(s, answer).next == s
  {
    if s.submitEnabled {
      CheckAnswerGradesOnce(s, answer);
    }
  }

  /**
   * The advance never fails: it generates a question of the game type
   * captured at grading, clears the feedback, re-enables submit, and leaves
   * the counters alone.
   */
  lemma AdvanceOutcome(s: State, r1: real, r2: real)
    requires s.pending.Some?
    requires ValidDraw(r1) && ValidDraw(r2)
    ensures var t := Advance(s, r1, r2);
      && t.failure.None?
      && Generated(t.next.question)
      && OpOfSymbol(t.next.question.operator) == Ok(s.pending.value)
      && t.next.submitEnabled && t.next.pending.None? && t.next.feedback == Blank
      && t.next.score == s.score && t.next.incorrect == s.incorrect
      && WellFormed(t.next)
  {
    var name := GameTypeName(s.pending.value);
    GameTypeRoundTrip(s.pending.value, name);
    RunGameOutcome(s.(feedback := Blank, pending := None), name, r1, r2);
  }

  /** The grading and the advance together stay on one game type. */
  lemma NextRoundSameGameType(s: State, answer: Option<int>, r1: real, r2: real)
    requires WellFormed(s) && s.submitEnabled
    requires ValidDraw(r1) && ValidDraw(r2)
    ensures Submit(s, answer).next.pending.Some?
    ensures var next := Advance(Submit(s, answer).next, r1, r2).next;
      OpOfSymbol(next.question.operator) == OpOfSymbol(s.question.operator)
      && next.submitEnabled && Total(next) == Total(s) + 1
  {
    CheckAnswerGradesOnce(s, answer);
    AdvanceOutcome(Submit(s, answer).next, r1, r2);
  }

  /**
   * What can happen on the page: a game type button (any button but submit,
   * which is a submission), a submission, the advance timer.
   */
  datatype Event =
    | Select(gameType: string, r1: real, r2: real)
    | Press(answer: Option<int>)
    | Tick(r1: real, r2: real)

  predicate EventValid(e: Event) {
    match e
    case Select(gameType, r1, r2) => gameType != "submit" && ValidDraw(r1) && ValidDraw(r2)
    case Press(_) => true
    case Tick(r1, r2) => ValidDraw(r1) && ValidDraw(r2)
  }

  predicate EventsValid(events: seq<Event>) {
    forall i :: 0 <= i < |events| ==> EventValid(events[i])
  }

  /** One event's effect on the session; a tick with no advance pending does nothing. */
  function Step(s: State, e: Event): State
    requires EventValid(e)
  {
    match e
    case Select(gameType, r1, r2) => RunGame(s, gameType, r1, r2).next
    case Press(answer) => Submit(s, answer).next
    case Tick(r1, r2) => if s.pending.Some? then Advance(s, r1, r2).next else s
  }

  /**
   * A session after a sequence of events; an aborted event keeps the effects
   * made before the throw, and the later events still apply.
   */
  function Run(s: State, events: seq<Event>): State
    requires EventsValid(events)
    decreases |events|
  {
    if events == [] then s else Run(Step(s, events[0]), events[1..])
  }

  /** The number of timer ticks in a sequence of events that find an advance pending. */
  function Fired(s: State, events: seq<Event>): nat
    requires EventsValid(events)
    decreases |events|
  {
    if events == [] then 0
    else (if events[0].Tick? && s.pending.Some? then 1 else 0) + Fired(Step(s, events[0]), events[1..])
  }

  function Enabled(s: State): nat {
    if s.submitEnabled then 1 else 0
  }

  /**
   * Over any sequence of events a session stays well formed, no counter
   * ever decreases, and exactly one answer is graded per round: the graded
   * answers plus the enabled submit grow by exactly the advances that fired.
   */
  lemma {:induction false} AtMostOneGradePerRound(s: State, events: seq<Event>)
    requires WellFormed(s) && EventsValid(events)
    ensures WellFormed(Run(s, events))
    ensures Run(s, events).score >= s.score && Run(s, events).incorrect >= s.incorrect
    ensures Total(Run(s, events)) + Enabled(Run(s, events)) == Total(s) + Enabled(s) + Fired(s, events)
    decreases |events|
  {
    if events != [] {
      var e := events[0];
      assert EventValid(e);
      match e {
        case Select(gameType, r1, r2) => RunGameOutcome(s, gameType, r1, r2);
        case Press(answer) =>
          SubmitWellFormed(s, answer);
          if s.submitEnabled {
            CheckAnswerGradesOnce(s, answer);
          }
        case Tick(r1, r2) =>
          if s.pending.Some? {
            AdvanceOutcome(s, r1, r2);
          }
      }
      var rest := events[1..];
      assert EventsValid(rest) by {
        forall i | 0 <= i < |rest| ensures EventValid(rest[i]) {
          assert rest[i] == events[i + 1];
        }
      }
      AtMostOneGradePerRound(Step(s, e), rest);
    }
  }

  /**
   * As written, grading does not check that submit is enabled, and the Enter
   * key calls it directly: two presses within the dwell grade the same
   * question twice.
   */
  lemma EnterTwiceGradesTwice(s: State, answer: Option<int>)
    requires WellFormed(s) && s.submitEnabled
    ensures var once := CheckAnswer(s, answer).next;
      && !once.submitEnabled
      && once.question == s.question
      && Total(CheckAnswer(once, answer).next) == Total(s) + 2
  {
    CheckAnswerGradesOnce(s, answer);
    CheckAnswerGradesOnce(CheckAnswer(s, answer).next, answer);
  }

  /** With the enabled check, a second submission before the advance grades nothing. */
  lemma SubmitTwiceGradesOnce(s: State, a: Option<int>, b: Option<int>)
    requires WellFormed(s) && s.submitEnabled
    ensures Total(Submit(Submit(s, a).next, b).next) == Total(s) + 1
  {
    CheckAnswerGradesOnce(s, a);
    SubmitWellFormed(Submit(s, a).next, b);
  }

  /**
   * The documented rounds: 7 + 3 answered 10 scores; a subtraction drawn
   * (4, 9) shows 9 - 4; a division drawn (6, 4) shows 24 ÷ 4; an unparseable
   * answer counts as a mistake; an unknown game type shows no question.
   */
  lemma DocumentedScenarios()
    ensures var s := Start(6.0 / 25.0, 2.0 / 25.0);
      && s.question == Question(7, 3, "+")
      && CorrectAnswer(s.question) == Ok(Answer(Some(10), "addition"))
      && Submit(s, Some(10)).next.score == 1 && Submit(s, Some(10)).next.incorrect == 0
      && Submit(s, None).next.score == 0 && Submit(s, None).next.incorrect == 1
      && RunGame(s, "unknown", 0.0, 0.0).failure == Some(UnknownGameType("unknown"))
      && RunGame(s, "unknown", 0.0, 0.0).next.question == s.question
    ensures BuildQuestion(Subtract, 4, 9) == Question(9, 4, "-")
    ensures CorrectAnswer(Question(9, 4, "-")).value.value == Some(5)
    ensures BuildQuestion(Divide, 6, 4) == Question(24, 4, "÷")
    ensures CorrectAnswer(Question(24, 4, "÷")).value.value == Some(6)
  {
    DrawCoversRange(7);
    DrawCoversRange(3);
    DivisionExact(6, 4);
  }
}
