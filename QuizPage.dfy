/**
 * The quiz page as an object whose fields the event handlers update in
 * place; each method is proved to have the effect of the matching
 * transition of Session.
 */
module QuizPage {
  import opened Wrappers
  import opened Questions
  import Session

  class Quiz {
    var question: Question
    var score: nat
    var incorrect: nat
    var submitEnabled: bool
    var feedback: Session.Feedback
    var pending: Option<Op>

    /** The page state these fields hold. */
    function Model(): Session.State
      reads this
    {
      Session.State(question, score, incorrect, submitEnabled, feedback, pending)
    }

    /** Loading the page: zero counters, then a round of addition. */
    constructor (r1: real, r2: real)
      requires ValidDraw(r1) && ValidDraw(r2)
      ensures Model() == Session.Start(r1, r2)
    {
      question := Question(0, 0, "");
      score, incorrect := 0, 0;
      submitEnabled := true;
      feedback := Session.Blank;
      pending := None;
      new;
      var failure := RunGame("addition", r1, r2);
    }

    /** Adds one to the score. */
    method IncrementScore()
      modifies this
      ensures Model() == old(Model()).(score := old(score) + 1)
    {
      var oldScore := score;
      oldScore := oldScore + 1;
      score := oldScore;
    }

    /** Adds one to the tally of mistakes. */
    method IncrementWrongAnswer()
      modifies this
      ensures Model() == old(Model()).(incorrect := old(incorrect) + 1)
    {
      var oldIncorrect := incorrect;
      oldIncorrect := oldIncorrect + 1;
      incorrect := oldIncorrect;
    }

    /** Starts a round of the named game type from two random values. */
    method RunGame(gameType: string, r1: real, r2: real) returns (failure: Option<Error>)
      requires ValidDraw(r1) && ValidDraw(r2)
      modifies this
      ensures Session.RunGame(old(Model()), gameType, r1, r2) == Session.Transition(Model(), failure)
    {
      feedback := Session.Blank;
      var num1 := Draw(r1);
      var num2 := Draw(r2);
      var parsed := ParseGameType(gameType);
      match parsed {
        case Ok(op) =>
          question := BuildQuestion(op, num1, num2);
          failure := None;
        case Err(e) =>
          failure := Some(e);
      }
    }

    /** Grades the parsed answer box against the displayed question. */
    method CheckAnswer(answer: Option<int>) returns (failure: Option<Error>)
      modifies this
      ensures Session.CheckAnswer(old(Model()), answer) == Session.Transition(Model(), failure)
    {
      submitEnabled := false;
      var computed := CorrectAnswer(question);
      if computed.Err? {
        return Some(computed.error);
      }
      var isCorrect := Session.StrictEquals(answer, computed.value.value);
      if isCorrect {
        feedback := Session.Correct;
        IncrementScore();
      } else {
        feedback := Session.Wrong(computed.value.value);
        IncrementWrongAnswer();
      }
      AnswerAgreesWithSwitch(question);
      var gameType := OpOfSymbol(question.operator);
      pending := Some(gameType.value);
      failure := None;
    }

    /** A press of the submit button, which a disabled button does not deliver. */
    method Submit(answer: Option<int>) returns (failure: Option<Error>)
      modifies this
      ensures Session.Submit(old(Model()), answer) == Session.Transition(Model(), failure)
    {
      if submitEnabled {
        failure := CheckAnswer(answer);
      } else {
        failure := None;
      }
    }

    /** The scheduled advance after the dwell: next round, submit enabled again. */
    method Advance(r1: real, r2: real) returns (failure: Option<Error>)
      requires pending.Some?
      requires ValidDraw(r1) && ValidDraw(r2)
      modifies this
      ensures Session.Advance(old(Model()), r1, r2) == Session.Transition(Model(), failure)
    {
      var gameType := GameTypeName(pending.value);
      feedback := Session.Blank;
      pending := None;
      failure := RunGame(gameType, r1, r2);
      if failure.None? {
        submitEnabled := true;
      }
    }
  }
}
