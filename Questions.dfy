/**
 * The arithmetic of one quiz round: drawing the operands, turning them into
 * the displayed question for each game type, the operator symbols and game
 * type names, and the correct answer computed from a displayed question.
 */
module Questions {
  import opened Wrappers

  /** The four game types. */
  datatype Op = Add | Subtract | Multiply | Divide

  /** Why a round is aborted (an alert followed by a throw on the page). */
  datatype Error =
    | UnknownGameType(gameType: string)
    | UnknownOperator(operator: string)

  /** A question as the page shows it: two operands and an operator symbol. */
  datatype Question = Question(operand1: int, operand2: int, operator: string)

  /**
   * The pair computed from a displayed question: the answer as a script
   * number (None stands for NaN or an infinity, which is not an integer)
   * and the game type name.
   */
  datatype Answer = Answer(value: Option<int>, gameType: string)

  /** Operands are drawn from 1 to MaxOperand inclusive. */
  const MaxOperand: int := 25

  predicate InRange(n: int) {
    1 <= n <= MaxOperand
  }

  /** A value of the random generator, in [0, 1). */
  predicate ValidDraw(r: real) {
    0.0 <= r < 1.0
  }

  /** One operand draw: floor(r * 25) + 1 for a random r in [0, 1). */
  function Draw(r: real): (n: int)
    requires ValidDraw(r)
    ensures InRange(n)
  {
    (r * (MaxOperand as real)).Floor + 1
  }

  /** Every operand in range is the draw of some random value. */
  lemma DrawCoversRange(n: int)
    requires InRange(n)
    ensures ValidDraw((n - 1) as real / MaxOperand as real)
    ensures Draw((n - 1) as real / MaxOperand as real) == n
  {
    var r := (n - 1) as real / MaxOperand as real;
    assert r * MaxOperand as real == (n - 1) as real;
  }

  /** The game type name a button carries. */
  function GameTypeName(op: Op): string {
    match op
    case Add => "addition"
    case Subtract => "subtract"
    case Multiply => "multiply"
    case Divide => "division"
  }

  /** The dispatch on the game type name when a round starts. */
  function ParseGameType(gameType: string): Result<Op, Error> {
    if gameType == "addition" then Ok(Add)
    else if gameType == "subtract" then Ok(Subtract)
    else if gameType == "multiply" then Ok(Multiply)
    else if gameType == "division" then Ok(Divide)
    else Err(UnknownGameType(gameType))
  }

  /** The operator symbol each display function writes. */
  function SymbolOf(op: Op): string {
    match op
    case Add => "+"
    case Subtract => "-"
    case Multiply => "×"
    case Divide => "÷"
  }

  /** The switch that recovers the game type from the displayed operator. */
  function OpOfSymbol(operator: string): Result<Op, Error> {
    match operator
    case "+" => Ok(Add)
    case "-" => Ok(Subtract)
    case "×" => Ok(Multiply)
    case "÷" => Ok(Divide)
    case _ => Err(UnknownOperator(operator))
  }

  /** Game type names and the dispatch are inverse to each other. */
  lemma GameTypeRoundTrip(op: Op, gameType: string)
    ensures ParseGameType(gameType) == Ok(op) <==> gameType == GameTypeName(op)
  {
  }

  /** A name that is none of the four is rejected, naming itself. */
  lemma UnknownGameTypeRejected(gameType: string)
    ensures ParseGameType(gameType).Err? <==> forall op: Op :: gameType != GameTypeName(op)
    ensures ParseGameType(gameType).Err? ==> ParseGameType(gameType).error == UnknownGameType(gameType)
  {
    if ParseGameType(gameType).Ok? {
      GameTypeRoundTrip(ParseGameType(gameType).value, gameType);
    }
  }

  /** The symbol written for a game type maps back to that game type, and only it does. */
  lemma SymbolRoundTrip(op: Op, operator: string)
    ensures OpOfSymbol(operator) == Ok(op) <==> operator == SymbolOf(op)
  {
  }

  /**
   * The operand transform of each display function: addition and
   * multiplication show the draws, subtraction swaps them when the first is
   * smaller, division shows the product of the draws as the dividend.
   */
  function BuildQuestion(op: Op, num1: int, num2: int): Question {
    match op
    case Add => Question(num1, num2, SymbolOf(Add))
    case Subtract =>
      if num1 < num2 then Question(num2, num1, SymbolOf(Subtract))
      else Question(num1, num2, SymbolOf(Subtract))
    case Multiply => Question(num1, num2, SymbolOf(Multiply))
    case Divide => Question(num1 * num2, num2, SymbolOf(Divide))
  }

  /** Math.floor(a / b) on script numbers; dividing by zero gives no integer. */
  function JsFloorDiv(a: int, b: int): Option<int> {
    if b == 0 then None else Some((a as real / b as real).Floor)
  }

  /** For a positive divisor the floor of the quotient is integer division. */
  lemma FloorDivPositive(a: int, b: int)
    requires b > 0
    ensures JsFloorDiv(a, b) == Some(a / b)
  {
    var q, r := a / b, a % b;
    assert a == b * q + r && 0 <= r < b;
    var x := a as real / b as real;
    assert x == q as real + r as real / b as real;
    assert 0.0 <= r as real / b as real < 1.0;
  }

  /** The answer to a displayed question, read back from its operands and operator. */
  function CorrectAnswer(q: Question): Result<Answer, Error> {
    if q.operator == "+" then Ok(Answer(Some(q.operand1 + q.operand2), "addition"))
    else if q.operator == "-" then Ok(Answer(Some(q.operand1 - q.operand2), "subtract"))
    else if q.operator == "×" then Ok(Answer(Some(q.operand1 * q.operand2), "multiply"))
    else if q.operator == "÷" then Ok(Answer(JsFloorDiv(q.operand1, q.operand2), "division"))
    else Err(UnknownOperator(q.operator))
  }

  /**
   * The answer computation accepts exactly the operators the game type
   * switch knows, and names the same game type.
   */
  lemma AnswerAgreesWithSwitch(q: Question)
    ensures CorrectAnswer(q).Ok? <==> OpOfSymbol(q.operator).Ok?
    ensures CorrectAnswer(q).Ok? ==>
      CorrectAnswer(q).value.gameType == GameTypeName(OpOfSymbol(q.operator).value)
    ensures CorrectAnswer(q).Err? ==> CorrectAnswer(q).error == UnknownOperator(q.operator)
  {
  }

  /** The answer the question of a game type is meant to have, in terms of the draws. */
  function IntendedAnswer(op: Op, num1: int, num2: int): int {
    match op
    case Add => num1 + num2
    case Subtract => if num1 < num2 then num2 - num1 else num1 - num2
    case Multiply => num1 * num2
    case Divide => num1
  }

  /** Addition and multiplication show the draws unchanged; the answer is their sum or product. */
  lemma UnchangedOperands(op: Op, num1: int, num2: int)
    requires op == Add || op == Multiply
    ensures BuildQuestion(op, num1, num2).operand1 == num1
    ensures BuildQuestion(op, num1, num2).operand2 == num2
    ensures CorrectAnswer(BuildQuestion(op, num1, num2)) ==
      Ok(Answer(Some(if op == Add then num1 + num2 else num1 * num2), GameTypeName(op)))
  {
  }

  /**
   * A subtraction question never has a negative answer: the first operand is
   * at least the second, the operands are the draws in some order, and the
   * answer lies in [0, 24].
   */
  lemma SubtractionNonNegative(num1: int, num2: int)
    requires InRange(num1) && InRange(num2)
    ensures var q := BuildQuestion(Subtract, num1, num2);
      && q.operand1 >= q.operand2
      && multiset{q.operand1, q.operand2} == multiset{num1, num2}
      && CorrectAnswer(q) == Ok(Answer(Some(q.operand1 - q.operand2), "subtract"))
      && 0 <= q.operand1 - q.operand2 <= MaxOperand - 1
  {
  }

  /** A positive number times a nonzero integer is at least that number in size. */
  lemma ScaledAway(b: int, k: int)
    requires b > 0
    ensures k >= 1 ==> b * k >= b
    ensures k <= -1 ==> b * k <= -b
  {
    if k >= 1 {
      assert b * k == b + b * (k - 1);
    } else if k <= -1 {
      assert b * k == -b + b * (k + 1);
    }
  }

  /** A product divided by one of its positive factors leaves the other and no remainder. */
  lemma ProductDivides(q: int, b: int)
    requires b > 0
    ensures (q * b) / b == q && (q * b) % b == 0
  {
    var d, r := (q * b) / b, (q * b) % b;
    var k := q - d;
    assert b * k == r by {
      assert q * b == b * d + r;
      assert b * k == b * q - b * d;
    }
    ScaledAway(b, k);
  }

  /**
   * A division question divides the product of the draws by the second draw:
   * the divisor is at least 1, the dividend is a multiple of it, and the
   * answer is exactly the first draw.
   */
  lemma DivisionExact(num1: int, num2: int)
    requires InRange(num1) && InRange(num2)
    ensures var q := BuildQuestion(Divide, num1, num2);
      && q.operand1 == num1 * num2
      && q.operand2 == num2 >= 1
      && q.operand1 % q.operand2 == 0
      && CorrectAnswer(q) == Ok(Answer(Some(num1), "division"))
  {
    var dividend := num1 * num2;
    ProductDivides(num1, num2);
    FloorDivPositive(dividend, num2);
    assert JsFloorDiv(dividend, num2) == Some(num1);
  }

  /**
   * The question built for any game type from in-range draws carries that
   * game type's symbol and has the intended integer answer.
   */
  lemma BuiltQuestionAnswer(op: Op, num1: int, num2: int)
    requires InRange(num1) && InRange(num2)
    ensures OpOfSymbol(BuildQuestion(op, num1, num2).operator) == Ok(op)
    ensures CorrectAnswer(BuildQuestion(op, num1, num2)) ==
      Ok(Answer(Some(IntendedAnswer(op, num1, num2)), GameTypeName(op)))
  {
    match op
    case Add => UnchangedOperands(op, num1, num2);
    case Subtract => SubtractionNonNegative(num1, num2);
    case Multiply => UnchangedOperands(op, num1, num2);
    case Divide => DivisionExact(num1, num2);
  }

  /** The questions a round can display: all operands come from in-range draws. */
  predicate Generated(q: Question) {
    match OpOfSymbol(q.operator)
    case Err(_) => false
    case Ok(op) =>
      match op
      case Add => InRange(q.operand1) && InRange(q.operand2)
      case Subtract => InRange(q.operand1) && InRange(q.operand2) && q.operand1 >= q.operand2
      case Multiply => InRange(q.operand1) && InRange(q.operand2)
      case Divide =>
        InRange(q.operand2) && q.operand1 % q.operand2 == 0 && InRange(q.operand1 / q.operand2)
  }

  /** Every question built from in-range draws is a generated one. */
  lemma BuiltIsGenerated(op: Op, num1: int, num2: int)
    requires InRange(num1) && InRange(num2)
    ensures Generated(BuildQuestion(op, num1, num2))
  {
    if op == Divide {
      ProductDivides(num1, num2);
      var dividend := num1 * num2;
      assert dividend % num2 == 0 && InRange(dividend / num2);
    }
  }

  /** Every generated question is the one built from some in-range draws. */
  lemma GeneratedHasDraws(q: Question) returns (op: Op, num1: int, num2: int)
    requires Generated(q)
    ensures InRange(num1) && InRange(num2)
    ensures BuildQuestion(op, num1, num2) == q
  {
    op := OpOfSymbol(q.operator).value;
    SymbolRoundTrip(op, q.operator);
    if op == Divide {
      num1, num2 := q.operand1 / q.operand2, q.operand2;
      assert q.operand1 == q.operand2 * (q.operand1 / q.operand2) + q.operand1 % q.operand2;
    } else {
      num1, num2 := q.operand1, q.operand2;
    }
  }

  /** A generated question always has an integer answer. */
  lemma GeneratedHasIntegerAnswer(q: Question)
    requires Generated(q)
    ensures CorrectAnswer(q).Ok? && CorrectAnswer(q).value.value.Some?
  {
    var op, num1, num2 := GeneratedHasDraws(q);
    BuiltQuestionAnswer(op, num1, num2);
  }
}
