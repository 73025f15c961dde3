/** The problem generator of the quiz (`generateProblem` in script.js).

    A difficulty selects the operators a problem may use and the stage shown to
    the players; then one operator and two operands are drawn. Every draw of
    the source, `Math.floor(Math.random() * n) + k`, is a uniform choice in
    `[k, k + n)`; here the choices are the integers of a `Draws` value, each
    counted from 0, so that generation is a total function of the difficulty
    and the draws. */
module Problems {
  import opened Wrappers
  import opened Decimal

  datatype Op = Plus | Minus | Times | Divide

  /** One problem: `num1 op num2 = ?` with the expected `answer`. */
  datatype Problem = Problem(num1: int, num2: int, op: Op, answer: int)

  /** The three random choices behind one problem: which of the allowed
      operators, and the two operand draws, each counted from 0. */
  datatype Draws = Draws(pick: int, first: int, second: int)

  /** The problem the session holds before the first one is generated. */
  const Initial := Problem(0, 0, Plus, 0)

  /** The text of the operator in the display; each symbol is one character. */
  function Symbol(op: Op): string {
    match op
    case Plus => "+"
    case Minus => "-"
    case Times => "×"
    case Divide => "÷"
  }

  /** The operators a difficulty allows, in the order the source lists them;
      anything but the four known names falls back to addition only. */
  function Operators(difficulty: string): (ops: seq<Op>)
    ensures |ops| >= 1 && ops[0] == Plus
  {
    if difficulty == "easy" then [Plus]
    else if difficulty == "medium" then [Plus, Minus]
    else if difficulty == "hard" then [Plus, Minus, Times]
    else if difficulty == "expert" then [Plus, Minus, Times, Divide]
    else [Plus]
  }

  /** The stage after generating a problem: set by a known difficulty, left as
      it was by an unknown one. */
  function StageFor(difficulty: string, stage: int): int {
    if difficulty == "easy" then 1
    else if difficulty == "medium" then 2
    else if difficulty == "hard" then 3
    else if difficulty == "expert" then 4
    else stage
  }

  predicate IsKnown(difficulty: string) {
    difficulty in {"easy", "medium", "hard", "expert"}
  }

  /** The difficulties are nested: each allows the operators of the one below
      it and one more, in the order addition, subtraction, multiplication,
      division, and its stage is the number of operators it allows. An unknown
      difficulty allows addition alone and keeps the stage it found. */
  lemma DifficultyLadder(difficulty: string, stage: int)
    ensures Operators(difficulty) <= [Plus, Minus, Times, Divide]
    ensures IsKnown(difficulty) ==> StageFor(difficulty, stage) == |Operators(difficulty)|
    ensures !IsKnown(difficulty) ==> StageFor(difficulty, stage) == stage && Operators(difficulty) == [Plus]
    ensures 1 <= |Operators(difficulty)| <= 4
  {
  }

  /** How many values each operand draw ranges over, given the operator. The
      second subtraction operand is drawn below `num1 - 1`, where
      `num1 = first + 5`. */
  predicate OperandDrawsFit(op: Op, first: int, second: int) {
    match op
    case Plus => 0 <= first < 15 && 0 <= second < 15
    case Minus => 0 <= first < 15 && 0 <= second < (first + 5) - 1
    case Times => 0 <= first < 10 && 0 <= second < 10
    case Divide => 0 <= first < 10 && 0 <= second < 10
  }

  /** The draws a random source can produce for this difficulty. */
  predicate DrawsFit(difficulty: string, d: Draws) {
    0 <= d.pick < |Operators(difficulty)| &&
    OperandDrawsFit(Operators(difficulty)[d.pick], d.first, d.second)
  }

  /** The operator-specific part of the generator. For division the first
      draw is the divisor and the second the quotient, which is the answer. */
  function MakeProblem(op: Op, first: int, second: int): Problem {
    match op
    case Plus =>
      var num1 := first + 1;
      var num2 := second + 1;
      Problem(num1, num2, Plus, num1 + num2)
    case Minus =>
      var num1 := first + 5;
      var num2 := second + 1;
      Problem(num1, num2, Minus, num1 - num2)
    case Times =>
      var num1 := first + 2;
      var num2 := second + 2;
      Problem(num1, num2, Times, num1 * num2)
    case Divide =>
      var divisor := first + 2;
      var answer := second + 2;
      Problem(divisor * answer, divisor, Divide, answer)
  }

  /** The answer is the true result of the operation; for division the
      division is exact. */
  predicate Correct(p: Problem) {
    match p.op
    case Plus => p.answer == p.num1 + p.num2
    case Minus => p.answer == p.num1 - p.num2
    case Times => p.answer == p.num1 * p.num2
    case Divide => p.num2 != 0 && p.num1 % p.num2 == 0 && p.answer == p.num1 / p.num2
  }

  /** The operand ranges the generator keeps to, operator by operator. */
  predicate InRange(p: Problem) {
    match p.op
    case Plus => 1 <= p.num1 <= 15 && 1 <= p.num2 <= 15
    case Minus => 5 <= p.num1 <= 19 && 1 <= p.num2 <= p.num1 - 1
    case Times => 2 <= p.num1 <= 11 && 2 <= p.num2 <= 11
    case Divide => 2 <= p.num2 <= 11 && 2 <= p.answer <= 11 && p.num1 == p.num2 * p.answer
  }

  /** The problems a difficulty can produce, described without the draws. */
  predicate Possible(difficulty: string, p: Problem) {
    p.op in Operators(difficulty) && InRange(p) && Correct(p)
  }

  lemma ExactDivision(divisor: int, quotient: int)
    requires divisor > 0
    ensures (divisor * quotient) % divisor == 0
    ensures (divisor * quotient) / divisor == quotient
  {
    var n := divisor * quotient;
    var q, r := n / divisor, n % divisor;
    assert n == divisor * q + r && 0 <= r < divisor;
    assert divisor * (quotient - q) == r;
    ScaleBound(divisor, quotient - q);
  }

  lemma ScaleBound(a: int, b: int)
    requires a > 0
    ensures b >= 1 ==> a * b >= a
    ensures b <= -1 ==> a * b <= -a
  {
  }

  /** One problem from the difficulty and the draws: its operator is one the
      difficulty allows, its operands keep to the ranges, subtraction stays
      positive and division is exact. */
  function Generate(difficulty: string, d: Draws): (p: Problem)
    requires DrawsFit(difficulty, d)
    ensures Possible(difficulty, p)
    ensures p.op == Minus ==> p.answer >= 1
    ensures p.op == Divide ==> p.num1 % p.num2 == 0 && p.num1 / p.num2 == p.answer
  {
    var op := Operators(difficulty)[d.pick];
    var p := MakeProblem(op, d.first, d.second);
    ExactDivision(d.first + 2, d.second + 2);
    p
  }

  /** The draws that make `Generate` produce a given possible problem. */
  function DrawsOf(difficulty: string, p: Problem): Draws
    requires Possible(difficulty, p)
  {
    var pick := IndexOf(Operators(difficulty), p.op);
    match p.op
    case Plus => Draws(pick, p.num1 - 1, p.num2 - 1)
    case Minus => Draws(pick, p.num1 - 5, p.num2 - 1)
    case Times => Draws(pick, p.num1 - 2, p.num2 - 2)
    case Divide => Draws(pick, p.num2 - 2, p.answer - 2)
  }

  function IndexOf(ops: seq<Op>, op: Op): (i: nat)
    requires op in ops
    ensures i < |ops| && ops[i] == op
  {
    if ops[0] == op then 0 else 1 + IndexOf(ops[1..], op)
  }

  /** Every possible problem is generated, by exactly the draws `DrawsOf`
      gives: the generator reaches all of `Possible` and nothing else. */
  lemma GenerateReachesAll(difficulty: string, p: Problem)
    requires Possible(difficulty, p)
    ensures DrawsFit(difficulty, DrawsOf(difficulty, p))
    ensures Generate(difficulty, DrawsOf(difficulty, p)) == p
  {
    if p.op == Divide {
      ExactDivision(p.num2, p.answer);
    }
  }

  /** Distinct draws give distinct problems; with `GenerateReachesAll`, the
      generator is a one-to-one map from the fitting draws onto `Possible`. */
  lemma GenerateInjective(difficulty: string, d: Draws, e: Draws)
    requires DrawsFit(difficulty, d) && DrawsFit(difficulty, e)
    requires Generate(difficulty, d) == Generate(difficulty, e)
    ensures d == e
  {
    var ops := Operators(difficulty);
    assert forall i, j :: 0 <= i < j < |ops| ==> ops[i] != ops[j];
    var p := Generate(difficulty, d);
    if p.op == Divide {
      assert d.first == e.first;
    }
  }

  /** The display text `num1 op num2 = ?`. */
  function ProblemText(p: Problem): string {
    IntToString(p.num1) + (" " + (Symbol(p.op) + (" " + (IntToString(p.num2) + " = ?"))))
  }

  /** The display text reads back: parseInt of the text gives the first
      operand, and parseInt of what follows the operator gives the second. */
  lemma ProblemTextReadsBack(p: Problem)
    ensures var n := |IntToString(p.num1)|;
      n + 3 <= |ProblemText(p)| &&
      ProblemText(p)[n + 1] == Symbol(p.op)[0] &&
      ParseInt(ProblemText(p)) == Some(p.num1) &&
      ParseInt(ProblemText(p)[n + 3..]) == Some(p.num2)
  {
    var second := IntToString(p.num2) + " = ?";
    var after := " " + (Symbol(p.op) + (" " + second));
    ParseIntOfRendered(p.num1, after);
    OperatorThenOperand(IntToString(p.num1), Symbol(p.op), second);
    ParseIntOfRendered(p.num2, " = ?");
  }

  lemma OperatorThenOperand(x: string, symbol: string, z: string)
    requires |symbol| == 1
    ensures |x| + 3 <= |x + (" " + (symbol + (" " + z)))|
    ensures (x + (" " + (symbol + (" " + z))))[|x| + 1] == symbol[0]
    ensures (x + (" " + (symbol + (" " + z))))[|x| + 3..] == z
  {
  }
}
