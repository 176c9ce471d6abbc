/** The arithmetic challenge: the expression builder (`getEquation`) and the
    two-stack evaluator (`getResult`, `computerResult`) of Equation.java. */
module Equations {
  import opened Outcomes
  import opened Randomness
  import opened Decimal

  /** OPERATOR_CHARS: the operators an expression is drawn from. */
  const OperatorChars: string := "+-x"

  /** operatorMap: the precedence of each operator; `x` binds tighter. */
  const OperatorMap: map<char, int> := map['+' := 1, '-' := 1, 'x' := 2]

  /** Every operator is one operatorMap knows. */
  predicate ValidOperators(ops: seq<char>)
  {
    forall i :: 0 <= i < |ops| ==> ops[i] in OperatorMap
  }

  /** Every number is a single decimal digit. */
  predicate IsDigitSeq(nums: seq<int>)
  {
    forall i :: 0 <= i < |nums| ==> 0 <= nums[i] <= 9
  }

  /** An equation challenge: the characters drawn and the evaluator's result. */
  datatype Equation = Equation(expression: seq<char>, result: int)

  /** `computerResult(num1, num2, operator)`: the switch matches '*', which the
      generator never emits; every other character, `x` included, gives 0. */
  function ComputerResult(num1: int, num2: int, operator: char): (r: int)
    ensures operator == '+' ==> r == num1 + num2
    ensures operator == '-' ==> r == num1 - num2
    ensures operator == '*' ==> r == num1 * num2
    ensures operator != '+' && operator != '-' && operator != '*' ==> r == 0
  {
    match operator
    case '+' => num1 + num2
    case '-' => num1 - num2
    case '*' => num1 * num2
    case _ => 0
  }

  // ---------------------------------------------------------------------
  // The evaluator's stacks, as values
  // ---------------------------------------------------------------------

  /** The number stack and the operator stack, bottom first. */
  datatype Stacks = Stacks(nums: seq<int>, ops: seq<char>)

  /** One more number than operators, and every operator has a precedence. */
  predicate WellShaped(st: Stacks)
  {
    |st.nums| == |st.ops| + 1 && ValidOperators(st.ops)
  }

  /** Pops num2, then num1, then the top operator, and pushes
      computerResult(num1, num2, operator). */
  function Reduce(st: Stacks): (r: Stacks)
    requires |st.nums| >= 2 && |st.ops| >= 1
    ensures |r.nums| == |st.nums| - 1 && |r.ops| == |st.ops| - 1
    ensures r.ops == st.ops[..|st.ops| - 1]
    ensures WellShaped(st) ==> WellShaped(r)
  {
    var n, m := |st.nums|, |st.ops|;
    Stacks(st.nums[..n - 2] + [ComputerResult(st.nums[n - 2], st.nums[n - 1], st.ops[m - 1])],
           st.ops[..m - 1])
  }

  /** The stacks at the head of the scanning loop when its index is i: the first
      two numbers and the first operator are pushed, then each later operator
      triggers at most one reduction before it and its right operand are pushed. */
  function Scan(nums: seq<int>, ops: seq<char>, i: nat): (st: Stacks)
    requires |nums| == |ops| + 1 && ValidOperators(ops) && 1 <= i <= |ops|
    ensures WellShaped(st)
    ensures 1 <= |st.ops| <= i
    decreases i
  {
    if i == 1 then Stacks([nums[0], nums[1]], [ops[0]])
    else
      var prev := Scan(nums, ops, i - 1);
      var st := if OperatorMap[ops[i - 1]] <= OperatorMap[prev.ops[|prev.ops| - 1]]
                then Reduce(prev) else prev;
      Stacks(st.nums + [nums[i]], st.ops + [ops[i - 1]])
  }

  /** The final loop: reduce until the operator stack is empty, then pop. */
  function Drain(st: Stacks): int
    requires WellShaped(st)
    decreases |st.ops|
  {
    if |st.ops| == 0 then st.nums[0] else Drain(Reduce(st))
  }

  /** `getResult(nums, operators)`: fails on `nums[1]` when there is no operator. */
  function Evaluate(nums: seq<int>, ops: seq<char>): (r: Result<int>)
    requires |nums| == |ops| + 1 && ValidOperators(ops)
    ensures r.Failure? <==> |ops| == 0
    ensures r.Failure? ==> r.error == IndexOutOfBounds
  {
    if |ops| == 0 then Failure(IndexOutOfBounds)
    else Success(Drain(Scan(nums, ops, |ops|)))
  }

  // ---------------------------------------------------------------------
  // Building the expression
  // ---------------------------------------------------------------------

  /** Digit, operator, digit, ..., digit. */
  function Expression(nums: seq<int>, ops: seq<char>): seq<char>
    requires |nums| == |ops| + 1 && IsDigitSeq(nums)
    decreases |ops|
  {
    if |ops| == 0 then [DigitChar(nums[0])]
    else [DigitChar(nums[0]), ops[0]] + Expression(nums[1..], ops[1..])
  }

  /** The n digits `random.nextInt(10)` yields from position p. */
  function DrawnDigits(s: Stream, p: nat, n: nat): (r: seq<int>)
    ensures |r| == n && IsDigitSeq(r)
    decreases n
  {
    if n == 0 then [] else DrawnDigits(s, p, n - 1) + [Draw(s, p + n - 1, 10)]
  }

  /** The n operators `OPERATOR_CHARS.charAt(random.nextInt(3))` yields from position p. */
  function DrawnOperators(s: Stream, p: nat, n: nat): (r: seq<char>)
    ensures |r| == n && ValidOperators(r)
    decreases n
  {
    if n == 0 then []
    else
      var d := Draw(s, p + n - 1, |OperatorChars|);
      assert OperatorChars[d] in OperatorMap by {
        assert OperatorChars == ['+', '-', 'x'];
      }
      DrawnOperators(s, p, n - 1) + [OperatorChars[d]]
  }

  /** A sequence whose element j is the digit drawn at p + j is DrawnDigits. */
  lemma {:induction false} DrawnDigitsAt(a: seq<int>, s: Stream, p: nat)
    requires forall j :: 0 <= j < |a| ==> a[j] == Draw(s, p + j, 10)
    ensures a == DrawnDigits(s, p, |a|)
    decreases |a|
  {
    if |a| > 0 {
      DrawnDigitsAt(a[..|a| - 1], s, p);
      assert a == a[..|a| - 1] + [a[|a| - 1]];
    }
  }

  /** A sequence whose element j is the operator drawn at p + j is DrawnOperators. */
  lemma {:induction false} DrawnOperatorsAt(a: seq<char>, s: Stream, p: nat)
    requires forall j :: 0 <= j < |a| ==> a[j] == OperatorChars[Draw(s, p + j, 3)]
    ensures a == DrawnOperators(s, p, |a|)
    decreases |a|
  {
    if |a| > 0 {
      DrawnOperatorsAt(a[..|a| - 1], s, p);
      assert a == a[..|a| - 1] + [a[|a| - 1]];
    }
  }

  /** `getEquation(k)` from draw position p: k + 1 digits, then k operators,
      then the evaluation. A negative k fails allocating the arrays. */
  function EquationAt(k: int, s: Stream, p: nat): (r: Drawn<Equation>)
    ensures r.out.Success? <==> k >= 1
    ensures r.out.Failure? ==> r.out.error == (if k < 0 then NegativeArraySize else IndexOutOfBounds)
    ensures k >= 0 ==> r.pos == p + 2 * k + 1
  {
    if k < 0 then Drawn(Failure(NegativeArraySize), p)
    else Drawn(Assemble(DrawnDigits(s, p, k + 1), DrawnOperators(s, p + k + 1, k)), p + 2 * k + 1)
  }

  /** The equation over given digits and operators, or the evaluator's failure. */
  function Assemble(nums: seq<int>, ops: seq<char>): Result<Equation>
    requires |nums| == |ops| + 1 && IsDigitSeq(nums) && ValidOperators(ops)
  {
    match Evaluate(nums, ops)
    case Failure(e) => Failure(e)
    case Success(v) => Success(Equation(Expression(nums, ops), v))
  }

  // ---------------------------------------------------------------------
  // The methods
  // ---------------------------------------------------------------------

  /** `getResult(nums, operators)`: the two-stack evaluation. The arrays are
      only read, so they are passed as sequences; Java's stacks are sequences
      with the top at the end. */
  method GetResult(nums: seq<int>, operators: seq<char>) returns (r: Result<int>)
    requires |nums| == |operators| + 1 && ValidOperators(operators)
    ensures r == Evaluate(nums, operators)
  {
    if |operators| == 0 {
      return Failure(IndexOutOfBounds);
    }
    var numStack: seq<int> := [nums[0], nums[1]];
    var operatorStack: seq<char> := [operators[0]];
    for i := 1 to |operators|
      invariant Stacks(numStack, operatorStack) == Scan(nums, operators, i)
    {
      if OperatorMap[operators[i]] <= OperatorMap[operatorStack[|operatorStack| - 1]] {
        var reduced := Reduce(Stacks(numStack, operatorStack));
        numStack, operatorStack := reduced.nums, reduced.ops;
      }
      numStack := numStack + [nums[i + 1]];
      operatorStack := operatorStack + [operators[i]];
    }
    ghost var value := Drain(Stacks(numStack, operatorStack));
    while operatorStack != []
      invariant WellShaped(Stacks(numStack, operatorStack))
      invariant Drain(Stacks(numStack, operatorStack)) == value
      decreases |operatorStack|
    {
      var reduced := Reduce(Stacks(numStack, operatorStack));
      numStack, operatorStack := reduced.nums, reduced.ops;
    }
    return Success(numStack[0]);
  }

  /** `getEquation(operatorCount)`: fills the digit, operator and expression
      arrays from the shared random object, then evaluates. A negative count
      fails allocating the arrays, before any draw. */
  method GetEquation(random: Random, operatorCount: int) returns (r: Result<Equation>)
    modifies random
    ensures Drawn(r, random.pos) == EquationAt(operatorCount, random.stream, old(random.pos))
  {
    if operatorCount < 0 {
      return Failure(NegativeArraySize);
    }
    ghost var s, p := random.stream, random.pos;
    var nums := new int[operatorCount + 1];
    var operates := new char[operatorCount];
    var expression := new char[operatorCount * 2 + 1];
    FillDigits(random, nums, expression);
    FillOperators(random, operates, expression);
    ghost var digits, ops := nums[..], operates[..];
    DrawnEquation(operatorCount, s, p, digits, ops, expression[..]);
    var result := GetResult(nums[..], operates[..]);
    match result
    case Failure(err) => r := Failure(err);
    case Success(v) => r := Success(Equation(expression[..], v));
    assert r == Assemble(digits, ops);
  }

  /** The first loop of getEquation: digit i is `random.nextInt(10)`, and its
      character goes to slot 2i of the expression; the operator slots are kept. */
  method FillDigits(random: Random, nums: array<int>, expression: array<char>)
    requires expression.Length == 2 * nums.Length - 1
    modifies random, nums, expression
    ensures random.pos == old(random.pos) + nums.Length
    ensures forall j {:trigger nums[j]} :: 0 <= j < nums.Length ==>
      nums[j] == Draw(random.stream, old(random.pos) + j, 10) && expression[2 * j] == DigitChar(nums[j])
    ensures forall j :: 0 <= j < nums.Length - 1 ==> expression[2 * j + 1] == old(expression[2 * j + 1])
  {
    ghost var p := random.pos;
    for i := 0 to nums.Length
      invariant random.pos == p + i
      invariant forall j {:trigger nums[j]} :: 0 <= j < i ==>
        nums[j] == Draw(random.stream, p + j, 10) && expression[2 * j] == DigitChar(nums[j])
      invariant forall j :: 0 <= j < nums.Length - 1 ==> expression[2 * j + 1] == old(expression[2 * j + 1])
    {
      var d := random.NextInt(10);
      nums[i] := d.value;
      expression[i * 2] := DigitChar(nums[i]);
    }
  }

  /** The second loop of getEquation: operator i is drawn from OPERATOR_CHARS
      and goes to slot 2i + 1 of the expression; the digit slots are kept. */
  method FillOperators(random: Random, operates: array<char>, expression: array<char>)
    requires expression.Length == 2 * operates.Length + 1 && operates != expression
    modifies random, operates, expression
    ensures random.pos == old(random.pos) + operates.Length
    ensures forall j {:trigger operates[j]} :: 0 <= j < operates.Length ==>
      operates[j] == OperatorChars[Draw(random.stream, old(random.pos) + j, 3)] && expression[2 * j + 1] == operates[j]
    ensures forall j :: 0 <= j <= operates.Length ==> expression[2 * j] == old(expression[2 * j])
  {
    ghost var p := random.pos;
    for i := 0 to operates.Length
      invariant random.pos == p + i
      invariant forall j {:trigger operates[j]} :: 0 <= j < i ==>
        operates[j] == OperatorChars[Draw(random.stream, p + j, 3)] && expression[2 * j + 1] == operates[j]
      invariant forall j :: 0 <= j <= operates.Length ==> expression[2 * j] == old(expression[2 * j])
    {
      var d := random.NextInt(|OperatorChars|);
      operates[i] := OperatorChars[d.value];
      expression[i * 2 + 1] := operates[i];
    }
  }

  /** The arrays getEquation fills, slot by slot, are the drawn digits, the
      drawn operators and their expression. */
  lemma DrawnEquation(k: nat, s: Stream, p: nat, nums: seq<int>, ops: seq<char>, e: seq<char>)
    requires |nums| == k + 1 && |ops| == k && |e| == 2 * k + 1
    requires forall j :: 0 <= j < |nums| ==> nums[j] == Draw(s, p + j, 10)
    requires IsDigitSeq(nums)
    requires forall j :: 0 <= j < |ops| ==> ops[j] == OperatorChars[Draw(s, p + k + 1 + j, 3)]
    requires forall i :: 0 <= i < |nums| ==> e[2 * i] == DigitChar(nums[i])
    requires forall i :: 0 <= i < |ops| ==> e[2 * i + 1] == ops[i]
    ensures ValidOperators(ops) && e == Expression(nums, ops)
    ensures EquationAt(k, s, p) == Drawn(Assemble(nums, ops), p + 2 * k + 1)
  {
    ExpressionFromSlots(e, nums, ops);
    DrawnDigitsAt(nums, s, p);
    DrawnOperatorsAt(ops, s, p + k + 1);
    EquationAtUnfold(k, s, p, nums, ops);
  }

  /** For non-negative k, the plan is the assembled equation of the drawn
      digits and operators. */
  lemma EquationAtUnfold(k: nat, s: Stream, p: nat, nums: seq<int>, ops: seq<char>)
    requires nums == DrawnDigits(s, p, k + 1) && ops == DrawnOperators(s, p + k + 1, k)
    ensures EquationAt(k, s, p) == Drawn(Assemble(nums, ops), p + 2 * k + 1)
  {
  }

  // ---------------------------------------------------------------------
  // Shape of the expression
  // ---------------------------------------------------------------------

  /** Even slots hold the digits and odd slots the operators. */
  lemma {:induction false} ExpressionSlots(nums: seq<int>, ops: seq<char>)
    requires |nums| == |ops| + 1 && IsDigitSeq(nums)
    ensures |Expression(nums, ops)| == 2 * |ops| + 1
    ensures forall i :: 0 <= i < |nums| ==> Expression(nums, ops)[2 * i] == DigitChar(nums[i])
    ensures forall i :: 0 <= i < |ops| ==> Expression(nums, ops)[2 * i + 1] == ops[i]
    decreases |ops|
  {
    if |ops| > 0 {
      ExpressionSlots(nums[1..], ops[1..]);
      var e := Expression(nums, ops);
      var rest := Expression(nums[1..], ops[1..]);
      assert e == [DigitChar(nums[0]), ops[0]] + rest;
      forall i | 1 <= i < |nums| ensures e[2 * i] == DigitChar(nums[i]) {
        assert e[2 * i] == rest[2 * (i - 1)];
      }
      forall i | 1 <= i < |ops| ensures e[2 * i + 1] == ops[i] {
        assert e[2 * i + 1] == rest[2 * (i - 1) + 1];
      }
    }
  }

  /** Conversely, any character sequence with those slots is the expression. */
  lemma ExpressionFromSlots(e: seq<char>, nums: seq<int>, ops: seq<char>)
    requires |nums| == |ops| + 1 && IsDigitSeq(nums)
    requires |e| == 2 * |ops| + 1
    requires forall i :: 0 <= i < |nums| ==> e[2 * i] == DigitChar(nums[i])
    requires forall i :: 0 <= i < |ops| ==> e[2 * i + 1] == ops[i]
    ensures e == Expression(nums, ops)
  {
    ExpressionSlots(nums, ops);
    var x := Expression(nums, ops);
    forall j | 0 <= j < |e| ensures e[j] == x[j] {
      if j % 2 == 0 {
        assert e[2 * (j / 2)] == x[2 * (j / 2)];
      } else {
        var k := j / 2;
        assert j == 2 * k + 1 && k < |ops|;
        assert e[2 * k + 1] == ops[k];
        assert x[2 * k + 1] == ops[k];
      }
    }
  }
}
