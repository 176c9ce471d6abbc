/** What the equation builder and the two-stack evaluator guarantee, and where
    the evaluator parts ways with conventional precedence. */
module EquationProperties {
  import opened Outcomes
  import opened Randomness
  import opened Decimal
  import opened Equations

  // ---------------------------------------------------------------------
  // The stacks
  // ---------------------------------------------------------------------

  /** Each incoming operator triggers at most one reduction: the operator
      stack grows by one when the operator binds tighter than the top, and
      otherwise keeps its height (one popped, one pushed). The incoming
      operator always ends on top, above the untouched lower operators. */
  lemma {:induction false} AtMostOneReduction(nums: seq<int>, ops: seq<char>, i: nat)
    requires |nums| == |ops| + 1 && ValidOperators(ops) && 1 <= i < |ops|
    ensures var before, after := Scan(nums, ops, i), Scan(nums, ops, i + 1);
      var top := before.ops[|before.ops| - 1];
      && (OperatorMap[ops[i]] > OperatorMap[top] ==> after.ops == before.ops + [ops[i]])
      && (OperatorMap[ops[i]] <= OperatorMap[top] ==> after.ops == before.ops[..|before.ops| - 1] + [ops[i]])
      && after.nums[|after.nums| - 1] == nums[i + 1]
  {
    var before := Scan(nums, ops, i);
    assert Scan(nums, ops, i + 1) == Stacks(
      (if OperatorMap[ops[i]] <= OperatorMap[before.ops[|before.ops| - 1]] then Reduce(before) else before).nums + [nums[i + 1]],
      (if OperatorMap[ops[i]] <= OperatorMap[before.ops[|before.ops| - 1]] then Reduce(before) else before).ops + [ops[i]]);
  }

  /** The value the drain loop leaves: the stacks nest to the right, the
      topmost operator applied first. */
  function RightNested(nums: seq<int>, ops: seq<char>): int
    requires |nums| == |ops| + 1
    decreases |ops|
  {
    if |ops| == 0 then nums[0]
    else ComputerResult(nums[0], RightNested(nums[1..], ops[1..]), ops[0])
  }

  /** Reducing the top pair of the stacks does not change their right-nested value. */
  lemma {:induction false} ReducePreservesRightNested(st: Stacks)
    requires |st.nums| == |st.ops| + 1 && |st.ops| >= 1
    ensures RightNested(Reduce(st).nums, Reduce(st).ops) == RightNested(st.nums, st.ops)
    decreases |st.ops|
  {
    var r := Reduce(st);
    if |st.ops| > 1 {
      var tail := Stacks(st.nums[1..], st.ops[1..]);
      ReducePreservesRightNested(tail);
      assert r.nums[1..] == Reduce(tail).nums;
      assert r.ops[1..] == Reduce(tail).ops;
      assert r.nums[0] == st.nums[0] && r.ops[0] == st.ops[0];
    }
  }

  /** The drain loop computes the right-nested value of the stacks it starts from. */
  lemma {:induction false} DrainIsRightNested(st: Stacks)
    requires WellShaped(st)
    ensures Drain(st) == RightNested(st.nums, st.ops)
    decreases |st.ops|
  {
    if |st.ops| > 0 {
      DrainIsRightNested(Reduce(st));
      ReducePreservesRightNested(st);
    }
  }

  // ---------------------------------------------------------------------
  // Small expressions
  // ---------------------------------------------------------------------

  /** With one operator the result is computerResult of the two numbers. */
  lemma OneOperator(a: int, b: int, o: char)
    requires o in OperatorMap
    ensures Evaluate([a, b], [o]) == Success(ComputerResult(a, b, o))
  {
    assert Scan([a, b], [o], 1) == Stacks([a, b], [o]);
    assert Reduce(Stacks([a, b], [o])) == Stacks([ComputerResult(a, b, o)], []);
    assert Drain(Stacks([a, b], [o])) == Drain(Stacks([ComputerResult(a, b, o)], []));
  }

  /** With two operators precedence decides: a second operator that does not
      bind tighter reduces the first pair before it is pushed; one that binds
      tighter is applied first by the drain. */
  lemma TwoOperators(a: int, b: int, c: int, o0: char, o1: char)
    requires o0 in OperatorMap && o1 in OperatorMap
    ensures OperatorMap[o1] <= OperatorMap[o0] ==>
      Evaluate([a, b, c], [o0, o1]) == Success(ComputerResult(ComputerResult(a, b, o0), c, o1))
    ensures OperatorMap[o1] > OperatorMap[o0] ==>
      Evaluate([a, b, c], [o0, o1]) == Success(ComputerResult(a, ComputerResult(b, c, o1), o0))
  {
    var nums, ops := [a, b, c], [o0, o1];
    var first := Scan(nums, ops, 1);
    assert first == Stacks([a, b], [o0]);
    var st := Scan(nums, ops, 2);
    if OperatorMap[o1] <= OperatorMap[o0] {
      assert st == Stacks([ComputerResult(a, b, o0), c], [o1]);
      DrainIsRightNested(st);
      assert RightNested([c], []) == c;
    } else {
      assert st == Stacks([a, b, c], [o0, o1]);
      DrainIsRightNested(st);
      assert RightNested([c], []) == c;
      assert RightNested([b, c], [o1]) == ComputerResult(b, c, o1);
    }
  }

  // ---------------------------------------------------------------------
  // A conventional reference evaluator
  // ---------------------------------------------------------------------

  predicate IsAdditive(o: char)
  {
    o == '+' || o == '-'
  }

  /** The index of the last `+` or `-`, or -1 when there is none. */
  function LastAdditive(ops: seq<char>): (j: int)
    ensures -1 <= j < |ops|
    ensures j >= 0 ==> IsAdditive(ops[j])
    ensures forall i :: j < i < |ops| ==> !IsAdditive(ops[i])
    decreases |ops|
  {
    if |ops| == 0 then -1
    else if IsAdditive(ops[|ops| - 1]) then |ops| - 1
    else LastAdditive(ops[..|ops| - 1])
  }

  /** A run joined by multiplicative operators, applied left to right. */
  function Product(nums: seq<int>, ops: seq<char>): int
    requires |nums| == |ops| + 1
    decreases |ops|
  {
    if |ops| == 0 then nums[0]
    else ComputerResult(Product(nums[..|nums| - 1], ops[..|ops| - 1]), nums[|nums| - 1], ops[|ops| - 1])
  }

  /** Conventional evaluation: multiplicative runs first, then `+` and `-`
      from left to right, each step still judged by computerResult. */
  function Conventional(nums: seq<int>, ops: seq<char>): int
    requires |nums| == |ops| + 1
    decreases |ops|
  {
    var j := LastAdditive(ops);
    if j < 0 then Product(nums, ops)
    else ComputerResult(Conventional(nums[..j + 1], ops[..j]), Product(nums[j + 1..], ops[j + 1..]), ops[j])
  }

  /** With one or two operators the single-reduction evaluator agrees with
      conventional precedence. */
  lemma ConventionalAgreesUpToTwo(nums: seq<int>, ops: seq<char>)
    requires |nums| == |ops| + 1 && ValidOperators(ops) && 1 <= |ops| <= 2
    ensures Evaluate(nums, ops) == Success(Conventional(nums, ops))
  {
    assert ops[0] in OperatorMap;
    if |ops| == 1 {
      assert nums == [nums[0], nums[1]] && ops == [ops[0]];
      OneOperator(nums[0], nums[1], ops[0]);
      assert Product([nums[0]], []) == nums[0];
      assert Product([nums[1]], []) == nums[1];
      assert Product(nums, ops) == ComputerResult(nums[0], nums[1], ops[0]) by {
        assert nums[..1] == [nums[0]] && ops[..0] == [];
      }
      if IsAdditive(ops[0]) {
        assert nums[..1] == [nums[0]] && nums[1..] == [nums[1]] && ops[1..] == [];
        assert Conventional([nums[0]], []) == nums[0];
      }
    } else {
      assert ops[1] in OperatorMap;
      assert nums == [nums[0], nums[1], nums[2]] && ops == [ops[0], ops[1]];
      TwoOperators(nums[0], nums[1], nums[2], ops[0], ops[1]);
      TwoConventional(nums[0], nums[1], nums[2], ops[0], ops[1]);
    }
  }

  /** Conventional evaluation of `a o0 b o1 c` over the generator's operators. */
  lemma TwoConventional(a: int, b: int, c: int, o0: char, o1: char)
    requires o0 in OperatorMap && o1 in OperatorMap
    ensures OperatorMap[o1] <= OperatorMap[o0] ==>
      Conventional([a, b, c], [o0, o1]) == ComputerResult(ComputerResult(a, b, o0), c, o1)
    ensures OperatorMap[o1] > OperatorMap[o0] ==>
      Conventional([a, b, c], [o0, o1]) == ComputerResult(a, ComputerResult(b, c, o1), o0)
  {
    var nums, ops := [a, b, c], [o0, o1];
    assert Product([a], []) == a && Product([b], []) == b && Product([c], []) == c;
    assert Product([a, b], [o0]) == ComputerResult(a, b, o0) by {
      assert [a, b][..1] == [a] && [o0][..0] == [];
    }
    assert Product([b, c], [o1]) == ComputerResult(b, c, o1) by {
      assert [b, c][..1] == [b] && [o1][..0] == [];
    }
    assert Conventional([a], []) == a;
    if IsAdditive(o1) {
      assert LastAdditive(ops) == 1;
      assert nums[..2] == [a, b] && ops[..1] == [o0] && nums[2..] == [c] && ops[2..] == [];
      assert [a, b][..1] == [a] && [o0][..0] == [] && [a, b][1..] == [b] && [o0][1..] == [];
      if IsAdditive(o0) {
        assert LastAdditive([o0]) == 0;
        assert Conventional([a, b], [o0]) == ComputerResult(a, b, o0);
      } else {
        assert LastAdditive([o0]) == -1;
      }
    } else {
      assert o1 == 'x';
      assert nums[..2] == [a, b] && ops[..1] == [o0];
      if IsAdditive(o0) {
        assert LastAdditive(ops) == 0 by { assert ops[..1] == [o0]; }
        assert nums[..1] == [a] && ops[..0] == [] && nums[1..] == [b, c] && ops[1..] == [o1];
      } else {
        assert LastAdditive(ops) == -1 by {
          assert ops[..1] == [o0];
          assert LastAdditive([o0]) == -1 by { assert [o0][..0] == []; }
        }
      }
    }
  }

  /** With three operators they part ways: `1-2x3-4` evaluates to 5 (the
      drain computes 1-(0-4)), while conventional evaluation gives 1-0-4 = -3. */
  lemma ThreeOperatorCounterexample()
    ensures Evaluate([1, 2, 3, 4], ['-', 'x', '-']) == Success(5)
    ensures Conventional([1, 2, 3, 4], ['-', 'x', '-']) == -3
  {
    CounterexampleEvaluate();
    CounterexampleConventional();
  }

  lemma CounterexampleEvaluate()
    ensures Evaluate([1, 2, 3, 4], ['-', 'x', '-']) == Success(5)
  {
    var nums, ops := [1, 2, 3, 4], ['-', 'x', '-'];
    assert ValidOperators(ops);
    assert Scan(nums, ops, 1) == Stacks([1, 2], ['-']);
    assert Scan(nums, ops, 2) == Stacks([1, 2, 3], ['-', 'x']);
    assert Reduce(Stacks([1, 2, 3], ['-', 'x'])) == Stacks([1, 0], ['-']);
    assert Scan(nums, ops, 3) == Stacks([1, 0, 4], ['-', '-']);
    DrainIsRightNested(Stacks([1, 0, 4], ['-', '-']));
    assert RightNested([4], []) == 4;
    assert RightNested([0, 4], ['-']) == -4;
  }

  lemma CounterexampleConventional()
    ensures Conventional([1, 2, 3, 4], ['-', 'x', '-']) == -3
  {
    var nums, ops := [1, 2, 3, 4], ['-', 'x', '-'];
    assert LastAdditive(ops) == 2;
    assert nums[..3] == [1, 2, 3] && ops[..2] == ['-', 'x'] && nums[3..] == [4] && ops[3..] == [];
    assert Product([4], []) == 4;
    assert LastAdditive(['-', 'x']) == 0 by { assert ['-', 'x'][..1] == ['-']; }
    assert [1, 2, 3][..1] == [1] && ['-', 'x'][..0] == [] && [1, 2, 3][1..] == [2, 3] && ['-', 'x'][1..] == ['x'];
    assert Conventional([1], []) == 1;
    assert Product([2, 3], ['x']) == 0;
  }

  /** `7x2-9` evaluates to -9: the `x` step gives 0, and 0 - 9 = -9. */
  lemma ProductThenDifference()
    ensures Evaluate([7, 2, 9], ['x', '-']) == Success(-9)
  {
    TwoOperators(7, 2, 9, 'x', '-');
    assert OperatorMap['-'] <= OperatorMap['x'] && ComputerResult(7, 2, 'x') == 0;
  }

  /** `2x3+4` evaluates to 4: the `x` step gives 0, and 0 + 4 = 4. */
  lemma ProductThenSum()
    ensures Evaluate([2, 3, 4], ['x', '+']) == Success(4)
  {
    TwoOperators(2, 3, 4, 'x', '+');
    assert OperatorMap['+'] <= OperatorMap['x'] && ComputerResult(2, 3, 'x') == 0;
  }

  // ---------------------------------------------------------------------
  // The drawn equation
  // ---------------------------------------------------------------------

  /** Element j of the drawn digits is the digit drawn at p + j. */
  lemma {:induction false} DrawnDigitsIndex(s: Stream, p: nat, n: nat, j: nat)
    requires j < n
    ensures DrawnDigits(s, p, n)[j] == Draw(s, p + j, 10)
    decreases n
  {
    if j < n - 1 {
      DrawnDigitsIndex(s, p, n - 1, j);
    }
  }

  /** Element j of the drawn operators is the operator drawn at p + j. */
  lemma {:induction false} DrawnOperatorsIndex(s: Stream, p: nat, n: nat, j: nat)
    requires j < n
    ensures DrawnOperators(s, p, n)[j] == OperatorChars[Draw(s, p + j, 3)]
    decreases n
  {
    if j < n - 1 {
      DrawnOperatorsIndex(s, p, n - 1, j);
    }
  }

  /** getEquation(k): a negative count fails before any draw; otherwise it
      uses exactly 2k + 1 draws, and it succeeds exactly when k >= 1. */
  lemma EquationOutcome(k: int, s: Stream, p: nat)
    ensures k < 0 ==> EquationAt(k, s, p) == Drawn(Failure(NegativeArraySize), p)
    ensures k == 0 ==> EquationAt(k, s, p) == Drawn(Failure(IndexOutOfBounds), p + 1)
    ensures k >= 0 ==> EquationAt(k, s, p).pos == p + 2 * k + 1
    ensures EquationAt(k, s, p).out.Success? <==> k >= 1
  {
  }

  /** A successful equation: the expression has 2k + 1 characters; slot 2i is
      the ASCII digit drawn at p + i, slot 2i + 1 is one of `+`, `-`, `x`,
      drawn at p + k + 1 + i; the result is the evaluation of those digits
      and operators. */
  lemma EquationShape(k: int, s: Stream, p: nat)
    requires k >= 1
    ensures EquationAt(k, s, p).out.Success?
    ensures var q := EquationAt(k, s, p).out.value;
      && |q.expression| == 2 * k + 1
      && (forall i :: 0 <= i <= k ==>
            IsDigit(q.expression[2 * i]) && DigitValue(q.expression[2 * i]) == Draw(s, p + i, 10))
      && (forall i :: 0 <= i < k ==>
            q.expression[2 * i + 1] in OperatorChars
            && q.expression[2 * i + 1] == OperatorChars[Draw(s, p + k + 1 + i, 3)])
      && Evaluate(DrawnDigits(s, p, k + 1), DrawnOperators(s, p + k + 1, k)) == Success(q.result)
  {
    var nums := DrawnDigits(s, p, k + 1);
    var ops := DrawnOperators(s, p + k + 1, k);
    EquationAtUnfold(k, s, p, nums, ops);
    DrawnExpressionSlots(k, s, p);
  }

  /** The slots of the expression over the drawn digits and operators. */
  lemma DrawnExpressionSlots(k: nat, s: Stream, p: nat)
    ensures var e := Expression(DrawnDigits(s, p, k + 1), DrawnOperators(s, p + k + 1, k));
      && |e| == 2 * k + 1
      && (forall i :: 0 <= i <= k ==> IsDigit(e[2 * i]) && DigitValue(e[2 * i]) == Draw(s, p + i, 10))
      && (forall i :: 0 <= i < k ==> e[2 * i + 1] in OperatorChars && e[2 * i + 1] == OperatorChars[Draw(s, p + k + 1 + i, 3)])
  {
    var nums := DrawnDigits(s, p, k + 1);
    var ops := DrawnOperators(s, p + k + 1, k);
    ExpressionSlots(nums, ops);
    DigitSlots(Expression(nums, ops), k, s, p);
    OperatorSlots(Expression(nums, ops), k, s, p);
  }

  lemma DigitSlots(e: seq<char>, k: nat, s: Stream, p: nat)
    requires |e| == 2 * k + 1
    requires forall i :: 0 <= i < k + 1 ==> e[2 * i] == DigitChar(DrawnDigits(s, p, k + 1)[i])
    ensures forall i :: 0 <= i <= k ==> IsDigit(e[2 * i]) && DigitValue(e[2 * i]) == Draw(s, p + i, 10)
  {
    forall i | 0 <= i <= k
      ensures IsDigit(e[2 * i]) && DigitValue(e[2 * i]) == Draw(s, p + i, 10)
    {
      DrawnDigitsIndex(s, p, k + 1, i);
    }
  }

  lemma OperatorSlots(e: seq<char>, k: nat, s: Stream, p: nat)
    requires |e| == 2 * k + 1
    requires forall i :: 0 <= i < k ==> e[2 * i + 1] == DrawnOperators(s, p + k + 1, k)[i]
    ensures forall i :: 0 <= i < k ==> e[2 * i + 1] in OperatorChars && e[2 * i + 1] == OperatorChars[Draw(s, p + k + 1 + i, 3)]
  {
    forall i | 0 <= i < k
      ensures e[2 * i + 1] in OperatorChars && e[2 * i + 1] == OperatorChars[Draw(s, p + k + 1 + i, 3)]
    {
      DrawnOperatorsIndex(s, p + k + 1, k, i);
    }
  }

  // ---------------------------------------------------------------------
  // Reading the expression back
  // ---------------------------------------------------------------------

  /** The digits at the even slots of an expression. */
  function EvenSlots(e: seq<char>): (nums: seq<int>)
    requires |e| % 2 == 1
    ensures |nums| == |e| / 2 + 1
    decreases |e|
  {
    if |e| == 1 then [DigitValue(e[0])] else [DigitValue(e[0])] + EvenSlots(e[2..])
  }

  /** The operators at the odd slots of an expression. */
  function OddSlots(e: seq<char>): (ops: seq<char>)
    requires |e| % 2 == 1
    ensures |ops| == |e| / 2
    decreases |e|
  {
    if |e| == 1 then [] else [e[1]] + OddSlots(e[2..])
  }

  /** Reading the slots of an expression back gives the digits and operators
      it was built from. */
  lemma {:induction false} ExpressionRoundTrip(nums: seq<int>, ops: seq<char>)
    requires |nums| == |ops| + 1 && IsDigitSeq(nums)
    ensures |Expression(nums, ops)| % 2 == 1
    ensures EvenSlots(Expression(nums, ops)) == nums
    ensures OddSlots(Expression(nums, ops)) == ops
    decreases |ops|
  {
    ExpressionSlots(nums, ops);
    var e := Expression(nums, ops);
    if |ops| > 0 {
      ExpressionRoundTrip(nums[1..], ops[1..]);
      assert e[2..] == Expression(nums[1..], ops[1..]);
      assert nums == [nums[0]] + nums[1..];
      assert ops == [ops[0]] + ops[1..];
    }
  }
}
