/** The cost functions the trainer applies to the net's last output `h` against the desired
  * output `y`, element by element. The natural logarithm of the cross-entropy cost is a
  * parameter: the model does not interpret it. */
module CostFunctions {
  import opened Wrappers
  import opened Matrices

  datatype CostFunction = QuadraticCost | CrossEntropyCost

  // ---------------------------------------------------------------- quadratic cost

  /** `QuadraticCost.CalcCost`: half the squared difference, element by element. Vectors of
    * different lengths are refused by the vector subtraction. */
  function QuadraticCalcCost(h: Vector, y: Vector): (c: Result<Vector>)
    ensures c.Success? <==> |h| == |y|
    ensures c.Success? ==>
      |c.value| == |h| && forall i | 0 <= i < |h| :: c.value[i] == Square(h[i] - y[i]) / 2.0
  {
    var d :- VSubtract(h, y);
    Success(VMap(VPointwiseMultiply(d, d).value, x => x / 2.0))
  }

  function Square(x: real): real { x * x }

  /** A square is never negative, and is 0 only for 0. */
  lemma SquareSign(x: real)
    ensures Square(x) >= 0.0
    ensures x != 0.0 ==> Square(x) > 0.0
    ensures x == 0.0 ==> Square(x) == 0.0
  {
    if x > 0.0 {
      calc { Square(x); == x * x; > 0.0 * x; == 0.0; }
    } else if x < 0.0 {
      calc { Square(x); == (-x) * (-x); > 0.0 * (-x); == 0.0; }
    }
  }

  /** `QuadraticCost.CalcCostGradient`: the difference `h - y`. */
  function QuadraticCalcCostGradient(h: Vector, y: Vector): (g: Result<Vector>)
    ensures g.Success? <==> |h| == |y|
    ensures g.Success? ==> |g.value| == |h| && forall i | 0 <= i < |h| :: g.value[i] == h[i] - y[i]
  {
    VSubtract(h, y)
  }

  /** The quadratic cost is never negative, is 0 exactly where the output matches, and does
    * not depend on which of the two vectors is the output. */
  lemma QuadraticCostProperties(h: Vector, y: Vector, i: int)
    requires |h| == |y| && 0 <= i < |h|
    ensures QuadraticCalcCost(h, y).value[i] >= 0.0
    ensures QuadraticCalcCost(h, y).value[i] == 0.0 <==> h[i] == y[i]
    ensures QuadraticCalcCost(h, y).value[i] == QuadraticCalcCost(y, h).value[i]
  {
    SquareSign(h[i] - y[i]);
    assert Square(y[i] - h[i]) == Square(h[i] - y[i]) by {
      var d := h[i] - y[i];
      assert y[i] - h[i] == -d;
      assert (-d) * (-d) == d * d;
    }
  }

  /** A sum of values none of which is negative is not negative, and is 0 only when every
    * value is 0. */
  lemma {:induction false} SumOfNonNegatives(v: Vector)
    requires forall i | 0 <= i < |v| :: v[i] >= 0.0
    ensures Sum(v) >= 0.0
    ensures Sum(v) == 0.0 <==> forall i | 0 <= i < |v| :: v[i] == 0.0
  {
    if v != [] {
      var init := v[..|v| - 1];
      assert forall i | 0 <= i < |init| :: init[i] == v[i];
      SumOfNonNegatives(init);
    }
  }

  /** The summed quadratic cost of an output, which the trainer records, is never negative
    * and is 0 exactly when the output is the desired one. */
  lemma QuadraticTotalCost(h: Vector, y: Vector)
    requires |h| == |y|
    ensures Sum(QuadraticCalcCost(h, y).value) >= 0.0
    ensures Sum(QuadraticCalcCost(h, y).value) == 0.0 <==> h == y
  {
    var c := QuadraticCalcCost(h, y).value;
    forall i | 0 <= i < |h| ensures c[i] >= 0.0 && (c[i] == 0.0 <==> h[i] == y[i]) {
      QuadraticCostProperties(h, y, i);
    }
    SumOfNonNegatives(c);
  }

  /** Over the reals the central difference of the quadratic cost, with the output moved by
    * half a step either way, is exactly the gradient. */
  lemma QuadraticGradientIsCentralDifference(h: Vector, y: Vector, i: int, dh: real)
    requires |h| == |y| && 0 <= i < |h| && dh != 0.0
    ensures (QuadraticCalcCost(h[i := h[i] + dh / 2.0], y).value[i] -
             QuadraticCalcCost(h[i := h[i] - dh / 2.0], y).value[i]) / dh
      == QuadraticCalcCostGradient(h, y).value[i]
  {
    var a, e := h[i] - y[i], dh / 2.0;
    assert h[i] + e - y[i] == a + e && h[i] - e - y[i] == a - e;
    assert (a + e) * (a + e) - (a - e) * (a - e) == 4.0 * a * e;
  }

  lemma QuadraticCostRegression()
    ensures QuadraticCalcCost([-10.0], [0.0]) == Success([50.0])
    ensures QuadraticCalcCost([10.0], [0.0]) == Success([50.0])
    ensures QuadraticCalcCost([-10.0], [10.0]) == Success([200.0])
    ensures QuadraticCalcCost([10.0], [10.0]) == Success([0.0])
    ensures QuadraticCalcCostGradient([-10.0], [10.0]) == Success([-20.0])
    ensures QuadraticCalcCostGradient([10.0], [0.0]) == Success([10.0])
  {
    assert QuadraticCalcCost([-10.0], [0.0]).value == [50.0];
    assert QuadraticCalcCost([10.0], [0.0]).value == [50.0];
    assert QuadraticCalcCost([-10.0], [10.0]).value == [200.0];
    assert QuadraticCalcCost([10.0], [10.0]).value == [0.0];
    assert QuadraticCalcCostGradient([-10.0], [10.0]).value == [-20.0];
    assert QuadraticCalcCostGradient([10.0], [0.0]).value == [10.0];
  }

  // ---------------------------------------------------------------- cross-entropy cost

  /** The cross-entropy guard: every output strictly between 0 and 1, and every desired
    * output exactly 0 or 1. */
  function Guard(h: Vector, y: Vector): (o: Outcome)
    ensures o.Pass? <==>
      (forall i | 0 <= i < |h| :: 0.0 < h[i] < 1.0) && (forall i | 0 <= i < |y| :: y[i] == 0.0 || y[i] == 1.0)
    ensures o.Fail? ==> o.error == Argument
  {
    if exists i | 0 <= i < |h| :: h[i] <= 0.0 || h[i] >= 1.0 then Fail(Argument)
    else if exists i | 0 <= i < |y| :: y[i] != 0.0 && y[i] != 1.0 then Fail(Argument)
    else Pass
  }

  /** `CrossEntropyCost.CalcCostGradient`: after the guard, `-y / h + (1 - y) / (1 - h)`. */
  function CrossEntropyCalcCostGradient(h: Vector, y: Vector): (g: Result<Vector>)
    ensures g.Success? <==> Guard(h, y).Pass? && |h| == |y|
    ensures g.Failure? && Guard(h, y).Fail? ==> g.error == Argument
    ensures g.Success? ==> |g.value| == |h| && forall i | 0 <= i < |h| ::
      g.value[i] == if y[i] == 1.0 then -1.0 / h[i] else 1.0 / (1.0 - h[i])
  {
    var guarded :- Guard(h, y).ToResult();
    if |h| != |y| then Failure(DimensionMismatch)
    else Success(seq(|h|, i requires 0 <= i < |h| && 0.0 < h[i] < 1.0 =>
      -y[i] / h[i] + (1.0 - y[i]) / (1.0 - h[i])))
  }

  /** `CrossEntropyCost.CalcCost` for a given natural logarithm `log`: after the guard,
    * `-y * log(h) - (1 - y) * log(1 - h)`. */
  function CrossEntropyCalcCost(h: Vector, y: Vector, log: real -> real): (c: Result<Vector>)
    ensures c.Success? <==> Guard(h, y).Pass? && |h| == |y|
    ensures c.Failure? && Guard(h, y).Fail? ==> c.error == Argument
    ensures c.Success? ==> |c.value| == |h| && forall i | 0 <= i < |h| ::
      c.value[i] == if y[i] == 1.0 then -log(h[i]) else -log(1.0 - h[i])
  {
    var guarded :- Guard(h, y).ToResult();
    if |h| != |y| then Failure(DimensionMismatch)
    else Success(seq(|h|, i requires 0 <= i < |h| => -y[i] * log(h[i]) - (1.0 - y[i]) * log(1.0 - h[i])))
  }

  lemma GuardRegression()
    ensures Guard([0.9], [1.0]).Pass? && Guard([0.1], [1.0]).Pass? && Guard([0.5], [0.0]).Pass?
    ensures Guard([1.0], [1.0]).Fail? && Guard([2.0], [1.0]).Fail? && Guard([0.0], [1.0]).Fail?
    ensures Guard([-1.0], [1.0]).Fail? && Guard([0.5], [0.5]).Fail?
  {
    assert [1.0][0] >= 1.0 && [2.0][0] >= 1.0 && [0.0][0] <= 0.0 && [-1.0][0] <= 0.0;
    assert [0.5][0] != 0.0 && [0.5][0] != 1.0;
  }

  lemma CrossEntropyGradientRegression()
    ensures CrossEntropyCalcCostGradient([0.5], [0.0]) == Success([2.0])
    ensures CrossEntropyCalcCostGradient([0.5], [1.0]) == Success([-2.0])
  {
    assert CrossEntropyCalcCostGradient([0.5], [0.0]).value == [2.0];
    assert CrossEntropyCalcCostGradient([0.5], [1.0]).value == [-2.0];
  }

  // ---------------------------------------------------------------- dispatch

  /** `ICostFunction.CalcCost`. */
  function CalcCost(cf: CostFunction, h: Vector, y: Vector, log: real -> real): (c: Result<Vector>)
    ensures c.Success? ==> |c.value| == |h|
  {
    match cf
    case QuadraticCost => QuadraticCalcCost(h, y)
    case CrossEntropyCost => CrossEntropyCalcCost(h, y, log)
  }

  /** `ICostFunction.CalcCostGradient`. */
  function CalcCostGradient(cf: CostFunction, h: Vector, y: Vector): (g: Result<Vector>)
    ensures g.Success? ==> |g.value| == |h|
  {
    match cf
    case QuadraticCost => QuadraticCalcCostGradient(h, y)
    case CrossEntropyCost => CrossEntropyCalcCostGradient(h, y)
  }

  /** The cost and its gradient accept the same pairs, and refuse a pair with the same
    * error. */
  lemma CostAndGradientAgree(cf: CostFunction, h: Vector, y: Vector, log: real -> real)
    ensures CalcCost(cf, h, y, log).Success? <==> CalcCostGradient(cf, h, y).Success?
    ensures CalcCost(cf, h, y, log).Failure? ==> CalcCost(cf, h, y, log).error == CalcCostGradient(cf, h, y).error
  {
  }
}
