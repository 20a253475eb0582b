/** The fully connected layer: an affine map whose weights carry the bias in column 0. */
module DenseLayers {
  import opened Wrappers
  import opened Sizes
  import opened Matrices
  import opened Tensors
  import opened TrainingRuns

  /** The shape of the weights of `new DenseLayer(inputSize, outputSize)`: one row per
    * output value, one column per input value plus the bias column inserted at 0. A
    * negative total length is refused by the matrix builder. */
  function DenseWeightsShape(inputSize: Size, outputSize: Size): (r: Result<(nat, nat)>)
    ensures r.Success? <==> TotalLength(outputSize) >= 0 && TotalLength(inputSize) >= 0
    ensures r.Failure? ==> r.error == ArgumentOutOfRange
    ensures r.Success? ==> r.value == (TotalLength(outputSize), TotalLength(inputSize) + 1)
  {
    var m :- Dense(TotalLength(outputSize), TotalLength(inputSize));
    Success((m.rows, m.cols + 1))
  }

  /** The vector of ones with the input copied over all but its first entry: `[1; x]`. */
  function WithBias(x: Vector): (b: Vector)
    ensures |b| == |x| + 1 && b[0] == 1.0 && b[1..] == x
  {
    [1.0] + x
  }

  /** A dot product splits into its first term and the rest. */
  lemma {:induction false} DotOfCons(a: real, u: Vector, b: real, v: Vector)
    requires |u| == |v|
    ensures Dot([a] + u, [b] + v) == a * b + Dot(u, v)
    decreases |u|
  {
    if u != [] {
      var n := |u|;
      assert ([a] + u)[..n] == [a] + u[..n - 1];
      assert ([b] + v)[..n] == [b] + v[..n - 1];
      DotOfCons(a, u[..n - 1], b, v[..n - 1]);
    }
  }

  // ---------------------------------------------------------------- forward

  /** `DenseLayer.FeedForwardsInternal`: the weights times `[1; x]`, in a tensor of the
    * declared output size. Weights of another width are refused by the product, and a
    * row count that is not the output length by the tensor constructor. */
  function DenseForward(weights: Matrix, outputSize: Size, input: Tensor): (r: Result<Tensor>)
    ensures r.Success? <==> weights.cols == |input.value| + 1 && outputSize.length == weights.rows
    ensures weights.cols != |input.value| + 1 ==> r == Failure(DimensionMismatch)
    ensures weights.cols == |input.value| + 1 && outputSize.length != weights.rows ==> r == Failure(ArgumentOutOfRange)
    ensures r.Success? ==> r.value.size == outputSize
    ensures r.Success? ==> forall i | 0 <= i < weights.rows :: r.value.value[i] == Dot(weights.data[i], WithBias(input.value))
  {
    var y :- MulVec(weights, WithBias(input.value));
    NewTensor(Clone(outputSize), y)
  }

  /** `DenseLayer.FeedForwardsInternal` as written, through `Size.Clone` as written. */
  function DenseForwardAsWritten(weights: Matrix, outputSize: Size, input: Tensor): Result<Tensor>
  {
    var y :- MulVec(weights, WithBias(input.value));
    NewTensor(CloneAsWritten(outputSize), y)
  }

  /** A dense layer whose output size was built from no dimensions, as written, fails on
    * every input its weights fit, where the corrected pass gives the one output value. */
  lemma DenseForwardAsWrittenOfEmptySize(weights: Matrix, input: Tensor)
    requires weights.rows == 1 && weights.cols == |input.value| + 1
    ensures DenseForwardAsWritten(weights, NewSize([]), input) == Failure(ArgumentOutOfRange)
    ensures DenseForward(weights, NewSize([]), input).Success?
    ensures DenseForward(weights, NewSize([]), input).value.value == [Dot(weights.data[0], WithBias(input.value))]
  {
    assert Product([0]) == 0;
    assert DenseForward(weights, NewSize([]), input).value.value == [Dot(weights.data[0], WithBias(input.value))];
  }

  /** For an output size built from some dimensions, the pass as written is the corrected
    * one, up to the kernel count the clone drops. */
  lemma DenseForwardAsWrittenOfNonEmptySize(weights: Matrix, dims: seq<int>, k: int, input: Tensor)
    requires dims != []
    ensures DenseForwardAsWritten(weights, NewKernelSize(dims, k), input).Success? <==>
      DenseForward(weights, NewKernelSize(dims, k), input).Success?
    ensures DenseForward(weights, NewKernelSize(dims, k), input).Success? ==>
      DenseForwardAsWritten(weights, NewKernelSize(dims, k), input) ==
      Success(DenseForward(weights, NewKernelSize(dims, k), input).value.(size := NewSize(dims)))
    ensures DenseForward(weights, NewKernelSize(dims, k), input).Failure? ==>
      DenseForwardAsWritten(weights, NewKernelSize(dims, k), input) == DenseForward(weights, NewKernelSize(dims, k), input)
  {
  }

  /** Output `i` of the forward pass is the bias `W[i][0]` plus the weighted sum of the
    * inputs by the rest of row `i`. */
  lemma DenseForwardIsAffine(weights: Matrix, outputSize: Size, input: Tensor, i: int)
    requires DenseForward(weights, outputSize, input).Success? && 0 <= i < weights.rows
    ensures DenseForward(weights, outputSize, input).value.value[i] == weights.data[i][0] + Dot(weights.data[i][1..], input.value)
  {
    var row := weights.data[i];
    assert row == [row[0]] + row[1..];
    DotOfCons(row[0], row[1..], 1.0, input.value);
  }

  // ---------------------------------------------------------------- backward

  /** The input error of `DenseLayer.BackPropagate`: the transposed weights times the
    * output error, without its first (bias) entry. An output error of another length is
    * refused by the product; weights without a column leave nothing to drop. */
  function DenseInputError(weights: Matrix, outputError: Tensor): (r: Result<Vector>)
    ensures r.Success? <==> weights.rows == |outputError.value| && weights.cols >= 1
    ensures weights.rows != |outputError.value| ==> r == Failure(DimensionMismatch)
    ensures weights.rows == |outputError.value| && weights.cols == 0 ==> r == Failure(ArgumentOutOfRange)
    ensures r.Success? ==>
      |r.value| == weights.cols - 1 &&
      forall j | 0 <= j < weights.cols - 1 :: r.value[j] == Dot(Column(weights, j + 1), outputError.value)
  {
    var full :- MulVec(Transpose(weights), outputError.value);
    assert forall j | 0 <= j < weights.cols :: Transpose(weights).data[j] == Column(weights, j);
    SubVector(full, 1, |full| - 1)
  }

  /** `DenseLayer.CalcWeightsDelta`: the outer product of the output error with `[1; x]`. */
  function DenseWeightsDelta(input: Tensor, outputError: Tensor): (d: Matrix)
    ensures d.rows == |outputError.value| && d.cols == |input.value| + 1
    ensures forall i | 0 <= i < d.rows :: d.data[i][0] == outputError.value[i]
    ensures forall i, j | 0 <= i < d.rows && 0 <= j < |input.value| :: d.data[i][j + 1] == outputError.value[i] * input.value[j]
  {
    OuterProduct(outputError.value, WithBias(input.value))
  }

  /** `DenseLayer.BackPropagate` on the state of a run: the output error is read and
    * pushed back through the weights into the input error; then the recorded input and
    * the output error give the weights delta. A null slot is dereferenced. */
  function DenseBackward(weights: Matrix, v: RunView): (r: Result<RunView>)
    ensures OutputErrorOf(v).Failure? ==> r == Failure(IndexOutOfRange)
    ensures OutputErrorOf(v) == Success(None) ==> r == Failure(NullReference)
    ensures r.Success? ==>
      OutputErrorOf(v).Success? && OutputErrorOf(v).value.Some? && InputOf(v).Success? && InputOf(v).value.Some? &&
      DenseInputError(weights, OutputErrorOf(v).value.value).Success? &&
      0 <= v.counter < |v.errors| && v.counter < |v.deltas| &&
      r.value == v.(errors := v.errors[v.counter := Some(FromVector(DenseInputError(weights, OutputErrorOf(v).value.value).value))],
                    deltas := v.deltas[v.counter := Some(DenseWeightsDelta(InputOf(v).value.value, OutputErrorOf(v).value.value))])
  {
    var outputError :- OutputErrorOf(v);
    if outputError.None? then Failure(NullReference)
    else
      var inputError :- DenseInputError(weights, outputError.value);
      var v1 :- WithInputError(v, Some(FromVector(inputError)));
      var input :- InputOf(v1);
      if input.None? then Failure(NullReference)
      else WithWeightsDelta(v1, Some(DenseWeightsDelta(input.value, outputError.value)))
  }

  /** A delta computed from an input of the layer's input length and an output error of
    * its output length has the shape of the weights. */
  lemma DenseDeltaHasWeightsShape(inputSize: Size, outputSize: Size, input: Tensor, outputError: Tensor)
    requires DenseWeightsShape(inputSize, outputSize).Success?
    requires |input.value| == TotalLength(inputSize) && |outputError.value| == TotalLength(outputSize)
    ensures var d := DenseWeightsDelta(input, outputError);
      (d.rows, d.cols) == DenseWeightsShape(inputSize, outputSize).value
  {
  }

  /** Row `i` of the delta is the output error `e[i]` times `[1; x]`: moving the weights
    * against it moves output `i` against its error in proportion to `1 + |x|^2`. */
  lemma DenseDeltaAlongInput(input: Tensor, outputError: Tensor, i: int)
    requires 0 <= i < |outputError.value|
    ensures Dot(DenseWeightsDelta(input, outputError).data[i], WithBias(input.value))
      == outputError.value[i] * (1.0 + Dot(input.value, input.value))
  {
    var x := input.value;
    var e := outputError.value[i];
    var row := DenseWeightsDelta(input, outputError).data[i];
    DenseDeltaRow(input, outputError, i);
    DotOfCons(e, Scaled(e, x), 1.0, x);
    DotOfScaled(e, x);
  }

  /** Row `i` of the delta is `[e[i]; e[i] * x]`. */
  lemma DenseDeltaRow(input: Tensor, outputError: Tensor, i: int)
    requires 0 <= i < |outputError.value|
    ensures DenseWeightsDelta(input, outputError).data[i] == [outputError.value[i]] + Scaled(outputError.value[i], input.value)
  {
    var x := input.value;
    var e := outputError.value[i];
    var row := DenseWeightsDelta(input, outputError).data[i];
    var t := [e] + Scaled(e, x);
    assert |row| == |t|;
    forall k | 0 <= k < |t| ensures row[k] == t[k] {
      if k > 0 {
        assert row[(k - 1) + 1] == e * x[k - 1];
      }
    }
  }

  /** Every entry of `x` times `e`. */
  function Scaled(e: real, x: Vector): (s: Vector)
    ensures |s| == |x| && forall j | 0 <= j < |x| :: s[j] == e * x[j]
  {
    seq(|x|, j requires 0 <= j < |x| => e * x[j])
  }

  /** Scaling one side of a dot product scales the product. */
  lemma {:induction false} DotOfScaled(e: real, x: Vector)
    ensures Dot(Scaled(e, x), x) == e * Dot(x, x)
    decreases |x|
  {
    if x != [] {
      var n := |x|;
      var s, t := Scaled(e, x), Scaled(e, x[..n - 1]);
      assert forall k | 0 <= k < n - 1 :: s[..n - 1][k] == s[k] == e * x[k] == t[k];
      assert s[..n - 1] == t;
      DotOfScaled(e, x[..n - 1]);
      assert Dot(Scaled(e, x), x) == e * Dot(x[..n - 1], x[..n - 1]) + e * x[n - 1] * x[n - 1];
    }
  }

  /** A dot product of two literal pairs. */
  lemma DotOfTwo(a0: real, a1: real, b0: real, b1: real)
    ensures Dot([a0, a1], [b0, b1]) == a0 * b0 + a1 * b1
  {
    assert [a0, a1] == [a0] + [a1] && [b0, b1] == [b0] + [b1];
    DotOfCons(a0, [a1], b0, [b1]);
    DotOfCons(a1, [], b1, []);
    assert [a1] == [a1] + [] && [b1] == [b1] + [];
  }

  lemma DotOfFour(a0: real, a1: real, a2: real, a3: real, b0: real, b1: real, b2: real, b3: real)
    ensures Dot([a0, a1, a2, a3], [b0, b1, b2, b3]) == a0 * b0 + a1 * b1 + a2 * b2 + a3 * b3
  {
    assert [a0, a1, a2, a3] == [a0, a1] + [a2, a3] && [b0, b1, b2, b3] == [b0, b1] + [b2, b3];
    assert [a0, a1] + [a2, a3] == [a0] + ([a1] + [a2, a3]) && [b0, b1] + [b2, b3] == [b0] + ([b1] + [b2, b3]);
    DotOfCons(a0, [a1] + [a2, a3], b0, [b1] + [b2, b3]);
    DotOfCons(a1, [a2, a3], b1, [b2, b3]);
    DotOfTwo(a2, a3, b2, b3);
  }

  // ---------------------------------------------------------------- the hand-checked layer

  function RegressionWeights(): Matrix
  {
    RawMatrix(2, 4, [[0.61, 0.82, 0.96, -1.0], [0.02, -0.5, 0.23, 0.17]])
  }

  /** Three inputs, two outputs, the bias first in each row of the weights. */
  lemma DenseForwardRegression()
    ensures DenseForward(RegressionWeights(), NewSize([2]), FromVector([0.57, 0.65, 0.55]))
      == Success(FromVector([0.61 * 1.0 + 0.82 * 0.57 + 0.96 * 0.65 + -1.0 * 0.55,
                             0.02 * 1.0 + -0.5 * 0.57 + 0.23 * 0.65 + 0.17 * 0.55]))
  {
    ProductOfOne(2);
    var w := RegressionWeights();
    var b := WithBias([0.57, 0.65, 0.55]);
    assert b == [1.0, 0.57, 0.65, 0.55];
    DotOfFour(0.61, 0.82, 0.96, -1.0, 1.0, 0.57, 0.65, 0.55);
    DotOfFour(0.02, -0.5, 0.23, 0.17, 1.0, 0.57, 0.65, 0.55);
    assert DenseForward(w, NewSize([2]), FromVector([0.57, 0.65, 0.55])).value.value
      == [0.61 * 1.0 + 0.82 * 0.57 + 0.96 * 0.65 + -1.0 * 0.55, 0.02 * 1.0 + -0.5 * 0.57 + 0.23 * 0.65 + 0.17 * 0.55];
  }

  /** The output error [0.25, -0.68] pushed back through the same weights. */
  lemma DenseInputErrorRegression()
    ensures DenseInputError(RegressionWeights(), FromVector([0.25, -0.68]))
      == Success([0.82 * 0.25 + -0.5 * -0.68, 0.96 * 0.25 + 0.23 * -0.68, -1.0 * 0.25 + 0.17 * -0.68])
  {
    var w := RegressionWeights();
    var e := [0.25, -0.68];
    assert Dot(Column(w, 1), e) == 0.82 * 0.25 + -0.5 * -0.68 by { assert Column(w, 1) == [0.82, -0.5]; DotOfTwo(0.82, -0.5, 0.25, -0.68); }
    assert Dot(Column(w, 2), e) == 0.96 * 0.25 + 0.23 * -0.68 by { assert Column(w, 2) == [0.96, 0.23]; DotOfTwo(0.96, 0.23, 0.25, -0.68); }
    assert Dot(Column(w, 3), e) == -1.0 * 0.25 + 0.17 * -0.68 by { assert Column(w, 3) == [-1.0, 0.17]; DotOfTwo(-1.0, 0.17, 0.25, -0.68); }
    assert DenseInputError(w, FromVector(e)).value
      == [0.82 * 0.25 + -0.5 * -0.68, 0.96 * 0.25 + 0.23 * -0.68, -1.0 * 0.25 + 0.17 * -0.68];
  }

  /** The same backward pass through a run of one layer: the input error is stored in slot
    * 0 of the errors and the delta is the outer product of the error with `[1; x]`. */
  lemma DenseBackwardRegression()
    ensures var x, e := FromVector([0.57, 0.65, 0.55]), FromVector([0.25, -0.68]);
      var v := RunView([Some(x), None], [None, Some(e)], [None], 0, 0, 0.0);
      DenseBackward(RegressionWeights(), v) == Success(v.(
        errors := [Some(FromVector([0.82 * 0.25 + -0.5 * -0.68, 0.96 * 0.25 + 0.23 * -0.68, -1.0 * 0.25 + 0.17 * -0.68])), Some(e)],
        deltas := [Some(OuterProduct([0.25, -0.68], [1.0, 0.57, 0.65, 0.55]))]))
  {
    var x, e := FromVector([0.57, 0.65, 0.55]), FromVector([0.25, -0.68]);
    var v := RunView([Some(x), None], [None, Some(e)], [None], 0, 0, 0.0);
    DenseInputErrorRegression();
    assert WithBias(x.value) == [1.0, 0.57, 0.65, 0.55];
    assert OutputErrorOf(v) == Success(Some(e)) && InputOf(v) == Success(Some(x));
    var r := DenseBackward(RegressionWeights(), v);
    assert r.Success?;
    assert r.value.deltas == [Some(DenseWeightsDelta(x, e))];
    assert DenseWeightsDelta(x, e) == OuterProduct([0.25, -0.68], [1.0, 0.57, 0.65, 0.55]);
    assert r.value.errors == [Some(FromVector([0.82 * 0.25 + -0.5 * -0.68, 0.96 * 0.25 + 0.23 * -0.68, -1.0 * 0.25 + 0.17 * -0.68])), Some(e)];
    assert r.value.values == v.values && r.value.counter == v.counter && r.value.batchSize == v.batchSize && r.value.cost == v.cost;
  }
}
