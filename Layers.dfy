/** The layers a net holds. A weighted layer is an object whose weights are replaced in
  * place; an activation layer has no state besides its size and its activation. The
  * computations of every kind are functions of a `LayerValue`, a layer at one moment. */
module Layers {
  import opened Wrappers
  import opened Sizes
  import opened Matrices
  import opened Tensors
  import opened ActivationFns
  import opened TrainingRuns
  import opened LayerBase
  import opened ConvolutionalLayers
  import opened DenseLayers
  import opened ActivationLayers

  /** The computation a weighted layer runs: a dense layer, or a convolution with its
    * stride and padding arrays and its mode. */
  datatype WeightedKind =
    | DenseKind
    | ConvolutionalKind(strides: seq<int>, paddings: seq<int>, isTranspose: bool)

  /** A layer with, when it is weighted, the weights it holds at one moment. */
  datatype LayerValue =
    | WeightedValue(inputSize: Size, outputSize: Size, kind: WeightedKind, weights: Matrix)
    | ActivationValue(size: Size, act: Activation)
  {
    function InputSize(): Size { if WeightedValue? then inputSize else size }
    function OutputSize(): Size { if WeightedValue? then outputSize else size }
  }

  /** The layer's own `FeedForwardsInternal`. A weighted layer builds its output in its
    * declared output size; an activation layer keeps the input's size. */
  function ForwardInternal(l: LayerValue, input: Tensor): (r: Result<Tensor>)
    ensures r.Success? && l.WeightedValue? ==> r.value.size == l.outputSize
    ensures l.ActivationValue? ==> r.Success? && r.value.size == input.size
  {
    match l
    case WeightedValue(_, outputSize, DenseKind, weights) =>
      DenseForward(weights, outputSize, input)
    case WeightedValue(_, outputSize, ConvolutionalKind(strides, paddings, isTranspose), weights) =>
      ConvolutionalForward(weights, outputSize, strides, paddings, isTranspose, input)
    case ActivationValue(_, act) =>
      Success(ActivationForward(act, input))
  }

  /** `LayerBase.FeedForwards` of the layer: the shape checks around its own computation. */
  function FeedForwards(l: LayerValue, input: Option<Tensor>): (r: Result<Tensor>)
    ensures input.None? ==> r == Failure(ArgumentNull)
    ensures input.Some? && !SizeEquals(input.value.size, Some(l.InputSize())) ==> r == Failure(Argument)
    ensures r.Success? ==>
      input.Some? && SizeEquals(input.value.size, Some(l.InputSize())) &&
      ForwardInternal(l, input.value) == Success(r.value) &&
      SizeEquals(r.value.size, Some(l.OutputSize()))
  {
    if input.None? then Failure(ArgumentNull)
    else if !SizeEquals(input.value.size, Some(l.InputSize())) then Failure(Argument)
    else
      var output :- ForwardInternal(l, input.value);
      if !SizeEquals(output.size, Some(l.OutputSize())) then Failure(InvalidOperation)
      else Success(output)
  }

  /** The layer's forward pass is the common guard of every layer around its own
    * computation, which never returns null. */
  lemma FeedForwardsIsGuarded(l: LayerValue, input: Option<Tensor>)
    ensures FeedForwards(l, input) == GuardedForward(l.InputSize(), l.OutputSize(), input, t => Lift(ForwardInternal(l, t)))
  {
  }

  /** An activation layer accepts exactly the inputs of its size, and then applies its
    * activation to every value. */
  lemma ActivationFeedForwards(size: Size, act: Activation, input: Option<Tensor>)
    ensures FeedForwards(ActivationValue(size, act), input).Success? <==>
      input.Some? && SizeEquals(input.value.size, Some(size))
    ensures FeedForwards(ActivationValue(size, act), input).Success? ==>
      FeedForwards(ActivationValue(size, act), input).value == ActivationForward(act, input.value)
  {
    if input.Some? && SizeEquals(input.value.size, Some(size)) {
      assert ForwardInternal(ActivationValue(size, act), input.value).value.size == input.value.size;
    }
  }

  /** A dense layer accepts an input of its input size exactly when its weights have the
    * shape its constructor gives them and its output size spans its weight rows. */
  lemma DenseFeedForwards(inputSize: Size, outputSize: Size, weights: Matrix, input: Tensor)
    requires SizeEquals(input.size, Some(inputSize)) && inputSize.kernelCount == 1
    requires DenseWeightsShape(inputSize, outputSize) == Success((weights.rows, weights.cols))
    requires outputSize.length == weights.rows
    ensures FeedForwards(WeightedValue(inputSize, outputSize, DenseKind, weights), Some(input)).Success?
  {
    assert |input.value| == input.size.length == inputSize.length;
    assert weights.cols == |input.value| + 1;
    var l := WeightedValue(inputSize, outputSize, DenseKind, weights);
    assert ForwardInternal(l, input).Success?;
    assert SizeEquals(ForwardInternal(l, input).value.size, Some(outputSize));
  }

  /** A rectifier or jagged sigmoid layer of `new Size()` admits the one-value tensor of
    * that size, and the model's pass computes its activation; the pass as written maps it
    * into a tensor of the cloned size, which spans no value, and fails. */
  lemma ActivationLayerOfEmptySize(act: Activation, x: real)
    ensures var t := RawTensor(NewSize([]), [x]);
      FeedForwards(ActivationValue(NewSize([]), act), Some(t)) == Success(ActivationForward(act, t)) &&
      MapAsWritten(t, act.fn) == Failure(ArgumentOutOfRange)
  {
    var t := RawTensor(NewSize([]), [x]);
    ActivationFeedForwards(NewSize([]), act, Some(t));
    ActivationAsWrittenOfEmptySize(act, x, 0.0);
  }

  /** A dense layer whose output size is `new Size()` admits every input of its input
    * size, and the model's pass computes the one output value; the pass as written builds
    * the output in the cloned size, which spans no value, and fails. */
  lemma DenseLayerOfEmptyOutputSize(inputSize: Size, weights: Matrix, input: Tensor)
    requires SizeEquals(input.size, Some(inputSize)) && inputSize.kernelCount == 1
    requires DenseWeightsShape(inputSize, NewSize([])) == Success((weights.rows, weights.cols))
    ensures FeedForwards(WeightedValue(inputSize, NewSize([]), DenseKind, weights), Some(input)) ==
      DenseForward(weights, NewSize([]), input)
    ensures FeedForwards(WeightedValue(inputSize, NewSize([]), DenseKind, weights), Some(input)).Success?
    ensures DenseForwardAsWritten(weights, NewSize([]), input) == Failure(ArgumentOutOfRange)
  {
    assert TotalLength(NewSize([])) == 1;
    DenseFeedForwards(inputSize, NewSize([]), weights, input);
    DenseForwardAsWrittenOfEmptySize(weights, input);
  }

  /** What a layer's backward pass may change: the input error and the weights delta of
    * the current layer, nothing else. */
  predicate KeepsAllButCurrent(v: RunView, w: RunView)
  {
    0 <= v.counter < |v.errors| && |w.errors| == |v.errors| && |w.deltas| == |v.deltas| &&
    w.values == v.values && w.counter == v.counter && w.batchSize == v.batchSize && w.cost == v.cost &&
    (forall k | 0 <= k < |v.errors| && k != v.counter :: w.errors[k] == v.errors[k]) &&
    (forall k | 0 <= k < |v.deltas| && k != v.counter :: w.deltas[k] == v.deltas[k])
  }

  /** The layer's `BackPropagate` on the state of a run. Every kind stores an input error
    * for the current layer and changes nothing else but, when weighted, its delta. */
  function Backward(l: LayerValue, v: RunView): (r: Result<RunView>)
    ensures r.Success? ==> KeepsAllButCurrent(v, r.value) && r.value.errors[v.counter].Some?
    ensures r.Success? && l.ActivationValue? ==> r.value.deltas == v.deltas
    ensures r.Success? && l.WeightedValue? ==> 0 <= v.counter < |v.deltas| && r.value.deltas[v.counter].Some?
  {
    match l
    case WeightedValue(_, _, DenseKind, weights) =>
      DenseBackward(weights, v)
    case WeightedValue(inputSize, outputSize, ConvolutionalKind(strides, paddings, isTranspose), weights) =>
      ConvolutionalBackward(weights, inputSize, outputSize, strides, paddings, isTranspose, v)
    case ActivationValue(size, act) =>
      ActivationBackward(size, act, v)
  }

  /** Every weighted layer leaves a delta of the shape of its weights. */
  lemma BackwardDeltaShape(l: LayerValue, v: RunView)
    requires l.WeightedValue? && Backward(l, v).Success?
    requires l.kind.DenseKind? ==> |InputOf(v).value.value.value| + 1 == l.weights.cols && |OutputErrorOf(v).value.value.value| == l.weights.rows
    ensures Backward(l, v).value.deltas[v.counter].value.rows == l.weights.rows
    ensures Backward(l, v).value.deltas[v.counter].value.cols == l.weights.cols
  {
  }

  /** The weights the constructors start from: `init` stands for the random fill. */
  function Filled(rows: nat, cols: nat, init: (int, int) -> real): (m: Matrix)
    ensures m.rows == rows && m.cols == cols
    ensures forall i, j | 0 <= i < rows && 0 <= j < cols :: m.data[i][j] == init(i, j)
  {
    RawMatrix(rows, cols, seq(rows, i => seq(cols, j => init(i, j))))
  }

  // ---------------------------------------------------------------- the weights layer

  /** `WeightsLayerBase` with the computation of its kind: the sizes are fixed, the
    * weights are replaced wholesale. */
  class WeightsLayer {
    const inputSize: Size
    const outputSize: Size
    const kind: WeightedKind
    var weights: Matrix

    function Value(): LayerValue
      reads this
    {
      WeightedValue(inputSize, outputSize, kind, weights)
    }

    constructor (inputSize: Size, outputSize: Size, kind: WeightedKind, weights: Matrix)
      ensures Value() == WeightedValue(inputSize, outputSize, kind, weights)
    {
      this.inputSize, this.outputSize, this.kind := inputSize, outputSize, kind;
      this.weights := weights;
    }

    /** `GetWeights`: the current weights. */
    method GetWeights() returns (w: Matrix)
      ensures w == weights
    {
      w := weights;
    }

    /** `SetWeights`: replaces the weights, of whatever shape. */
    method SetWeights(w: Matrix)
      modifies this
      ensures weights == w
    {
      weights := w;
    }

    /** `UpdateWeights`: replaces the weights by the update's image of them. */
    method UpdateWeights(update: Matrix --> Matrix)
      requires update.requires(weights)
      modifies this
      ensures weights == update(old(weights))
    {
      weights := update(weights);
    }

    /** The layer's `BackPropagate` on a run object. A convolution stores its input error,
      * then a zero delta of its weights' shape, then the delta tiled into it. */
    method BackPropagate(run: TrainingRun) returns (o: Outcome)
      requires run.Valid()
      modifies run.errors, run.weightsDeltas
      ensures o.Pass? <==> Backward(Value(), old(run.View())).Success?
      ensures o.Pass? ==> run.View() == Backward(Value(), old(run.View())).value
      ensures o.Fail? ==> o.error == Backward(Value(), old(run.View())).error
    {
      var v := run.View();
      match kind {
        case DenseKind =>
          var r := DenseBackward(weights, v);
          if r.Failure? {
            return Fail(r.error);
          }
          var stored := run.SetInputError(r.value.errors[v.counter]);
          o := run.SetWeightsDelta(r.value.deltas[v.counter]);
          assert run.View() == r.value;
        case ConvolutionalKind(strides, paddings, isTranspose) =>
          var products := BackwardProducts(weights, inputSize, outputSize, strides, paddings, isTranspose, v);
          if products.Failure? {
            return Fail(products.error);
          }
          var delta, inputError := products.value.0, products.value.1;
          o := run.SetInputError(Some(FromMatrix(inputError)));
          if o.Fail? {
            return;
          }
          o := run.SetWeightsDelta(Some(Zeros(weights.rows, weights.cols)));
          if o.Fail? {
            return;
          }
          if delta.None? {
            return Fail(NullReference);
          }
          var tiled := TileDelta(weights.rows, weights.cols, delta.value);
          if tiled.Failure? {
            return Fail(tiled.error);
          }
          o := run.SetWeightsDelta(Some(tiled.value));
      }
    }
  }

  /** `new DenseLayer(inputSize, outputSize)` with `init` for the random fill it ends with.
    * A negative total length is refused by the matrix builder. */
  method NewDenseLayer(inputSize: Size, outputSize: Size, init: (int, int) -> real) returns (r: Result<WeightsLayer>)
    ensures r.Success? <==> DenseWeightsShape(inputSize, outputSize).Success?
    ensures r.Failure? ==> r.error == ArgumentOutOfRange
    ensures r.Success? ==> fresh(r.value)
    ensures r.Success? ==>
      var shape := DenseWeightsShape(inputSize, outputSize).value;
      r.value.Value() == WeightedValue(inputSize, outputSize, DenseKind, Filled(shape.0, shape.1, init))
  {
    var shape := DenseWeightsShape(inputSize, outputSize);
    if shape.Failure? {
      return Failure(shape.error);
    }
    var layer := new WeightsLayer(inputSize, outputSize, DenseKind, Filled(shape.value.0, shape.value.1, init));
    r := Success(layer);
  }

  /** `new ConvolutionalLayer(inputSize, outputSize, weightLength, strideArray,
    * paddingArray)` with `init` for its random fill: the dimension guard first, then the
    * mode (transpose when the output spans more values) and the weights' shape. */
  method NewConvolutionalLayer(inputSize: Size, outputSize: Size, weightLength: seq<int>, strides: seq<int>,
                               paddings: seq<int>, init: (int, int) -> real) returns (r: Result<WeightsLayer>)
    ensures r.Success? <==> ConvolutionalWeightsShape(inputSize, outputSize, weightLength).Success?
    ensures r.Failure? ==> r.error == ConvolutionalWeightsShape(inputSize, outputSize, weightLength).error
    ensures r.Success? ==> fresh(r.value)
    ensures r.Success? ==>
      var shape := ConvolutionalWeightsShape(inputSize, outputSize, weightLength).value;
      r.value.Value() == WeightedValue(inputSize, outputSize,
        ConvolutionalKind(strides, paddings, outputSize.length > inputSize.length), Filled(shape.0, shape.1, init))
  {
    var guard := GuardDimensions(outputSize, inputSize);
    if guard.Fail? {
      return Failure(guard.error);
    }
    var shape := ConvolutionalWeightsShape(inputSize, outputSize, weightLength);
    if shape.Failure? {
      return Failure(shape.error);
    }
    var kind := ConvolutionalKind(strides, paddings, outputSize.length > inputSize.length);
    var layer := new WeightsLayer(inputSize, outputSize, kind, Filled(shape.value.0, shape.value.1, init));
    r := Success(layer);
  }

  // ---------------------------------------------------------------- layers of a net

  /** An entry of a net's layer list: a weights layer object, or an activation layer,
    * which has no state to share. */
  datatype Layer =
    | Weighted(layer: WeightsLayer)
    | ActivationLayer(size: Size, act: Activation)
  {
    function InputSize(): Size { if Weighted? then layer.inputSize else size }
    function OutputSize(): Size { if Weighted? then layer.outputSize else size }
  }

  /** The objects a layer entry reads. */
  function Footprint(l: Layer): set<WeightsLayer>
  {
    if l.Weighted? then {l.layer} else {}
  }

  function ValueOf(l: Layer): (v: LayerValue)
    reads Footprint(l)
    ensures v.InputSize() == l.InputSize() && v.OutputSize() == l.OutputSize()
    ensures v.WeightedValue? <==> l.Weighted?
  {
    match l
    case Weighted(layer) => layer.Value()
    case ActivationLayer(size, act) => ActivationValue(size, act)
  }

  /** `new Relu(size)` and `new JaggedSig(size)`: the activation layers the library binds. */
  function ReluLayer(size: Size): (l: Layer)
    ensures ValueOf(l) == ActivationValue(size, ReluActivation())
  {
    ActivationLayer(size, ReluActivation())
  }

  function ReluSigLayer(size: Size): (l: Layer)
    ensures ValueOf(l) == ActivationValue(size, ReluSigActivation())
  {
    ActivationLayer(size, ReluSigActivation())
  }

  /** A layer's `BackPropagate` on a run object: an activation layer stores the input
    * error it computes. */
  method BackPropagateLayer(l: Layer, run: TrainingRun) returns (o: Outcome)
    requires run.Valid()
    modifies run.errors, run.weightsDeltas
    ensures ValueOf(l) == old(ValueOf(l))
    ensures o.Pass? <==> Backward(old(ValueOf(l)), old(run.View())).Success?
    ensures o.Pass? ==> run.View() == Backward(old(ValueOf(l)), old(run.View())).value
    ensures o.Fail? ==> o.error == Backward(old(ValueOf(l)), old(run.View())).error
  {
    match l {
      case Weighted(layer) =>
        o := layer.BackPropagate(run);
      case ActivationLayer(size, act) =>
        var v := run.View();
        var r := ActivationBackward(size, act, v);
        if r.Failure? {
          return Fail(r.error);
        }
        o := run.SetInputError(r.value.errors[v.counter]);
        assert run.View() == r.value;
    }
  }

  // ---------------------------------------------------------------- the hand-checked layer

  /** The dense layer of three inputs and two outputs through its shape checks. */
  lemma DenseLayerRegression()
    ensures FeedForwards(WeightedValue(NewSize([3]), NewSize([2]), DenseKind, RegressionWeights()),
                         Some(FromVector([0.57, 0.65, 0.55])))
      == Success(FromVector([0.61 * 1.0 + 0.82 * 0.57 + 0.96 * 0.65 + -1.0 * 0.55,
                             0.02 * 1.0 + -0.5 * 0.57 + 0.23 * 0.65 + 0.17 * 0.55]))
    ensures FeedForwards(WeightedValue(NewSize([3]), NewSize([2]), DenseKind, RegressionWeights()),
                         Some(FromVector([0.57, 0.65]))) == Failure(Argument)
  {
    DenseForwardRegression();
    ProductOfOne(2);
    ProductOfOne(3);
    assert FromVector([0.57, 0.65, 0.55]).size == NewSize([3]);
    assert FromVector([0.57, 0.65]).size == NewSize([2]);
    assert !SizeEquals(NewSize([2]), Some(NewSize([3])));
  }
}
