/** The layers that apply an activation value by value: one size for input and output,
  * no weights. */
module ActivationLayers {
  import opened Wrappers
  import opened Sizes
  import opened Matrices
  import opened Tensors
  import opened ActivationFns
  import opened TrainingRuns

  /** `ActivationLayerBase.FeedForwardsInternal`: the activation applied to every value,
    * the size kept. */
  function ActivationForward(act: Activation, input: Tensor): (r: Tensor)
    ensures r.size == input.size && |r.value| == |input.value|
    ensures forall i | 0 <= i < |input.value| :: r.value[i] == act.fn(input.value[i])
  {
    Map(input, act.fn)
  }

  /** The input error `ActivationLayerBase.BackPropagate` builds: the output error times the
    * gradient at the recorded input, value by value, in a tensor of the layer's size. An
    * output error of another length is refused by the pointwise product, and a value
    * count that is not the size's length by the tensor constructor. */
  function ActivationInputError(size: Size, act: Activation, input: Tensor, outputError: Tensor): (r: Result<Tensor>)
    ensures r.Success? <==> |outputError.value| == |input.value| == size.length
    ensures |outputError.value| != |input.value| ==> r == Failure(DimensionMismatch)
    ensures |outputError.value| == |input.value| != size.length ==> r == Failure(ArgumentOutOfRange)
    ensures r.Success? ==> r.value.size == size
    ensures r.Success? ==>
      forall i | 0 <= i < |input.value| :: r.value.value[i] == outputError.value[i] * act.grad(input.value[i])
  {
    var product :- VPointwiseMultiply(outputError.value, VMap(input.value, act.grad));
    NewTensor(Clone(size), product)
  }

  /** The input error as the source builds it, through `Tensor.Map` and `Size.Clone` as
    * written: the recorded input is mapped by the gradient into a tensor of its cloned
    * size, and the product goes into a tensor of the layer's cloned size. */
  function ActivationInputErrorAsWritten(size: Size, act: Activation, input: Tensor, outputError: Tensor): Result<Tensor>
  {
    var derivative :- MapAsWritten(input, act.grad);
    var product :- VPointwiseMultiply(outputError.value, derivative.value);
    NewTensor(CloneAsWritten(size), product)
  }

  /** An activation layer of a size built from no dimensions, as written, fails on the
    * one-value tensor its guard admits, forwards and backwards, where the corrected
    * forms compute the activation and the input error. */
  lemma ActivationAsWrittenOfEmptySize(act: Activation, x: real, e: real)
    ensures var t, u := RawTensor(NewSize([]), [x]), RawTensor(NewSize([]), [e]);
      MapAsWritten(t, act.fn) == Failure(ArgumentOutOfRange) &&
      ActivationForward(act, t).value == [act.fn(x)] &&
      ActivationInputErrorAsWritten(NewSize([]), act, t, u) == Failure(ArgumentOutOfRange) &&
      ActivationInputError(NewSize([]), act, t, u) == Success(RawTensor(NewSize([]), [e * act.grad(x)]))
  {
    var t, u := RawTensor(NewSize([]), [x]), RawTensor(NewSize([]), [e]);
    MapAsWrittenOfEmptySize(x, act.fn);
    MapAsWrittenOfEmptySize(x, act.grad);
    assert ActivationForward(act, t).value == [act.fn(x)];
    assert NewSize([]).length == 1;
    var r := ActivationInputError(NewSize([]), act, t, u).value;
    assert r.value[0] == e * act.grad(x);
    assert r.value == [e * act.grad(x)];
  }

  /** For a layer and an input of one size built from some dimensions, the input error as
    * written is the corrected one, up to the kernel count the clone drops. */
  lemma ActivationInputErrorAsWrittenOfNonEmptySize(dims: seq<int>, k: int, act: Activation, input: Tensor,
                                                    outputError: Tensor)
    requires dims != [] && input.size == NewKernelSize(dims, k)
    ensures ActivationInputErrorAsWritten(NewKernelSize(dims, k), act, input, outputError).Success? <==>
      ActivationInputError(NewKernelSize(dims, k), act, input, outputError).Success?
    ensures ActivationInputError(NewKernelSize(dims, k), act, input, outputError).Success? ==>
      ActivationInputErrorAsWritten(NewKernelSize(dims, k), act, input, outputError) ==
      Success(ActivationInputError(NewKernelSize(dims, k), act, input, outputError).value.(size := NewSize(dims)))
    ensures ActivationInputError(NewKernelSize(dims, k), act, input, outputError).Failure? ==>
      ActivationInputErrorAsWritten(NewKernelSize(dims, k), act, input, outputError) ==
      ActivationInputError(NewKernelSize(dims, k), act, input, outputError)
  {
    MapAsWrittenOfNonEmptySize(input, dims, k, act.grad);
  }

  /** `ActivationLayerBase.BackPropagate` on the state of a run: the recorded input is read
    * first and the output error second, a null either way is dereferenced, and only the
    * input error of the current layer is replaced. */
  function ActivationBackward(size: Size, act: Activation, v: RunView): (r: Result<RunView>)
    ensures InputOf(v).Failure? ==> r == Failure(IndexOutOfRange)
    ensures InputOf(v) == Success(None) ==> r == Failure(NullReference)
    ensures r.Success? <==>
      InputOf(v).Success? && InputOf(v).value.Some? &&
      OutputErrorOf(v).Success? && OutputErrorOf(v).value.Some? &&
      ActivationInputError(size, act, InputOf(v).value.value, OutputErrorOf(v).value.value).Success?
    ensures r.Success? ==>
      r.value == v.(errors := v.errors[v.counter :=
        Some(ActivationInputError(size, act, InputOf(v).value.value, OutputErrorOf(v).value.value).value)])
  {
    var input :- InputOf(v);
    if input.None? then Failure(NullReference)
    else
      var outputError :- OutputErrorOf(v);
      if outputError.None? then Failure(NullReference)
      else
        var inputError :- ActivationInputError(size, act, input.value, outputError.value);
        WithInputError(v, Some(inputError))
  }

  /** Only the input error of the current layer changes: values, the other errors, the
    * weights deltas, the cursor, the batch size and the cost are all kept. */
  lemma ActivationBackwardFrame(size: Size, act: Activation, v: RunView)
    requires ActivationBackward(size, act, v).Success?
    ensures var w := ActivationBackward(size, act, v).value;
      w.values == v.values && w.deltas == v.deltas && w.counter == v.counter &&
      w.batchSize == v.batchSize && w.cost == v.cost && |w.errors| == |v.errors| &&
      (forall i | 0 <= i < |v.errors| && i != v.counter :: w.errors[i] == v.errors[i]) &&
      w.errors[v.counter].Some? && w.errors[v.counter].value.size == size
  {
  }

  // ---------------------------------------------------------------- the two bound layers

  /** A `Relu` layer never outputs a negative value, and it keeps every positive one. */
  lemma ReluForward(input: Tensor)
    ensures var r := ActivationForward(ReluActivation(), input);
      forall i | 0 <= i < |input.value| ::
        r.value[i] >= 0.0 && (input.value[i] > 0.0 ==> r.value[i] == input.value[i]) &&
        (input.value[i] <= 0.0 ==> r.value[i] == 0.0)
  {
  }

  /** A `Relu` layer passes the output error back where the recorded input was positive
    * and blocks it elsewhere. */
  lemma ReluBackwardGates(size: Size, input: Tensor, outputError: Tensor)
    requires |outputError.value| == |input.value| == size.length
    ensures var r := ActivationInputError(size, ReluActivation(), input, outputError).value;
      forall i | 0 <= i < |input.value| ::
        r.value[i] == if input.value[i] > 0.0 then outputError.value[i] else 0.0
  {
  }

  /** A `ReluSig` layer scales the output error by 0.075 inside (-4, 4) and by 0.01
    * outside it. */
  lemma ReluSigBackwardScales(size: Size, input: Tensor, outputError: Tensor)
    requires |outputError.value| == |input.value| == size.length
    ensures var r := ActivationInputError(size, ReluSigActivation(), input, outputError).value;
      forall i | 0 <= i < |input.value| ::
        r.value[i] == (if -4.0 < input.value[i] < 4.0 then 0.075 else 0.01) * outputError.value[i]
  {
    var r := ActivationInputError(size, ReluSigActivation(), input, outputError).value;
    forall i | 0 <= i < |input.value|
      ensures r.value[i] == (if -4.0 < input.value[i] < 4.0 then 0.075 else 0.01) * outputError.value[i]
    {
      assert r.value[i] == outputError.value[i] * ReluSigGrad(input.value[i]);
    }
  }

  /** A pass forward and back through a `Relu` layer over two values, one on each side of
    * the kink. */
  lemma ReluLayerRegression()
    ensures ActivationForward(ReluActivation(), FromVector([-1.0, 2.0])) == FromVector([0.0, 2.0])
    ensures ActivationInputError(NewSize([2]), ReluActivation(), FromVector([-1.0, 2.0]), FromVector([0.5, 0.25]))
      == Success(FromVector([0.0, 0.25]))
  {
    assert ActivationForward(ReluActivation(), FromVector([-1.0, 2.0])).value == [0.0, 2.0];
    ProductOfOne(2);
    assert ActivationInputError(NewSize([2]), ReluActivation(), FromVector([-1.0, 2.0]), FromVector([0.5, 0.25])).value.value
      == [0.0, 0.25];
  }
}
