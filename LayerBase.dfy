/** The checks every layer's forward pass runs around its own computation. */
module LayerBase {
  import opened Wrappers
  import opened Sizes
  import opened Tensors

  /** A layer computation that cannot return null, seen as one that may. */
  function Lift(r: Result<Tensor>): (s: Result<Option<Tensor>>)
    ensures s.Success? <==> r.Success?
    ensures s.Success? ==> s.value == Some(r.value)
    ensures s.Failure? ==> s.error == r.error
  {
    var t :- r;
    Success(Some(t))
  }

  /** `LayerBase.FeedForwards`, given the layer's own forward computation `internal`: a
    * null input is refused, then an input of another shape than the declared input; a
    * null output is an invalid operation, and so is an output of another shape than the
    * declared output. */
  function GuardedForward(inputSize: Size, outputSize: Size, input: Option<Tensor>,
                          internal: Tensor -> Result<Option<Tensor>>): (r: Result<Tensor>)
    ensures input.None? ==> r == Failure(ArgumentNull)
    ensures input.Some? && !SizeEquals(input.value.size, Some(inputSize)) ==> r == Failure(Argument)
    ensures input.Some? && SizeEquals(input.value.size, Some(inputSize)) && internal(input.value).Failure? ==>
      r == Failure(internal(input.value).error)
    ensures input.Some? && SizeEquals(input.value.size, Some(inputSize)) && internal(input.value).Success? ==>
      (internal(input.value).value.None? ==> r == Failure(InvalidOperation)) &&
      (internal(input.value).value.Some? && !SizeEquals(internal(input.value).value.value.size, Some(outputSize)) ==>
         r == Failure(InvalidOperation))
    ensures r.Success? <==>
      input.Some? && SizeEquals(input.value.size, Some(inputSize)) &&
      internal(input.value).Success? && internal(input.value).value.Some? &&
      SizeEquals(internal(input.value).value.value.size, Some(outputSize))
    ensures r.Success? ==> internal(input.value) == Success(Some(r.value))
  {
    if input.None? then Failure(ArgumentNull)
    else if !SizeEquals(input.value.size, Some(inputSize)) then Failure(Argument)
    else
      var output :- internal(input.value);
      if output.None? then Failure(InvalidOperation)
      else if !SizeEquals(output.value.size, Some(outputSize)) then Failure(InvalidOperation)
      else Success(output.value)
  }

  /** A successful forward pass returns a tensor of the declared output shape. */
  lemma GuardedForwardShape(inputSize: Size, outputSize: Size, input: Option<Tensor>,
                            internal: Tensor -> Result<Option<Tensor>>)
    requires GuardedForward(inputSize, outputSize, input, internal).Success?
    ensures GuardedForward(inputSize, outputSize, input, internal).value.size.length == outputSize.length
    ensures GuardedForward(inputSize, outputSize, input, internal).value.size.dimensions == outputSize.dimensions
  {
  }
}
