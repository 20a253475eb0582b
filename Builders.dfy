/** The fluent extensions that grow a net by one layer sized from the net's current output:
  * `Dense`, `Relu`, `ReluSig`, `Convolution` and `ConvolutionTranspose`. The random fill of
  * a weighted layer's constructor is the parameter `init`. */
module Builders {
  import opened Wrappers
  import opened Sizes
  import opened ActivationFns
  import opened ConvolutionalLayers
  import opened DenseLayers
  import opened Layers
  import opened Nets
  import opened Matrices

  /** `net.Dense(outputSize)`: a dense layer from the net's output size to `outputSize`. A
    * negative total length is refused by the weights' allocation and the net is kept. */
  method Dense(net: Net, outputSize: Size, init: (int, int) -> real) returns (o: Outcome)
    requires net.Valid()
    modifies net
    ensures net.Valid()
    ensures o.Pass? <==> DenseWeightsShape(old(net.outputSize), outputSize).Success?
    ensures o.Fail? ==> o.error == ArgumentOutOfRange && net.layers == old(net.layers) && net.outputSize == old(net.outputSize)
    ensures o.Pass? ==> net.outputSize == outputSize && |net.layers| == |old(net.layers)| + 1
    ensures o.Pass? ==>
      var shape := DenseWeightsShape(old(net.outputSize), outputSize).value;
      net.Values() == old(net.Values()) + [WeightedValue(old(net.outputSize), outputSize, DenseKind, Filled(shape.0, shape.1, init))]
  {
    net.WeightedAllocated();
    var layer := NewDenseLayer(net.outputSize, outputSize, init);
    if layer.Failure? {
      return Fail(layer.error);
    }
    net.Add(Weighted(layer.value));
    o := Pass;
  }

  /** `net.Relu()`: a rectifier layer of the net's output size, which keeps that size. */
  method Relu(net: Net)
    requires net.Valid()
    modifies net
    ensures net.Valid() && net.outputSize == old(net.outputSize)
    ensures net.layers == old(net.layers) + [ReluLayer(old(net.outputSize))]
    ensures net.Values() == old(net.Values()) + [ActivationValue(old(net.outputSize), ReluActivation())]
  {
    net.Add(ReluLayer(net.outputSize));
  }

  /** `net.ReluSig()`: a jagged sigmoid layer of the net's output size, which keeps that
    * size. */
  method ReluSig(net: Net)
    requires net.Valid()
    modifies net
    ensures net.Valid() && net.outputSize == old(net.outputSize)
    ensures net.layers == old(net.layers) + [ReluSigLayer(old(net.outputSize))]
    ensures net.Values() == old(net.Values()) + [ActivationValue(old(net.outputSize), ReluSigActivation())]
  {
    net.Add(ReluSigLayer(net.outputSize));
  }

  /** The layer a convolution builder adds, from the sizes it computed. */
  function BuiltConvolution(inputSize: Size, shape: LayerShape, weightLengths: seq<int>, init: (int, int) -> real): (l: LayerValue)
    requires ConvolutionalWeightsShape(inputSize, shape.outputSize, weightLengths).Success?
    ensures l.WeightedValue? && l.inputSize == inputSize && l.outputSize == shape.outputSize
    ensures l.kind == ConvolutionalKind(shape.strides, shape.paddings, shape.outputSize.length > inputSize.length)
  {
    var dims := ConvolutionalWeightsShape(inputSize, shape.outputSize, weightLengths).value;
    WeightedValue(inputSize, shape.outputSize,
      ConvolutionalKind(shape.strides, shape.paddings, shape.outputSize.length > inputSize.length),
      Filled(dims.0, dims.1, init))
  }

  /** Adds the convolutional layer of the computed sizes, or keeps the net when the layer's
    * constructor refuses them. */
  method AddConvolution(net: Net, shape: LayerShape, weightLengths: seq<int>, init: (int, int) -> real)
    returns (o: Outcome)
    requires net.Valid()
    modifies net
    ensures net.Valid()
    ensures o.Pass? <==> ConvolutionalWeightsShape(old(net.outputSize), shape.outputSize, weightLengths).Success?
    ensures o.Fail? ==>
      o.error == ConvolutionalWeightsShape(old(net.outputSize), shape.outputSize, weightLengths).error &&
      net.layers == old(net.layers) && net.outputSize == old(net.outputSize)
    ensures o.Pass? ==> net.outputSize == shape.outputSize && |net.layers| == |old(net.layers)| + 1
    ensures o.Pass? ==> net.Values() == old(net.Values()) + [BuiltConvolution(old(net.outputSize), shape, weightLengths, init)]
  {
    net.WeightedAllocated();
    var layer := NewConvolutionalLayer(net.outputSize, shape.outputSize, weightLengths, shape.strides, shape.paddings, init);
    if layer.Failure? {
      return Fail(layer.error);
    }
    net.Add(Weighted(layer.value));
    o := Pass;
  }

  /** `net.Convolution(weightLengths, kernelCount, strideArray)`: the builder's sizes from
    * the net's output size, then the layer of those sizes. */
  method Convolution(net: Net, weightLengths: seq<int>, kernelCount: int, strideArray: Option<seq<int>>,
                     init: (int, int) -> real) returns (o: Outcome)
    requires net.Valid()
    modifies net
    ensures net.Valid()
    ensures o.Pass? <==>
      var shape := ConvolutionBuilder(old(net.outputSize), weightLengths, kernelCount, strideArray);
      shape.Success? && ConvolutionalWeightsShape(old(net.outputSize), shape.value.outputSize, weightLengths).Success?
    ensures o.Fail? ==> net.layers == old(net.layers) && net.outputSize == old(net.outputSize)
    ensures o.Pass? ==>
      var shape := ConvolutionBuilder(old(net.outputSize), weightLengths, kernelCount, strideArray).value;
      net.outputSize == shape.outputSize &&
      net.Values() == old(net.Values()) + [BuiltConvolution(old(net.outputSize), shape, weightLengths, init)]
  {
    var shape := ConvolutionBuilder(net.outputSize, weightLengths, kernelCount, strideArray);
    if shape.Failure? {
      return Fail(shape.error);
    }
    o := AddConvolution(net, shape.value, weightLengths, init);
  }

  /** `net.ConvolutionTranspose(weightLengths, kernelCount)`: the transpose builder's sizes
    * from the net's output size, then the layer of those sizes. */
  method ConvolutionTranspose(net: Net, weightLengths: seq<int>, kernelCount: int, init: (int, int) -> real)
    returns (o: Outcome)
    requires net.Valid()
    modifies net
    ensures net.Valid()
    ensures o.Pass? <==>
      var shape := ConvolutionTransposeBuilder(old(net.outputSize), weightLengths, kernelCount);
      shape.Success? && ConvolutionalWeightsShape(old(net.outputSize), shape.value.outputSize, weightLengths).Success?
    ensures o.Fail? ==> net.layers == old(net.layers) && net.outputSize == old(net.outputSize)
    ensures o.Pass? ==>
      var shape := ConvolutionTransposeBuilder(old(net.outputSize), weightLengths, kernelCount).value;
      net.outputSize == shape.outputSize &&
      net.Values() == old(net.Values()) + [BuiltConvolution(old(net.outputSize), shape, weightLengths, init)]
  {
    var shape := ConvolutionTransposeBuilder(net.outputSize, weightLengths, kernelCount);
    if shape.Failure? {
      return Fail(shape.error);
    }
    o := AddConvolution(net, shape.value, weightLengths, init);
  }

  /** On a well-formed size with positive dimensions, positive weight lengths and a
    * non-negative kernel count, `ConvolutionTranspose` always adds its layer. */
  lemma ConvolutionTransposeBuilds(inputSize: Size, weightLengths: seq<int>, kernelCount: int)
    requires |weightLengths| >= |inputSize.dimensions| >= 1 && kernelCount >= 0
    requires inputSize.length == Product(inputSize.dimensions)
    requires forall i | 0 <= i < |inputSize.dimensions| :: inputSize.dimensions[i] >= 1
    requires forall i | 0 <= i < |weightLengths| :: weightLengths[i] >= 1
    ensures var shape := ConvolutionTransposeBuilder(inputSize, weightLengths, kernelCount);
      shape.Success? && ConvolutionalWeightsShape(inputSize, shape.value.outputSize, weightLengths).Success?
  {
    TransposeBuilderPassesGuard(inputSize, weightLengths, kernelCount);
    var out := ConvolutionTransposeBuilder(inputSize, weightLengths, kernelCount).value.outputSize;
    MulLe(0, weightLengths[0], out.kernelCount);
  }

  /** With positive strides, and positive weight lengths that on the input's axes are odd
    * and no longer than the input, `Convolution` always adds its layer, in ordinary mode. */
  lemma ConvolutionBuilds(inputSize: Size, weightLengths: seq<int>, kernelCount: int, strides: seq<int>)
    requires |strides| == |inputSize.dimensions| >= 1 && |weightLengths| >= |inputSize.dimensions| && kernelCount >= 0
    requires inputSize.length == Product(inputSize.dimensions)
    requires forall i | 0 <= i < |inputSize.dimensions| ::
      strides[i] >= 1 && 1 <= weightLengths[i] <= inputSize.dimensions[i] && weightLengths[i] % 2 == 1
    requires forall i | 0 <= i < |weightLengths| :: weightLengths[i] >= 1
    ensures var shape := ConvolutionBuilder(inputSize, weightLengths, kernelCount, Some(strides));
      shape.Success? && ConvolutionalWeightsShape(inputSize, shape.value.outputSize, weightLengths).Success? &&
      !BuiltConvolution(inputSize, shape.value, weightLengths, (_, _) => 0.0).kind.isTranspose
  {
    ConvolutionBuilderPassesGuard(inputSize, weightLengths, kernelCount, strides);
    var out := ConvolutionBuilder(inputSize, weightLengths, kernelCount, Some(strides)).value.outputSize;
    MulLe(0, weightLengths[0], out.kernelCount);
  }
}
