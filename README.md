# PuzzleBox.NeuralNets in Dafny

A verified model of the core of PuzzleBox.NeuralNets, a small C# library for feed-forward
neural nets. A net is a list of layers. Dense and convolutional (also transposed-convolutional)
layers carry a weight matrix. Activation layers (the rectifier and the jagged sigmoid)
apply a function value by value; the leaky rectifier is there as a function only. Values travel between layers as tensors: a size (a list of
dimensions) and a flat vector of values. Training runs every example of a batch forwards
through the layers, scores the output with a cost function, propagates the output error
backwards, sums each layer's weight errors and cost over the batch into a training run, and
finally subtracts the learning rate times the summed weight errors from each layer's weights.
An epoch loop repeats this, reporting the average cost per epoch, an error, or completion.

The modules follow the library's structure:

| module | models |
|---|---|
| `Wrappers` | `Result`, `Option` and `Outcome`; the kinds of exception the library raises (`Error`) |
| `Ints` | C#'s truncating `/` and `%` |
| `Sizes` | `Algebra/Size.cs` |
| `Matrices` | the `Matrix<float>`/`Vector<float>` operations the library calls, as values |
| `Tensors` | `Algebra/Tensor.cs` |
| `Convolutions` | `Algebra/MathNetExtensions.cs` |
| `ActivationFns` | `Layers/Activations/ActivationFn.cs`, `Relu.cs`, `JaggedSig.cs` |
| `LayerBase` | `Layers/LayerBase.cs` |
| `ActivationLayers` | `Layers/Activations/ActivationLayerBase.cs` |
| `DenseLayers` | `Layers/Weighted/DenseLayer.cs` |
| `ConvolutionalLayers` | `Layers/Weighted/ConvolutionalLayer.cs` |
| `Layers` | `Layers/Weighted/WeightsLayerBase.cs` as a class, and dispatch over the layer kinds a net holds |
| `Nets` | `Net.cs` |
| `Builders` | the fluent builder extensions that size a new layer from the net |
| `CostFunctions` | `CostFunctions/SquaredErrorCost.cs`, `CrossEntropyCost.cs` |
| `TrainingRuns` | `Training/TrainingRun.cs` |
| `Trainers` | `Training/Trainer.cs` |

Single-precision floats are modelled as `real`. Matrices and vectors are values, except where
the library fills an array cell by cell (`Convolve`, `Rotate180`, `ToMatrix`); those methods
work on an `array2<real>` and are proved equal to a function that states the result. The net,
its weighted layers and the trainer are classes whose methods update their fields in place.
Exceptions become `Failure` values that carry the exception's kind. The random weight fill is
the parameter `init`. The cancellation token is the predicate `cancelled(epoch)`. The
observable of a training run is the sequence of events it emits.

## Model

| member | source | states |
|---|---|---|
| Sizes.AggregateIsProduct | PuzzleBox.NeuralNets/Algebra/Size.cs:14 | the constructor's fold `Aggregate(1, (m, d) => d * m)` started from any accumulator is that accumulator times the product of the dimensions |
| Sizes.NewSize | PuzzleBox.NeuralNets/Algebra/Size.cs:11-15 | no dimensions are stored as the single dimension 0; the length is the product of the dimensions given, 1 for none |
| Sizes.NewKernelSize | PuzzleBox.NeuralNets/Algebra/Size.cs:11-15 | a size with a kernel count has the dimensions and length of the plain size, and spans length times kernel count values in all |
| Sizes.EqualsOfConstructed | PuzzleBox.NeuralNets/Algebra/Size.cs:27-35 | two constructed sizes are `Equals` exactly when they were built from the same dimension list, whatever their kernel counts |
| Sizes.EqualsIsEquivalence | PuzzleBox.NeuralNets/Algebra/Size.cs:27-35 | `Equals` is reflexive, symmetric and transitive, and false for null |
| Sizes.Clone | PuzzleBox.NeuralNets/Algebra/Size.cs:17-20 | the corrected clone is `Equals` to the original and spans as many values |
| Sizes.CloneAsWrittenOfEmptySize | PuzzleBox.NeuralNets/Algebra/Size.cs:17-20 | the clone as written of a size built from no dimensions has length 0 where the original has length 1, so the two are not `Equals` |
| Sizes.CloneAsWrittenOfNonEmptySize | PuzzleBox.NeuralNets/Algebra/Size.cs:17-20 | for a size built from at least one dimension the clone as written is `Equals` to the original |
| Sizes.ProductBounds | PuzzleBox.NeuralNets/Algebra/Size.cs:14 | with every dimension at least 1 the length is at least 1 and at least each dimension |
| Sizes.ProductSnoc | PuzzleBox.NeuralNets/Algebra/Size.cs:14 | adding a dimension multiplies the length by it |
| Ints.CDiv | PuzzleBox.NeuralNets/Algebra/MathNetExtensions.cs:36 | C#'s integer quotient: its magnitude is the quotient of the magnitudes and its sign is the product of the signs (rounding toward zero) |
| Ints.CRem | PuzzleBox.NeuralNets/Algebra/MathNetExtensions.cs:33 | C#'s remainder: what is left of the dividend after the truncated quotient, smaller than the divisor in magnitude and of the dividend's sign |
| Ints.CDivOfNonNegative | PuzzleBox.NeuralNets/Algebra/MathNetExtensions.cs:33-36 | on a non-negative dividend and a positive divisor C#'s and Dafny's quotient and remainder agree |
| Tensors.NewTensor | PuzzleBox.NeuralNets/Algebra/Tensor.cs:12-19 | a tensor is built exactly when the size's length equals the vector's length, holding both; otherwise `ArgumentOutOfRange` |
| Tensors.FromVector | PuzzleBox.NeuralNets/Algebra/Tensor.cs:33-35 | a vector becomes a tensor of the one-dimensional size of its length, holding the vector |
| Tensors.FromMatrix | PuzzleBox.NeuralNets/Algebra/Tensor.cs:25-31 | a matrix becomes a tensor of size (columns, rows) holding its values column by column |
| Tensors.ToScalar | PuzzleBox.NeuralNets/Algebra/Tensor.cs:176-179 | the conversion to a single value is the first value, and fails exactly on an empty tensor |
| Tensors.Map | PuzzleBox.NeuralNets/Algebra/Tensor.cs:41-44 | the corrected `Map` keeps the size and maps every value by the function |
| Tensors.MapAsWrittenOfEmptySize | PuzzleBox.NeuralNets/Algebra/Tensor.cs:41-44 | `Map` as written fails with `ArgumentOutOfRange` on a tensor whose size was built from no dimensions |
| Tensors.MapAsWrittenOfNonEmptySize | PuzzleBox.NeuralNets/Algebra/Tensor.cs:41-44 | for a size built from some dimensions, `Map` as written gives the corrected `Map`'s values with the reconstructed size |
| Tensors.MapMap | PuzzleBox.NeuralNets/Algebra/Tensor.cs:41-44 | mapping by `f` and then by `g` is mapping once by their composition |
| Tensors.TensorEqualsIsEquivalence | PuzzleBox.NeuralNets/Algebra/Tensor.cs:98-106 | `Equals` is reflexive, symmetric and transitive, false for null, and equal tensors agree on every value |
| Tensors.EqualsRegression | PuzzleBox.NeuralNets.Test/Algebra/TensorFixture.cs:16-28 | tensors of the same values are equal; tensors differing in one value are not |
| Tensors.MatrixShape | PuzzleBox.NeuralNets/Algebra/Tensor.cs:51-60 | a shape exists exactly for one or two dimensions, or three with the third equal to 1; the rows are the second dimension (1 for one dimension) and the columns the first |
| Tensors.ToMatrixSpec | PuzzleBox.NeuralNets/Algebra/Tensor.cs:49-69 | a successful conversion has the size's shape and is the column-major reading of the first rows times columns values |
| Tensors.ToMatrix | PuzzleBox.NeuralNets/Algebra/Tensor.cs:49-69 | the method's dimension checks and column loop compute `ToMatrixSpec` |
| Tensors.FillColumns | PuzzleBox.NeuralNets/Algebra/Tensor.cs:61-68 | allocating the matrix and setting column `c` to the `c`-th run of `rows` values computes `ToMatrixSpec`, including the range failure of a run past the values |
| Tensors.SetColumn | PuzzleBox.NeuralNets/Algebra/Tensor.cs:65 | column `c` takes the given values and every other cell is kept |
| Tensors.FilledColumns | PuzzleBox.NeuralNets/Algebra/Tensor.cs:63-68 | an array whose columns all hold their runs is the column-major matrix of those values |
| Tensors.ToMatrixOfFromMatrix | PuzzleBox.NeuralNets/Algebra/Tensor.cs:25-69 | a matrix turned into a tensor and back is the same matrix |
| Tensors.FromMatrixOfToMatrix | PuzzleBox.NeuralNets/Algebra/Tensor.cs:25-69 | a tensor of size (columns, rows) turned into a matrix and back is the same tensor |
| Tensors.FromMatrixRegression | PuzzleBox.NeuralNets.Test/Algebra/TensorFixture.cs:30-66 | a 3 by 4 matrix becomes a tensor of dimensions (4, 3) and converts back to the same matrix |
| Tensors.ToMatrices | PuzzleBox.NeuralNets/Algebra/Tensor.cs:71-91 | a successful split needs one to three dimensions, yields the third dimension's count of matrices (1 without one), each of the kernel's rows and columns and holding the next run of values |
| Tensors.ToMatricesOfFromMatrix | PuzzleBox.NeuralNets/Algebra/Tensor.cs:25-91 | a non-empty matrix seen as a tensor splits back into exactly that matrix |
| Tensors.ToMatricesOfKernels | PuzzleBox.NeuralNets/Algebra/Tensor.cs:71-91 | a tensor of `kernels` kernels of positive columns and rows passes the divisibility check and kernel `f` holds the `f`-th run of values |
| Tensors.SplitTensorsByLastDimension | PuzzleBox.NeuralNets/Algebra/Tensor.cs:113-127 | a successful split needs two or more dimensions and yields the last dimension's count of tensors, each of the remaining dimensions' size and holding the next run of values |
| Tensors.SplitThenConcat | PuzzleBox.NeuralNets/Algebra/Tensor.cs:113-127 | for two or more non-negative dimensions the split succeeds and its pieces laid end to end are the original values |
| Tensors.SplitIntoMatricesByLastDimension | PuzzleBox.NeuralNets/Algebra/Tensor.cs:129-134 | a successful result has one matrix per piece of the split, each the piece's `ToMatrix` |
| Convolutions.CellAt | PuzzleBox.NeuralNets/Algebra/MathNetExtensions.cs:98-117 | one step's sub-matrices exist exactly when the kernel at that offset overlaps the input or touches its edge |
| Convolutions.CellIsCorrelation | PuzzleBox.NeuralNets/Algebra/MathNetExtensions.cs:98-117 | the value one step computes from the clipped sub-matrices is the zero-padded cross-correlation of the kernel with the input at that offset |
| Convolutions.Convolution | PuzzleBox.NeuralNets/Algebra/MathNetExtensions.cs:75-121 | in case of success the strides are positive, the output has the span-over-stride lengths, and every output cell is the correlation at the offset its step reaches |
| Convolutions.Convolve | PuzzleBox.NeuralNets/Algebra/MathNetExtensions.cs:75-121 | the nested loops over offsets, writing into the cell numbered by the step, compute `Convolution`, including its range failures |
| Convolutions.NoOverlapIsOutOfRange | PuzzleBox.NeuralNets/Algebra/MathNetExtensions.cs:98-112 | an offset the loops reach without overlap occurs only with a padding larger than the kernel, and is a range error |
| Convolutions.WritePastEnd | PuzzleBox.NeuralNets/Algebra/MathNetExtensions.cs:91-92 | a step that writes at or past the output length occurs only when the stride neither exceeds nor divides the span |
| Convolutions.StepsFit | PuzzleBox.NeuralNets/Algebra/MathNetExtensions.cs:91-95 | when the loop leaves the span with every write inside the output, the stride exceeded or divided the span |
| Convolutions.ConvolutionOutOfRange | PuzzleBox.NeuralNets/Algebra/MathNetExtensions.cs:95-114 | once a range error is found in the loops, the convolution is an `ArgumentOutOfRange` failure |
| Convolutions.ConvolveRegression | PuzzleBox.NeuralNets.Test/Algebra/MathNetExtensionsFixture.cs:11-35 | a 2 by 2 kernel over a 3 by 3 input gives [[37, 47], [67, 77]] |
| Convolutions.StridedConvolveRegression | PuzzleBox.NeuralNets.Test/Algebra/MathNetExtensionsFixture.cs:65-85 | column stride 3 over a 1 by 7 input gives the offsets 0 and 3: [[11, 32]] |
| Convolutions.OneDimensionalConvolveRegression | PuzzleBox.NeuralNets.Test/Algebra/MathNetExtensionsFixture.cs:138-158 | a 1 by 2 kernel over a 1 by 3 input gives [[11, 18]] |
| Convolutions.FullConvolveRegression | PuzzleBox.NeuralNets.Test/Algebra/MathNetExtensionsFixture.cs:111-135 | padding 1 on both axes gives the full 3 by 3 convolution of two 2 by 2 matrices (integer values in place of the fixture's decimals) |
| Convolutions.SplitByColumn | PuzzleBox.NeuralNets/Algebra/MathNetExtensions.cs:31-41 | the split succeeds exactly for a positive count dividing the column count, yielding that many blocks of equal width; a zero count divides by zero, a count that does not divide is an `Argument` failure, and a negative count is a range failure |
| Convolutions.SplitBlock | PuzzleBox.NeuralNets/Algebra/MathNetExtensions.cs:39 | block `b` has every row and holds columns `b * w` to `b * w + w - 1` |
| Convolutions.SplitCovers | PuzzleBox.NeuralNets/Algebra/MathNetExtensions.cs:31-41 | every cell of the matrix is found in the block numbered by its column divided by the width |
| Convolutions.SplitByColumnRegression | PuzzleBox.NeuralNets.Test/Algebra/MathNetExtensionsFixture.cs:230-258 | a 2 by 6 matrix splits into the three 2 by 2 blocks of the fixture |
| Convolutions.PartialSplitByColumnRegression | PuzzleBox.NeuralNets.Test/Algebra/MathNetExtensionsFixture.cs:261-282 | 3 columns do not split into 2 blocks: an `Argument` failure |
| Convolutions.Rotated180 | PuzzleBox.NeuralNets/Algebra/MathNetExtensions.cs:123-132 | the rotated matrix has the same shape and cell (i, j) is the cell mirrored through the centre |
| Convolutions.RotateTwice | PuzzleBox.NeuralNets/Algebra/MathNetExtensions.cs:123-132 | rotating twice gives back the matrix |
| Convolutions.Rotate180 | PuzzleBox.NeuralNets/Algebra/MathNetExtensions.cs:123-132 | the column-by-column loop computes `Rotated180` |
| Convolutions.RotateRegression | PuzzleBox.NeuralNets.Test/Algebra/MathNetExtensionsFixture.cs:209-227 | [[1, 2], [3, 4]] rotates to [[4, 3], [2, 1]] |
| Convolutions.ConvolveTranspose | PuzzleBox.NeuralNets/Algebra/MathNetExtensions.cs:56-69 | the rotated kernel convolved with unit strides and the given paddings, one less than the kernel's length by default |
| Convolutions.TransposedConvolutionShape | PuzzleBox.NeuralNets/Algebra/MathNetExtensions.cs:56-69 | with the default paddings the transposed convolution fails exactly when an axis has no cells in either matrix, and is otherwise of size (g.rows + f.rows - 1) by (g.cols + f.cols - 1) |
| Convolutions.TransposeOfUnit | PuzzleBox.NeuralNets.Test/Algebra/MathNetExtensionsFixture.cs:161-206 | the transposed convolution of any kernel with the 1 by 1 matrix [[1]] is the kernel |
| Convolutions.TransposeRegression | PuzzleBox.NeuralNets.Test/Algebra/MathNetExtensionsFixture.cs:38-62 | [[4, 3], [2, 1]] transposed-convolved with [[5, 6], [7, 8]] gives the fixture's 3 by 3 matrix |
| ActivationFns.ReluGrad | PuzzleBox.NeuralNets/Layers/Activations/ActivationFn.cs:32-35 | the gradient is 1 exactly on the positive side and 0 elsewhere |
| ActivationFns.Relu | PuzzleBox.NeuralNets/Layers/Activations/ActivationFn.cs:27-30 | the gradient times the input is never negative, never below the input, and is either the input or 0 |
| ActivationFns.LeakyReluGrad | PuzzleBox.NeuralNets/Layers/Activations/ActivationFn.cs:42-45 | the gradient is 1 exactly on the positive side and 0.1 elsewhere |
| ActivationFns.LeakyRelu | PuzzleBox.NeuralNets/Layers/Activations/ActivationFn.cs:37-40 | the identity on the positive side, a tenth of the input elsewhere |
| ActivationFns.ReluSigGrad | PuzzleBox.NeuralNets/Layers/Activations/ActivationFn.cs:65-68 | the slope is 0.075 where the magnitude is below 4 and 0.01 elsewhere |
| ActivationFns.JaggedSigYIntercept | PuzzleBox.NeuralNets/Layers/Activations/ActivationFn.cs:52-63 | the intercept is 0.24 below 4, 0.76 above 4, and the switch's default 0.5 at 4 itself |
| ActivationFns.ReluSig | PuzzleBox.NeuralNets/Layers/Activations/ActivationFn.cs:47-50 | the jagged sigmoid is 0.075x + 0.24 inside (-4, 4), 0.01x + 0.24 at or below -4, 0.01x + 0.76 above 4, and 0.54 at 4 |
| ActivationFns.ReluActivation | PuzzleBox.NeuralNets/Layers/Activations/Relu.cs:8-9 | the rectifier layer binds `Relu` and its gradient `ReluGrad` |
| ActivationFns.ReluSigActivation | PuzzleBox.NeuralNets/Layers/Activations/JaggedSig.cs:8-9 | the jagged sigmoid layer binds `ReluSig` and its gradient `ReluSigGrad` |
| ActivationFns.ReluGradIsSlope | PuzzleBox.NeuralNets/Layers/Activations/ActivationFn.cs:27-35 | on either side of the kink a step changes `Relu` by exactly the gradient times the step |
| ActivationFns.LeakyReluGradIsSlope | PuzzleBox.NeuralNets/Layers/Activations/ActivationFn.cs:37-45 | on either side of the kink a step changes `LeakyRelu` by exactly the gradient times the step |
| ActivationFns.ReluSigGradIsSlope | PuzzleBox.NeuralNets/Layers/Activations/ActivationFn.cs:47-68 | on each of the three open pieces a step changes `ReluSig` by exactly `ReluSigGrad` times the step |
| ActivationFns.ReluSigJumpsAtFour | PuzzleBox.NeuralNets/Layers/Activations/ActivationFn.cs:47-63 | the jagged sigmoid is not continuous: 0.54 at 4, below 0.54 on [0, 4), above 0.8 past 4 |
| ActivationFns.ActivationRegression | PuzzleBox.NeuralNets.Test/Layers/Activations/ActivationFunctionsFixture.cs:26-43 | the fixture's known rectifier values and gradients |
| LayerBase.Lift | PuzzleBox.NeuralNets/Layers/LayerBase.cs:25 | a layer's own computation seen as one that may return null succeeds or fails with it, never returning null |
| LayerBase.GuardedForward | PuzzleBox.NeuralNets/Layers/LayerBase.cs:18-33 | a null input is `ArgumentNull`, an input not `Equals` the declared input size is `Argument`, the layer's own failure passes through, a null output or one not `Equals` the declared output size is `InvalidOperation`; it succeeds exactly when none of these happens, with the layer's own output |
| LayerBase.GuardedForwardShape | PuzzleBox.NeuralNets/Layers/LayerBase.cs:29-32 | a successful forward pass returns a tensor of the declared output's dimensions and length |
| ActivationLayers.ActivationForward | PuzzleBox.NeuralNets/Layers/Activations/ActivationLayerBase.cs:16-19 | the activation applied to every value, with the size kept |
| ActivationLayers.ActivationInputError | PuzzleBox.NeuralNets/Layers/Activations/ActivationLayerBase.cs:21-29 | the input error is the output error times the gradient at the recorded input, value by value, in a tensor of the layer's size; different lengths are a `DimensionMismatch`, a length other than the size's an `ArgumentOutOfRange` |
| ActivationLayers.ActivationBackward | PuzzleBox.NeuralNets/Layers/Activations/ActivationLayerBase.cs:21-29 | on a run's state: a missing slot is `IndexOutOfRange`, a null recorded input or output error a `NullReference`; otherwise only the current layer's input error is replaced by `ActivationInputError` |
| ActivationLayers.ActivationAsWrittenOfEmptySize | PuzzleBox.NeuralNets/Layers/Activations/ActivationLayerBase.cs:16-29 | for a layer of `new Size()` and the one-value tensor of that size, mapping as the source does and building the input error in the cloned size both throw `ArgumentOutOfRange`, where `ActivationForward` and `ActivationInputError` give the activation and the error |
| ActivationLayers.ActivationInputErrorAsWrittenOfNonEmptySize | PuzzleBox.NeuralNets/Layers/Activations/ActivationLayerBase.cs:21-29 | for a size built from at least one dimension, the input error built as the source does succeeds exactly when `ActivationInputError` does, with the same values and error, and differs only in the kernel count the clone resets |
| ActivationLayers.ActivationBackwardFrame | PuzzleBox.NeuralNets/Layers/Activations/ActivationLayerBase.cs:21-29 | the backward pass keeps the values, the other errors, the deltas, the cursor, the batch size and the cost |
| ActivationLayers.ReluForward | PuzzleBox.NeuralNets/Layers/Activations/Relu.cs:6-14 | a rectifier layer outputs no negative value, keeps the positive inputs and zeroes the rest |
| ActivationLayers.ReluBackwardGates | PuzzleBox.NeuralNets/Layers/Activations/Relu.cs:6-14 | a rectifier layer passes the output error back where the recorded input was positive and 0 elsewhere |
| ActivationLayers.ReluSigBackwardScales | PuzzleBox.NeuralNets/Layers/Activations/JaggedSig.cs:6-14 | a jagged sigmoid layer scales the output error by 0.075 inside (-4, 4) and by 0.01 outside |
| ActivationLayers.ReluLayerRegression | PuzzleBox.NeuralNets/Layers/Activations/ActivationLayerBase.cs:16-29 | [-1, 2] forwards to [0, 2], and the output error [0.5, 0.25] backwards to [0, 0.25] |
| DenseLayers.DenseWeightsShape | PuzzleBox.NeuralNets/Layers/Weighted/DenseLayer.cs:10-15 | the weights have one row per output value and one column per input value plus the bias column; a negative total length is `ArgumentOutOfRange` |
| DenseLayers.WithBias | PuzzleBox.NeuralNets/Layers/Weighted/DenseLayer.cs:24-25 | the input with a leading 1 |
| DenseLayers.DenseForward | PuzzleBox.NeuralNets/Layers/Weighted/DenseLayer.cs:22-28 | output `i` is row `i` of the weights dotted with `[1; x]`, in a tensor of the output size; weights of another width are a `DimensionMismatch`, a row count other than the output length an `ArgumentOutOfRange` |
| DenseLayers.DenseForwardIsAffine | PuzzleBox.NeuralNets/Layers/Weighted/DenseLayer.cs:22-28 | output `i` is the bias `W[i][0]` plus the rest of row `i` dotted with the input |
| DenseLayers.DenseForwardAsWrittenOfEmptySize | PuzzleBox.NeuralNets/Layers/Weighted/DenseLayer.cs:22-28 | with an output size of `new Size()` and one weight row, the pass as the source builds it throws `ArgumentOutOfRange` on every input the weights fit, where `DenseForward` gives the one output value |
| DenseLayers.DenseForwardAsWrittenOfNonEmptySize | PuzzleBox.NeuralNets/Layers/Weighted/DenseLayer.cs:22-28 | for an output size built from at least one dimension, the pass as the source builds it succeeds exactly when `DenseForward` does, with the same values and error, and differs only in the kernel count the clone resets |
| DenseLayers.DenseInputError | PuzzleBox.NeuralNets/Layers/Weighted/DenseLayer.cs:32-33 | the input error is the transposed weights times the output error without the bias entry: entry `j` is weight column `j + 1` dotted with the output error |
| DenseLayers.DenseWeightsDelta | PuzzleBox.NeuralNets/Layers/Weighted/DenseLayer.cs:37-42 | the delta is the outer product of the output error with `[1; x]`: column 0 is the error, cell (i, j + 1) is `e[i] * x[j]` |
| DenseLayers.DenseBackward | PuzzleBox.NeuralNets/Layers/Weighted/DenseLayer.cs:30-35 | on a run's state: a missing slot is `IndexOutOfRange`, a null output error a `NullReference`; on success the current layer's input error and weights delta are replaced and nothing else changes |
| DenseLayers.DenseDeltaHasWeightsShape | PuzzleBox.NeuralNets/Layers/Weighted/DenseLayer.cs:10-42 | a delta from an input of the input length and an error of the output length has the shape of the weights |
| DenseLayers.DenseDeltaRow | PuzzleBox.NeuralNets/Layers/Weighted/DenseLayer.cs:37-42 | row `i` of the delta is `[e[i]; e[i] * x]` |
| DenseLayers.DenseDeltaAlongInput | PuzzleBox.NeuralNets/Layers/Weighted/DenseLayer.cs:37-42 | row `i` of the delta dotted with `[1; x]` is `e[i] * (1 + x.x)`: a step against the delta moves output `i` against its error |
| DenseLayers.DenseForwardRegression | PuzzleBox.NeuralNets.Test/Layers/Weighted/DenseLayerFixture.cs:21-48 | the fixture's three inputs through its 2 by 4 weights give its two outputs |
| DenseLayers.DenseInputErrorRegression | PuzzleBox.NeuralNets.Test/Layers/Weighted/DenseLayerFixture.cs:51-88 | the fixture's output error pushed back through the same weights gives its input error |
| DenseLayers.DenseBackwardRegression | PuzzleBox.NeuralNets.Test/Layers/Weighted/DenseLayerFixture.cs:51-88 | the same backward pass on a run stores that input error in slot 0 and the outer product of the error with `[1; x]` as the delta |
| Layers.ForwardInternal | PuzzleBox.NeuralNets/Layers/Activations/ActivationLayerBase.cs:16-19 | a weighted layer's own output has its declared output size; an activation layer's always succeeds and keeps the input's size |
| Layers.FeedForwards | PuzzleBox.NeuralNets/Layers/LayerBase.cs:18-33 | a null input is `ArgumentNull`, a wrong input size `Argument`; a success is the layer's own output, `Equals` the declared output size |
| Layers.FeedForwardsIsGuarded | PuzzleBox.NeuralNets/Layers/LayerBase.cs:18-35 | every layer's forward pass is the common guard around its own computation |
| Layers.ActivationFeedForwards | PuzzleBox.NeuralNets/Layers/Activations/ActivationLayerBase.cs:12-19 | an activation layer accepts exactly the inputs of its size, and then applies its activation to every value |
| Layers.DenseFeedForwards | PuzzleBox.NeuralNets/Layers/Weighted/DenseLayer.cs:10-28 | a dense layer with the weights its constructor shapes accepts every input of its input size |
| Layers.DenseLayerRegression | PuzzleBox.NeuralNets.Test/Layers/Weighted/DenseLayerFixture.cs:21-48 | the fixture's forward pass through the shape checks, and an input of the wrong length refused as `Argument` |
| Layers.ActivationLayerOfEmptySize | PuzzleBox.NeuralNets/Layers/Activations/ActivationLayerBase.cs:16-19 | a layer of `new Size()` passes the guard with the one-value tensor of that size and the model computes its activation, while `Tensor.Map` as written throws `ArgumentOutOfRange` on it |
| Layers.DenseLayerOfEmptyOutputSize | PuzzleBox.NeuralNets/Layers/Weighted/DenseLayer.cs:22-28 | a dense layer with an output size of `new Size()` passes every input of its input size to `DenseForward`, which succeeds, while the pass as written throws `ArgumentOutOfRange` |
| Layers.Backward | PuzzleBox.NeuralNets/Layers/LayerBase.cs:36 | every kind of layer stores an input error for the current layer and changes nothing else, except a weighted layer's own delta |
| Layers.BackwardDeltaShape | PuzzleBox.NeuralNets/Layers/Weighted/ConvolutionalLayer.cs:76-84 | a weighted layer's delta has the shape of its weights |
| Layers.Filled | PuzzleBox.NeuralNets/Algebra/MathNetExtensions.cs:43-50 | the initial weights: the given shape, cell (i, j) from the fill `init` |
| Layers.WeightsLayer.constructor | PuzzleBox.NeuralNets/Layers/Weighted/WeightsLayerBase.cs:12-14 | a weighted layer holds its sizes, kind and weights |
| Layers.WeightsLayer.GetWeights | PuzzleBox.NeuralNets/Layers/Weighted/WeightsLayerBase.cs:16-19 | returns the current weights |
| Layers.WeightsLayer.SetWeights | PuzzleBox.NeuralNets/Layers/Weighted/WeightsLayerBase.cs:21-25 | the weights become the given ones |
| Layers.WeightsLayer.UpdateWeights | PuzzleBox.NeuralNets/Layers/Weighted/WeightsLayerBase.cs:27-31 | the weights become the update's image of the old weights, so two updates compose and the identity update keeps them |
| Layers.WeightsLayer.BackPropagate | PuzzleBox.NeuralNets/Layers/Weighted/ConvolutionalLayer.cs:59-85 | on a run object it succeeds exactly when `Backward` does, leaves the run's state equal to `Backward`'s, and otherwise raises `Backward`'s error |
| Layers.NewDenseLayer | PuzzleBox.NeuralNets/Layers/Weighted/DenseLayer.cs:10-15 | a fresh dense layer of the constructor's weight shape filled by `init`, or `ArgumentOutOfRange` for a negative length |
| Layers.NewConvolutionalLayer | PuzzleBox.NeuralNets/Layers/Weighted/ConvolutionalLayer.cs:18-42 | a fresh convolutional layer, in transpose mode when the output spans more values, with weights of the constructor's shape filled by `init`; otherwise the guard's or the allocation's error |
| Layers.ReluLayer | PuzzleBox.NeuralNets/Layers/Activations/Relu.cs:11-13 | `new Relu(size)` is the rectifier activation layer of that size |
| Layers.ReluSigLayer | PuzzleBox.NeuralNets/Layers/Activations/JaggedSig.cs:11-13 | `new ReluSig(size)` is the jagged sigmoid activation layer of that size |
| Layers.BackPropagateLayer | PuzzleBox.NeuralNets/Layers/Activations/ActivationLayerBase.cs:21-29 | any layer on a run object: succeeds exactly when `Backward` does, leaves the state equal to `Backward`'s, keeps the layer itself |
| ConvolutionalLayers.AddFoldCells | PuzzleBox.NeuralNets/Layers/Weighted/ConvolutionalLayer.cs:95 | the null-seeded `Add` fold over items of one shape succeeds with that shape, each cell the sum of the items' cells |
| ConvolutionalLayers.AppendFoldBlocks | PuzzleBox.NeuralNets/Layers/Weighted/ConvolutionalLayer.cs:98 | the null-seeded `Append` fold over items of one shape places item `b` as the `b`-th block of columns |
| ConvolutionalLayers.GuardDimensions | PuzzleBox.NeuralNets/Layers/Weighted/ConvolutionalLayer.cs:119-143 | the loop over the axes passes exactly when the dimension counts match and every axis is at least 1 on both sides and no shorter (transpose) or no longer (ordinary) on the output; any failure is `Argument` |
| ConvolutionalLayers.ConvolutionalWeightsShape | PuzzleBox.NeuralNets/Layers/Weighted/ConvolutionalLayer.cs:26-40 | after the guard, `weightRows` rows (the second weight length, or 1) and `weightLength[0]` columns per output kernel; an empty length list is `IndexOutOfRange`, a negative shape `ArgumentOutOfRange` |
| ConvolutionalLayers.KernelsOfWeights | PuzzleBox.NeuralNets/Layers/Weighted/ConvolutionalLayer.cs:46 | weights of the constructor's shape split into one kernel per output kernel, each of the first weight length's width |
| ConvolutionalLayers.BuilderOutputDimension | PuzzleBox.NeuralNets/Layers/Weighted/ConvolutionalLayer.cs:168-171 | `(in - w) / stride + 2 * padding + 1` with C#'s truncating division; a zero stride is `DivideByZero` |
| ConvolutionalLayers.OutputDimensions | PuzzleBox.NeuralNets/Layers/Weighted/ConvolutionalLayer.cs:173-175 | the dimensions of the first `n` axes, each by the builder's formula; an axis without a weight length is `IndexOutOfRange`, a zero stride `DivideByZero` |
| ConvolutionalLayers.ConvolutionPaddings | PuzzleBox.NeuralNets/Layers/Weighted/ConvolutionalLayer.cs:164-166 | the padding on every axis is `(w - 1) / 2` |
| ConvolutionalLayers.TransposePaddings | PuzzleBox.NeuralNets/Layers/Weighted/ConvolutionalLayer.cs:200-202 | the padding on every axis is `w - 1` |
| ConvolutionalLayers.UnitStrides | PuzzleBox.NeuralNets/Layers/Weighted/ConvolutionalLayer.cs:196-198 | a stride of 1 on each axis |
| ConvolutionalLayers.ConvolutionBuilder | PuzzleBox.NeuralNets/Layers/Weighted/ConvolutionalLayer.cs:148-177 | unit strides unless given; a stride array of another length than the input's dimensions is `ArgumentOutOfRange`; on success the builder's paddings and strides and the requested kernel count |
| ConvolutionalLayers.ConvolutionTransposeBuilder | PuzzleBox.NeuralNets/Layers/Weighted/ConvolutionalLayer.cs:188-213 | on success unit strides, paddings of one less than the weight length, and the requested kernel count |
| ConvolutionalLayers.SameSizeConvolution | PuzzleBox.NeuralNets/Layers/Weighted/ConvolutionalLayer.cs:157-177 | with the default unit strides and odd weight lengths the builder keeps every dimension of its input |
| ConvolutionalLayers.TransposeBuilderDimensions | PuzzleBox.NeuralNets/Layers/Weighted/ConvolutionalLayer.cs:196-213 | each dimension the transpose builder computes is `in + w - 1` |
| ConvolutionalLayers.ProductGrows | PuzzleBox.NeuralNets/Layers/Weighted/ConvolutionalLayer.cs:124 | lengths that each grow or stay have a product that grows or stays, and stays only when none grows |
| ConvolutionalLayers.TransposeBuilderPassesGuard | PuzzleBox.NeuralNets/Layers/Weighted/ConvolutionalLayer.cs:188-222 | on positive dimensions and weight lengths the transpose builder's sizes pass the layer's guard |
| ConvolutionalLayers.ShrinkingAxis | PuzzleBox.NeuralNets/Layers/Weighted/ConvolutionalLayer.cs:168-171 | with a stride of at least 1 and an odd weight length no longer than the input, the output dimension lies between the two |
| ConvolutionalLayers.ConvolutionBuilderShrinks | PuzzleBox.NeuralNets/Layers/Weighted/ConvolutionalLayer.cs:148-177 | under the same conditions every dimension the builder computes lies between the weight length and the input dimension |
| ConvolutionalLayers.ConvolutionBuilderPassesGuard | PuzzleBox.NeuralNets/Layers/Weighted/ConvolutionalLayer.cs:148-186 | under the same conditions the builder's sizes pass the layer's guard in ordinary mode |
| ConvolutionalLayers.ShrinkingPassesGuard | PuzzleBox.NeuralNets/Layers/Weighted/ConvolutionalLayer.cs:119-143 | sizes whose every output axis lies between 1 and the input's pass the guard in ordinary mode |
| ConvolutionalLayers.PairConvolution | PuzzleBox.NeuralNets/Layers/Weighted/ConvolutionalLayer.cs:89-94 | index 0 of an empty stride or padding array is `IndexOutOfRange` |
| ConvolutionalLayers.CartesianConvolve | PuzzleBox.NeuralNets/Layers/Weighted/ConvolutionalLayer.cs:87-99 | no kernels give null |
| ConvolutionalLayers.CartesianConvolveOfNoKernel | PuzzleBox.NeuralNets/Layers/Weighted/ConvolutionalLayer.cs:92-96 | with no second operand the null sum is dereferenced by `Divide`: a `NullReference` |
| ConvolutionalLayers.CartesianConvolveCells | PuzzleBox.NeuralNets/Layers/Weighted/ConvolutionalLayer.cs:87-99 | when every convolution succeeds with one shape, block `b` at cell (i, j) is the mean over the `g`s of that cell of `fs[b]` convolved with `g` |
| ConvolutionalLayers.CartesianConvolveOfOneInput | PuzzleBox.NeuralNets/Layers/Weighted/ConvolutionalLayer.cs:87-99 | with a single `g`, block `b` is the convolution of `fs[b]` with it |
| ConvolutionalLayers.CartesianConvolveOfOnePair | PuzzleBox.NeuralNets/Layers/Weighted/ConvolutionalLayer.cs:87-99 | one kernel and one slice give exactly their convolution |
| ConvolutionalLayers.TransposeErrorPaddings | PuzzleBox.NeuralNets/Layers/Weighted/ConvolutionalLayer.cs:107-108 | the paddings are half of `in - out + w - 1` with rows from dimension 1 and columns from dimension 0; fewer than two dimensions is `IndexOutOfRange` |
| ConvolutionalLayers.MatrixwiseConvolveTrans | PuzzleBox.NeuralNets/Layers/Weighted/ConvolutionalLayer.cs:101-117 | lists of different lengths are `Argument` |
| ConvolutionalLayers.MatrixwiseBlocksAreEqual | PuzzleBox.NeuralNets/Layers/Weighted/ConvolutionalLayer.cs:110-116 | the outer `Select` ignores its index, so the input error is one block repeated once per input kernel |
| ConvolutionalLayers.MatrixwiseOfNoInputKernel | PuzzleBox.NeuralNets/Layers/Weighted/ConvolutionalLayer.cs:110-116 | no input kernels give a null input error |
| ConvolutionalLayers.MatrixwiseOfOnePair | PuzzleBox.NeuralNets/Layers/Weighted/ConvolutionalLayer.cs:101-117 | one input and one output kernel give exactly that transposed convolution |
| ConvolutionalLayers.TileCounts | PuzzleBox.NeuralNets/Layers/Weighted/ConvolutionalLayer.cs:80-81 | the loop bounds `rows / d.rows` and `cols / d.cols`: a zero row count, or a zero column count once the inner loop is reached, is `DivideByZero`; the copies fit and there are copies exactly when the delta fits |
| ConvolutionalLayers.TileRowCells | PuzzleBox.NeuralNets/Layers/Weighted/ConvolutionalLayer.cs:81-84 | after a row of copies each cell comes from the last copy that covers it, or keeps its value |
| ConvolutionalLayers.TileRowsCells | PuzzleBox.NeuralNets/Layers/Weighted/ConvolutionalLayer.cs:80-84 | after all rows of copies each cell comes from the last copy that covers it, or keeps its value |
| ConvolutionalLayers.Tiling | PuzzleBox.NeuralNets/Layers/Weighted/ConvolutionalLayer.cs:78-84 | the stored delta has the weights' shape, and fails exactly when a loop bound divides by zero |
| ConvolutionalLayers.TilingCells | PuzzleBox.NeuralNets/Layers/Weighted/ConvolutionalLayer.cs:78-84 | every cell of the stored delta is the delta's cell at the offset of the last copy that covers it, or 0 |
| ConvolutionalLayers.TilingOfSameShape | PuzzleBox.NeuralNets/Layers/Weighted/ConvolutionalLayer.cs:78-84 | a delta already of the weights' shape is stored as it is |
| ConvolutionalLayers.TilingOfLargerDelta | PuzzleBox.NeuralNets/Layers/Weighted/ConvolutionalLayer.cs:78-84 | a delta too tall or too wide for the weights leaves the stored delta all zeros |
| ConvolutionalLayers.TileAlongRow | PuzzleBox.NeuralNets/Layers/Weighted/ConvolutionalLayer.cs:81-84 | the inner loop computes one row of copies |
| ConvolutionalLayers.TileDelta | PuzzleBox.NeuralNets/Layers/Weighted/ConvolutionalLayer.cs:78-84 | the two loops compute `Tiling` |
| ConvolutionalLayers.RotateAll | PuzzleBox.NeuralNets/Layers/Weighted/ConvolutionalLayer.cs:63 | every matrix of the list turned by 180 degrees |
| ConvolutionalLayers.OrientedKernels | PuzzleBox.NeuralNets/Layers/Weighted/ConvolutionalLayer.cs:46-48 | the kernels are the split blocks of the weights, turned in transpose mode; the split's errors pass through |
| ConvolutionalLayers.ConvolutionalForward | PuzzleBox.NeuralNets/Layers/Weighted/ConvolutionalLayer.cs:44-57 | a successful output has the declared output size and holds, column by column, the cartesian convolution of the oriented kernels with the input's slices; a failing split passes its error through |
| ConvolutionalLayers.BackwardProducts | PuzzleBox.NeuralNets/Layers/Weighted/ConvolutionalLayer.cs:59-74 | a missing output error slot is `IndexOutOfRange`, a null one `NullReference` |
| ConvolutionalLayers.BackwardProductsOf | PuzzleBox.NeuralNets/Layers/Weighted/ConvolutionalLayer.cs:59-74 | the delta is the cartesian convolution of the error slices with the input slices, and the input error the matrixwise transposed convolution of the kernels with the error slices |
| ConvolutionalLayers.StoreBackward | PuzzleBox.NeuralNets/Layers/Weighted/ConvolutionalLayer.cs:71-84 | the input error is stored as a tensor and the delta is stored tiled into the weights' shape; a null delta or a failing tiling fails |
| ConvolutionalLayers.ConvolutionalBackward | PuzzleBox.NeuralNets/Layers/Weighted/ConvolutionalLayer.cs:59-85 | a null output error is a `NullReference`; on success only the current layer's input error and delta change, and the delta has the weights' shape |
| ConvolutionalLayers.SplitByColumnOfOne | PuzzleBox.NeuralNets/Layers/Weighted/ConvolutionalLayer.cs:46 | with one output kernel the split gives the weights back |
| ConvolutionalLayers.ForwardConvolutionRegression | PuzzleBox.NeuralNets/Layers/Weighted/ConvolutionalLayer.cs:94 | the kernel [0.2, 0.7] over [1, 2, 3] gives [1.6, 2.5] |
| ConvolutionalLayers.ForwardProductRegression | PuzzleBox.NeuralNets/Layers/Weighted/ConvolutionalLayer.cs:87-99 | the same kernel paired with the single slice [1, 2, 3] gives [1.6, 2.5] |
| ConvolutionalLayers.ForwardRegression | PuzzleBox.NeuralNets/Layers/Weighted/ConvolutionalLayer.cs:44-57 | the layer of a 3 by 1 input, a 2 by 1 output and weights [0.2, 0.7] maps [1, 2, 3] to [1.6, 2.5] |
| ConvolutionalLayers.DeltaConvolutionRegression | PuzzleBox.NeuralNets/Layers/Weighted/ConvolutionalLayer.cs:66-69 | the output error [0.2, -0.5] correlated with [1, 2, 3] gives [-0.8, -1.1] |
| ConvolutionalLayers.InputErrorConvolutionRegression | PuzzleBox.NeuralNets/Layers/Weighted/ConvolutionalLayer.cs:112 | the kernel [0.2, 0.7] transposed-convolved with the error [0.2, -0.5], column padding 1, gives [0.04, 0.04, -0.35] |
| ConvolutionalLayers.RegressionDelta | PuzzleBox.NeuralNets/Layers/Weighted/ConvolutionalLayer.cs:66-69 | the weights delta of that layer, before it is stored, is [-0.8, -1.1] |
| ConvolutionalLayers.RegressionPaddings | PuzzleBox.NeuralNets/Layers/Weighted/ConvolutionalLayer.cs:107-108 | that layer's input-error paddings are 0 rows and 1 column |
| ConvolutionalLayers.RegressionInputError | PuzzleBox.NeuralNets/Layers/Weighted/ConvolutionalLayer.cs:101-117 | that layer's input error, before it is stored, is [0.04, 0.04, -0.35] |
| ConvolutionalLayers.BackwardProductsRegression | PuzzleBox.NeuralNets/Layers/Weighted/ConvolutionalLayer.cs:59-74 | from the output error [0.2, -0.5] that layer computes the delta [-0.8, -1.1] and the input error [0.04, 0.04, -0.35] |
| ConvolutionalLayers.BackwardRegression | PuzzleBox.NeuralNets/Layers/Weighted/ConvolutionalLayer.cs:59-85 | and it stores exactly those two in the run |
| Nets.ForwardFold | PuzzleBox.NeuralNets/Net.cs:52-55 | the layers are applied as a left fold in list order, each to the output of the one before; a net without layers returns its input unchanged and the first failing layer's error ends the fold |
| Nets.Trace | PuzzleBox.NeuralNets/Net.cs:57-73 | a recorded pass over the first `n` layers holds `n + 1` values, the input first, and each layer maps the value before it to the value after it |
| Nets.TraceEndsInForwardFold | PuzzleBox.NeuralNets/Net.cs:52-73 | the recorded training pass and the plain forward pass succeed on the same prefixes of layers, end in the same tensor and fail with the same error |
| Nets.TraceStep | PuzzleBox.NeuralNets/Net.cs:66-70 | one more layer of the recorded pass either fails with that layer's error or appends that layer's output to the values recorded so far |
| Nets.TraceFailurePersists | PuzzleBox.NeuralNets/Net.cs:66-70 | once the recorded pass fails at a layer it fails with the same error for every longer prefix |
| Nets.ForwardFoldShape | PuzzleBox.NeuralNets/Net.cs:52-55 | a successful pass through a non-empty net ends in a tensor of the last layer's declared output size |
| Nets.TrainingView | PuzzleBox.NeuralNets/Net.cs:57-73 | the run after `i` layers has value slots filled up to `i`, no errors and no deltas yet, a batch of one, no cost and the cursor on the last layer that ran |
| Nets.TrainingViewStart | PuzzleBox.NeuralNets/Net.cs:59-63 | a new run with the input stored and a batch of one is the state before any layer runs |
| Nets.TrainingViewInput | PuzzleBox.NeuralNets/Net.cs:68-69 | with the cursor on layer `i` the run's `Input` is the last recorded value |
| Nets.TrainingViewStep | PuzzleBox.NeuralNets/Net.cs:68-69 | with the cursor on layer `i`, storing the layer's output as `Output` records exactly one more value |
| Nets.BackwardFrom | PuzzleBox.NeuralNets/Net.cs:75-82 | the backward pass from no layers leaves the run as it is |
| Nets.BackwardFromStep | PuzzleBox.NeuralNets/Net.cs:77-81 | the backward pass puts the cursor on layer `i - 1`, runs it, and either stops with its error or carries on below it from the run it left |
| Nets.LayersBackwardEffect | PuzzleBox.NeuralNets/Layers/LayerBase.cs:36 | each layer's backward pass only stores its own input error and, for a weighted layer, its own weights delta |
| Nets.BackwardFromEffect | PuzzleBox.NeuralNets/Net.cs:75-82 | a successful backward pass keeps the recorded values, batch size and cost, stores an input error for every layer and a delta for every weighted layer, keeps every other delta and leaves the cursor on layer 0 |
| Nets.UpdatedLayer | PuzzleBox.NeuralNets/Net.cs:88-93 | a layer without weights is kept; a weighted layer whose delta slot is outside the run is a range error, and one without a delta a null dereference; on success every weight is reduced by its delta times `learningRate / batchSize`, the shape is kept and nothing else of the layer changes |
| Nets.Applied | PuzzleBox.NeuralNets/Net.cs:84-96 | applying the training to the first `n` layers updates each of them as `UpdatedLayer` does and leaves the rest as they were |
| Nets.AppliedFailurePersists | PuzzleBox.NeuralNets/Net.cs:86-95 | once a layer's update fails, the whole update fails with that error |
| Nets.AppliedAtRateZero | PuzzleBox.NeuralNets/Net.cs:91-93 | a learning rate of 0 leaves every layer's weights as they were |
| Nets.WeightedOf | PuzzleBox.NeuralNets/Net.cs:36-37 | `OfType<IHaveWeights>()` lists exactly the weighted layers of the net, each of them and nothing else |
| Nets.WeightedOfDistinct | PuzzleBox.NeuralNets/Net.cs:36-37 | a layer list without a repeated weights layer gives a weights list without repetitions |
| Nets.Net.constructor | PuzzleBox.NeuralNets/Net.cs:16-19 | a new net has no layers and its output size is its input size |
| Nets.Net.Add | PuzzleBox.NeuralNets/Net.cs:25-32 | the layer is appended, the net's output size becomes the layer's, and the layers already held keep their weights |
| Nets.Net.GetWeights | PuzzleBox.NeuralNets/Net.cs:34-40 | one matrix per weighted layer, in layer order, each that layer's current weights |
| Nets.Net.SetWeights | PuzzleBox.NeuralNets/Net.cs:42-50 | succeeds exactly when the list covers every weighted layer, which then holds the given weights in order; a shorter list is a range error |
| Nets.Net.FeedForwards | PuzzleBox.NeuralNets/Net.cs:52-55 | a missing input is an argument-null error and an input of another shape an argument error; a result is the fold of the layers over the input and has the net's output size |
| Nets.Net.FeedForwardsTraining | PuzzleBox.NeuralNets/Net.cs:57-73 | succeeds exactly when the recorded pass does, with its error otherwise; a new run holding every layer's output after its input, a batch of one and the cursor on the last layer |
| Nets.Net.BackPropagate | PuzzleBox.NeuralNets/Net.cs:75-82 | the run's new state is the backward pass through every layer from the last to the first, or the pass's error; the layers are not changed |
| Nets.Net.ApplyTraining | PuzzleBox.NeuralNets/Net.cs:84-96 | the layers' new weights are the update of every layer in turn, or the update's error |
| Nets.ApplyLayer | PuzzleBox.NeuralNets/Net.cs:88-93 | one layer's update, which either extends the updated prefix by that layer or reports the error that stops the update |
| Nets.BackPropagateLayers | PuzzleBox.NeuralNets/Net.cs:77-81 | the loop over the layers from the last down gives the whole backward pass's result, or its error |
| Nets.BackPropagateStep | PuzzleBox.NeuralNets/Net.cs:79-80 | one layer of the backward loop leaves the run where the rest of the pass below it continues, or reports the pass's error |
| Nets.RecordLayers | PuzzleBox.NeuralNets/Net.cs:66-70 | the loop over the layers records the whole pass, or returns the recorded pass's error |
| Nets.RecordLayer | PuzzleBox.NeuralNets/Net.cs:68-69 | one layer of the loop records one more value, or returns the error of the recorded pass one layer longer |
| Builders.Dense | PuzzleBox.NeuralNets/Layers/Weighted/DenseLayer.cs:47-51 | succeeds exactly when the weights' shape can be allocated; then a dense layer from the net's output size to the given size is appended and becomes the net's output size; otherwise the net is kept |
| Builders.Relu | PuzzleBox.NeuralNets/Layers/Activations/Relu.cs:16-23 | a rectifier layer of the net's output size is appended and the output size is kept |
| Builders.ReluSig | PuzzleBox.NeuralNets/Layers/Activations/JaggedSig.cs:16-23 | a jagged sigmoid layer of the net's output size is appended and the output size is kept |
| Builders.BuiltConvolution | PuzzleBox.NeuralNets/Layers/Weighted/ConvolutionalLayer.cs:179-184 | the added layer is weighted, maps the net's output size to the computed size, and is a transpose exactly when its output is longer than its input |
| Builders.AddConvolution | PuzzleBox.NeuralNets/Layers/Weighted/ConvolutionalLayer.cs:179-185 | the layer is appended exactly when its constructor accepts the sizes; otherwise the constructor's error is returned and the net is kept |
| Builders.Convolution | PuzzleBox.NeuralNets/Layers/Weighted/ConvolutionalLayer.cs:148-186 | succeeds exactly when the builder's sizes are computed and the layer's constructor accepts them; the net then ends in a layer of the computed output size, and is kept otherwise |
| Builders.ConvolutionTranspose | PuzzleBox.NeuralNets/Layers/Weighted/ConvolutionalLayer.cs:188-222 | succeeds exactly when the transpose builder's sizes are computed and the layer's constructor accepts them; the net then ends in a layer of the computed output size, and is kept otherwise |
| Builders.ConvolutionTransposeBuilds | PuzzleBox.NeuralNets/Layers/Weighted/ConvolutionalLayer.cs:188-222 | on a size of positive dimensions with positive weight lengths the transpose builder always adds its layer |
| Builders.ConvolutionBuilds | PuzzleBox.NeuralNets/Layers/Weighted/ConvolutionalLayer.cs:148-186 | with positive strides and odd weight lengths no longer than the input, the builder always adds an ordinary, non-transposed layer |
| CostFunctions.QuadraticCalcCost | PuzzleBox.NeuralNets/CostFunctions/SquaredErrorCost.cs:8-11 | vectors of equal length give half the squared difference at every element; vectors of different lengths are refused |
| CostFunctions.SquareSign | PuzzleBox.NeuralNets/CostFunctions/SquaredErrorCost.cs:10 | a square is never negative and is 0 exactly for 0 |
| CostFunctions.QuadraticCalcCostGradient | PuzzleBox.NeuralNets/CostFunctions/SquaredErrorCost.cs:13-16 | vectors of equal length give the difference `h - y` at every element; vectors of different lengths are refused |
| CostFunctions.QuadraticCostProperties | PuzzleBox.NeuralNets/CostFunctions/SquaredErrorCost.cs:8-11 | each element of the quadratic cost is never negative, is 0 exactly where output and desired output agree, and is symmetric in the two |
| CostFunctions.SumOfNonNegatives | PuzzleBox.NeuralNets/Training/Trainer.cs:97 | a sum of non-negative values is non-negative and is 0 exactly when every value is 0 |
| CostFunctions.QuadraticTotalCost | PuzzleBox.NeuralNets/Training/Trainer.cs:97 | the summed quadratic cost the trainer records is never negative and is 0 exactly when the output is the desired one |
| CostFunctions.QuadraticGradientIsCentralDifference | PuzzleBox.NeuralNets.Test/CostFunctions/QuadraticCostFixture.cs:37-59 | the central difference of the quadratic cost over a step `dh` is exactly its gradient |
| CostFunctions.QuadraticCostRegression | PuzzleBox.NeuralNets.Test/CostFunctions/QuadraticCostFixture.cs:17-35 | the fixture's known costs and gradients |
| CostFunctions.Guard | PuzzleBox.NeuralNets/CostFunctions/CrossEntropyCost.cs:22-28 | passes exactly when every output lies strictly between 0 and 1 and every desired output is 0 or 1; fails otherwise with an argument error |
| CostFunctions.CrossEntropyCalcCostGradient | PuzzleBox.NeuralNets/CostFunctions/CrossEntropyCost.cs:16-20 | after the guard, `-1 / h` where the desired output is 1 and `1 / (1 - h)` where it is 0; the guard's argument error otherwise |
| CostFunctions.CrossEntropyCalcCost | PuzzleBox.NeuralNets/CostFunctions/CrossEntropyCost.cs:10-14 | after the guard, `-log(h)` where the desired output is 1 and `-log(1 - h)` where it is 0; the guard's argument error otherwise |
| CostFunctions.GuardRegression | PuzzleBox.NeuralNets.Test/CostFunctions/CrossEntropyCostFixture.cs:60-81 | the fixture's accepted and refused pairs |
| CostFunctions.CrossEntropyGradientRegression | PuzzleBox.NeuralNets.Test/CostFunctions/CrossEntropyCostFixture.cs:27-37 | the fixture's known gradients at `h = 0.5` |
| CostFunctions.CalcCost | PuzzleBox.NeuralNets/CostFunctions/ICostFunction.cs:15 | a cost has one element per output element |
| CostFunctions.CalcCostGradient | PuzzleBox.NeuralNets/CostFunctions/ICostFunction.cs:22 | a gradient has one element per output element |
| CostFunctions.CostAndGradientAgree | PuzzleBox.NeuralNets/CostFunctions/CrossEntropyCost.cs:10-20 | for either cost function the cost and its gradient accept the same pairs and refuse the others with the same error |
| TrainingRuns.FreshView | PuzzleBox.NeuralNets/Training/TrainingRun.cs:47-54 | a new run has `layerCount + 1` empty value and error slots, `layerCount` empty deltas, the cursor at 0, no batch and no cost |
| TrainingRuns.Slot | PuzzleBox.NeuralNets/Training/TrainingRun.cs:15-45 | a slot is read exactly when its index lies inside the array, and otherwise is a range error |
| TrainingRuns.Store | PuzzleBox.NeuralNets/Training/TrainingRun.cs:15-45 | a slot is replaced exactly when its index lies inside the array, and otherwise is a range error |
| TrainingRuns.WithInput | PuzzleBox.NeuralNets/Training/TrainingRun.cs:15-19 | setting `Input` replaces value slot `Counter` and nothing else, or is a range error |
| TrainingRuns.WithOutput | PuzzleBox.NeuralNets/Training/TrainingRun.cs:21-25 | setting `Output` replaces value slot `Counter + 1` and nothing else, or is a range error |
| TrainingRuns.WithInputError | PuzzleBox.NeuralNets/Training/TrainingRun.cs:27-31 | setting `InputError` replaces error slot `Counter` and nothing else, or is a range error |
| TrainingRuns.WithOutputError | PuzzleBox.NeuralNets/Training/TrainingRun.cs:33-37 | setting `OutputError` replaces error slot `Counter + 1` and nothing else, or is a range error |
| TrainingRuns.WithWeightsDelta | PuzzleBox.NeuralNets/Training/TrainingRun.cs:41-45 | setting `WeightsDelta` replaces delta slot `Counter` and nothing else, or is a range error |
| TrainingRuns.OutputIsNextInput | PuzzleBox.NeuralNets/Training/TrainingRun.cs:15-37 | the output, and the output error, at one cursor position are the input, and the input error, at the next |
| TrainingRuns.StoreThenRead | PuzzleBox.NeuralNets/Training/TrainingRun.cs:21-25 | a stored output is read back and the input, the errors and the delta at the cursor are unchanged |
| TrainingRuns.CombineDelta | PuzzleBox.NeuralNets/Training/TrainingRun.cs:60 | an absent delta takes the other's; a present one meets a null other delta as a null dereference, and otherwise is added to it exactly when the shapes agree |
| TrainingRuns.CombinedUpTo | PuzzleBox.NeuralNets/Training/TrainingRun.cs:58-61 | after `n` steps of the loop the deltas keep their count and every slot from `n` up, a step past this run's deltas being a range error |
| TrainingRuns.CombinedUpToCharacterised | PuzzleBox.NeuralNets/Training/TrainingRun.cs:58-61 | the loop succeeds exactly when every step it takes lies inside this run's deltas and combines, and slot `k` is then the combination of the two slots `k` |
| TrainingRuns.FailurePersists | PuzzleBox.NeuralNets/Training/TrainingRun.cs:58-61 | once a step of the loop fails, the loop fails with that error |
| TrainingRuns.CombineViews | PuzzleBox.NeuralNets/Training/TrainingRun.cs:56-66 | the combined run has the deltas combined slot by slot, the batch sizes and costs added, and its values, errors and cursor kept |
| TrainingRuns.CombineIntoFresh | PuzzleBox.NeuralNets/Training/TrainingRun.cs:56-66 | a new run absorbs the deltas, batch size and cost of any run with as many layers |
| TrainingRuns.CombineWithFresh | PuzzleBox.NeuralNets/Training/TrainingRun.cs:56-66 | combining a new run in succeeds exactly when this run has no delta in its slots, and then changes nothing; it otherwise fails on a null dereference |
| TrainingRuns.FirstFailure | PuzzleBox.NeuralNets/Training/TrainingRun.cs:58-61 | when the other run has no deltas, a failing loop fails on a null dereference |
| TrainingRuns.CombineCommutes | PuzzleBox.NeuralNets/Training/TrainingRun.cs:56-66 | two runs with deltas in the same slots and of the same shapes combine to the same deltas, batch size and cost in either order |
| TrainingRuns.FailsWith | PuzzleBox.NeuralNets/Training/TrainingRun.cs:58-61 | when every failing step of the `Combine` loop fails with one error, a failing loop fails with that error |
| TrainingRuns.CombineAccumulates | PuzzleBox.NeuralNets/Training/TrainingRun.cs:56-66 | a run holding deltas only for weighted layers absorbs a run with a delta for each weighted layer and again holds deltas only for them, or fails on a shape mismatch |
| TrainingRuns.SlotOrderIrrelevant | PuzzleBox.NeuralNets/Training/TrainingRun.cs:60 | in one slot, combining two deltas into a third in either order gives the same sum, or the same shape mismatch |
| TrainingRuns.CombineBothSlotwise | PuzzleBox.NeuralNets/Training/TrainingRun.cs:56-66 | combining two runs into a third in turn succeeds exactly when every slot does, holds every slot's combination, adds both batch sizes and costs and keeps the rest, or fails on a shape mismatch |
| TrainingRuns.CombineOrderIrrelevant | PuzzleBox.NeuralNets/Training/TrainingRun.cs:56-66 | combining `a` then `b` into a run gives the same result as combining `b` then `a`: the same deltas, batch size and cost, or the same error |
| TrainingRuns.TrainingRun.constructor | PuzzleBox.NeuralNets/Training/TrainingRun.cs:47-54 | the new run's state is the fresh state for its layer count |
| TrainingRuns.TrainingRun.Input | PuzzleBox.NeuralNets/Training/TrainingRun.cs:15-19 | reads value slot `Counter`, or is a range error |
| TrainingRuns.TrainingRun.Output | PuzzleBox.NeuralNets/Training/TrainingRun.cs:21-25 | reads value slot `Counter + 1`, or is a range error |
| TrainingRuns.TrainingRun.OutputError | PuzzleBox.NeuralNets/Training/TrainingRun.cs:33-37 | reads error slot `Counter + 1`, or is a range error |
| TrainingRuns.TrainingRun.SetInput | PuzzleBox.NeuralNets/Training/TrainingRun.cs:15-19 | the run's new state is `WithInput` of the old one, or a range error that changes nothing |
| TrainingRuns.TrainingRun.SetOutput | PuzzleBox.NeuralNets/Training/TrainingRun.cs:21-25 | the run's new state is `WithOutput` of the old one, or a range error that changes nothing |
| TrainingRuns.TrainingRun.SetInputError | PuzzleBox.NeuralNets/Training/TrainingRun.cs:27-31 | the run's new state is `WithInputError` of the old one, or a range error that changes nothing |
| TrainingRuns.TrainingRun.SetOutputError | PuzzleBox.NeuralNets/Training/TrainingRun.cs:33-37 | the run's new state is `WithOutputError` of the old one, or a range error that changes nothing |
| TrainingRuns.TrainingRun.SetWeightsDelta | PuzzleBox.NeuralNets/Training/TrainingRun.cs:41-45 | the run's new state is `WithWeightsDelta` of the old one, or a range error that changes nothing |
| TrainingRuns.TrainingRun.Combine | PuzzleBox.NeuralNets/Training/TrainingRun.cs:56-66 | the run's new state is the combination of the two old states, also when the other run is this one; a failure is the loop's error; the cursor is kept and a distinct other run is not changed |
| Trainers.Scored | PuzzleBox.NeuralNets/Training/Trainer.cs:97-98 | the run's cost becomes the summed cost of its output against the desired output and its output error the cost gradient, nothing else changing; a missing output slot is a range error and an empty one a null dereference |
| Trainers.ExampleRunOnEmptyNet | PuzzleBox.NeuralNets/Training/Trainer.cs:93-102 | a net without layers cannot train an example: its run has no output slot |
| Trainers.ForwardedEffect | PuzzleBox.NeuralNets/Training/Trainer.cs:95-98 | after the forward pass and the scoring the run holds every value of the pass, the net's output last, that output's cost and its gradient as the last error, no delta yet, a batch of one and the cursor on the last layer |
| Trainers.ExampleRunEffect | PuzzleBox.NeuralNets/Training/Trainer.cs:93-102 | a trained example's run keeps the forward pass's values, batch size and cost, has an error in every slot, a delta exactly for each weighted layer and the cursor on layer 0 |
| Trainers.TraineeShaped | PuzzleBox.NeuralNets/Training/Trainer.cs:93-102 | every example the net trains gives a run of that shape whose cost is the cost of the net's output |
| Trainers.BatchRunFailurePersists | PuzzleBox.NeuralNets/Training/Trainer.cs:85-87 | once the aggregation fails, later examples do not change its error |
| Trainers.BatchRunTotals | PuzzleBox.NeuralNets/Training/Trainer.cs:85-87 | an aggregated batch of `n` examples counts `n`, costs the sum of their costs, keeps the new run's empty values and errors and cursor, and holds a delta exactly for every weighted layer once an example has run |
| Trainers.BatchRunOfPrefix | PuzzleBox.NeuralNets/Training/Trainer.cs:85-87 | the aggregate of the first `n` examples depends on those examples only |
| Trainers.BatchRunAccumulates | PuzzleBox.NeuralNets/Training/Trainer.cs:85-87 | a batch aggregates only when each of its examples trains, and then holds deltas only for weighted layers |
| Trainers.BatchRunSwap | PuzzleBox.NeuralNets/Training/Trainer.cs:85-87 | exchanging two neighbouring examples neither makes the aggregate fail nor succeed, and when every example trains it gives the same run |
| Trainers.MoveToEnd | PuzzleBox.NeuralNets/Training/Trainer.cs:85-87 | moving one example to the end of the batch neither makes the aggregate fail nor succeed, and when every example trains it gives the same run |
| Trainers.BatchRunPermutation | PuzzleBox.NeuralNets/Training/Trainer.cs:85-87 | any rearrangement of a batch (the same multiset of examples) aggregates successfully exactly when the batch does, and when every example trains it gives the same summed deltas, batch size and cost |
| Trainers.TotalCostNonNegative | PuzzleBox.NeuralNets/Training/Trainer.cs:85-87 | a batch of examples none of which costs less than 0 costs at least 0 |
| Trainers.QuadraticCosts | PuzzleBox.NeuralNets/Training/Trainer.cs:97 | with the quadratic cost no example ever costs less than 0 |
| Trainers.BatchStepTotals | PuzzleBox.NeuralNets/Training/Trainer.cs:83-91 | a trained batch counts its examples and costs the sum of their costs |
| Trainers.BatchStepOrderIrrelevant | PuzzleBox.NeuralNets/Training/Trainer.cs:83-91 | `TrainBatch` over any rearrangement of the batch succeeds exactly when it does over the batch, and when every example trains it gives the same aggregated run and the same new layers |
| Trainers.BatchStepAtRateZero | PuzzleBox.NeuralNets/Training/Trainer.cs:83-91 | at learning rate 0 a trained batch leaves the layers as they were |
| Trainers.EmptyBatch | PuzzleBox.NeuralNets/Training/Trainer.cs:83-91 | an empty batch trains only a net without weighted layers, keeps its layers and counts no example and no cost |
| Trainers.Quotient | PuzzleBox.NeuralNets/Training/Trainer.cs:74 | the reported cost per example is the quotient for a non-empty batch; for an empty batch it is not finite, and is not a number exactly when the cost is 0 |
| Trainers.EpochsWellFormed | PuzzleBox.NeuralNets/Training/Trainer.cs:48-81 | a training reports costs and then exactly one end, at most one cost per epoch, and no cost from the first cancelled epoch on |
| Trainers.CostReports | PuzzleBox.NeuralNets/Training/Trainer.cs:74 | when every batch counts a positive number of examples at a cost of at least 0, every reported cost is finite and at least 0 |
| Trainers.QuadraticBatches | PuzzleBox.NeuralNets/Training/Trainer.cs:83-91 | with the quadratic cost every trained batch counts its examples at a cost of at least 0 |
| Trainers.EpochsWithoutChange | PuzzleBox.NeuralNets/Training/Trainer.cs:57-75 | when no batch changes the layers, every reported cost is the same and the layers are left as they were |
| Trainers.SettledOfWellFormed | PuzzleBox.NeuralNets/Training/Trainer.cs:25-41 | a well-formed report sequence always settles the returned `Task`: with the error that ended it, or with the last cost reported, or with the starting value when none was |
| Trainers.Score | PuzzleBox.NeuralNets/Training/Trainer.cs:97-98 | the run's new state is `Scored` of the old one, or its error |
| Trainers.ForwardAndScore | PuzzleBox.NeuralNets/Training/Trainer.cs:95-98 | a new run holding the recorded forward pass and its scoring, or the first error of the two |
| Trainers.EpochsStart | PuzzleBox.NeuralNets/Training/Trainer.cs:57 | before the first epoch nothing has been reported and the whole training lies ahead |
| Trainers.EpochFollows | PuzzleBox.NeuralNets/Training/Trainer.cs:59-74 | an epoch that is not cancelled either reports its batch's error, which ends the reports, or reports its cost and continues from the layers its batch left |
| Trainers.EpochsFinish | PuzzleBox.NeuralNets/Training/Trainer.cs:57-77 | when the loop stops at the epoch count or at a cancelled epoch, the reports end with the completion and the layers are the training's |
| Trainers.Trainer.constructor | PuzzleBox.NeuralNets/Training/Trainer.cs:18-23 | the trainer holds the net and the learning rate and uses the quadratic cost |
| Trainers.Trainer.SetCostFunction | PuzzleBox.NeuralNets/Training/Trainer.cs:43-46 | the trainer uses the given cost function from then on |
| Trainers.Trainer.TrainExample | PuzzleBox.NeuralNets/Training/Trainer.cs:93-102 | the run returned is the recorded forward pass, scored, then back-propagated, or the first error; the net is not changed |
| Trainers.Trainer.Aggregate | PuzzleBox.NeuralNets/Training/Trainer.cs:85-87 | every example trained and combined, in turn, into a new run for the net's layers, or the first error; by `Trainers.BatchRunPermutation` the order of the examples does not change a successful result |
| Trainers.Trainer.TrainBatch | PuzzleBox.NeuralNets/Training/Trainer.cs:83-91 | the aggregated run is returned and its deltas applied to the net, or the first error is returned |
| Trainers.Trainer.Train | PuzzleBox.NeuralNets/Training/Trainer.cs:48-81 | the reports are those of the epochs from the net's layers, and a completed training leaves the net with the layers the epochs reached |
| Trainers.Trainer.TrainAsync | PuzzleBox.NeuralNets/Training/Trainer.cs:25-41 | the returned `Task` ends with the last cost reported, 0 when there was none, or with the error that ended the training |
| Trainers.RunEpoch | PuzzleBox.NeuralNets/Training/Trainer.cs:59-74 | one epoch reports its cost and the epochs continue from the layers it left, or reports the error that ends the reports |
| Trainers.CombineExample | PuzzleBox.NeuralNets/Training/Trainer.cs:85-87 | one example trained and combined extends the aggregation by one, or gives the error of the whole aggregation |
| Trainers.CombineInto | PuzzleBox.NeuralNets/Training/Trainer.cs:87 | a trained example's run combined into the aggregate extends it by one, or gives the error of the whole aggregation, without changing the net |
| Trainers.UseQuadraticCost | PuzzleBox.NeuralNets/CostFunctions/SquaredErrorCost.cs:21-25 | the trainer uses the quadratic cost from then on |
| Trainers.UseCrossEntropyCost | PuzzleBox.NeuralNets/CostFunctions/CrossEntropyCost.cs:33-37 | the trainer uses the cross-entropy cost from then on |

## Left out

- Floating point: `float` arithmetic, rounding, overflow to infinity and NaN are not modelled; values are `real`. The one place where the source's float semantics matter to its logic, the cost per example of an empty batch, is modelled by `Trainers.Quotient`.
- `Sigmoid`, `SigmoidGrad`, `TanH`, `TanHGrad` and the `Sigmoid` and `TanH` layers are transcendental; the activation layers are modelled for any activation and gradient function, so those layers are instances that are not spelt out.
- The natural logarithm of the cross-entropy cost is the parameter `log`.
- `InitRandom` and `SetRandomSeed` are random; the weighted layers' constructors take the initial weights as the parameter `init`.
- Concurrency: `AsParallel` in `TrainBatch`, `Parallel.For` in `ApplyTraining`, `Task.Run` in `Train` and the lock in `WeightsLayerBase` are modelled sequentially, in list order. `Trainers.BatchRunPermutation` and `Trainers.BatchStepOrderIrrelevant` show that folding the batch in any other order succeeds exactly when the list order does, and gives the same run and layers when every example trains. When an example fails, which error the parallel query meets first depends on the order, and the model reports the first in list order.
- Exceptions thrown inside `AsParallel` and `Parallel.For` reach the caller wrapped in an `AggregateException`; the model reports the inner error itself.
- `Subject`, `IObservable` and `TaskCompletionSource` are the sequence of events a training reports; `CancellationToken` is the predicate `cancelled(epoch)`, asked once before each epoch.
- `ToString`, the `LayerBaseExtensions.FeedForwards(params float[])` shim and the implicit conversion operators other than `FromVector`, `FromMatrix` and `ToScalar` are conversions between equal representations and are not modelled.
- `ILayer` and `IHaveWeights` have no behaviour; the layer kinds are a datatype, and the weighted layers one class.
- A `Net` used as a layer of another net is not modelled; a net's layers are dense, convolutional and activation layers.
- MathNet is not part of this model: its matrix and vector operations are written out in `Matrices`, with the argument checks it is documented to make (the shapes of a sum, a product or a sub-matrix).
- The state a training run is left in after a layer's backward pass throws, and the weights left after `ApplyTraining` throws part way, are modelled for the sequential order only; the trainer discards such a run.
- `Trainers.Trainer.TrainAsync`: subscribes to the hot `Subject` only after `Train` has started its background task (Trainer.cs:33-38), so costs reported before the subscription are lost and the `Task` can end with 0 or an earlier cost. The model's `Task` sees every report.
- `ActivationLayers.ActivationForward`: maps with the corrected `Sizes.Clone`, so on a layer of `new Size()` and its one-value tensor it succeeds where `Tensor.Map` throws `ArgumentOutOfRange` (see Findings; `Layers.ActivationLayerOfEmptySize` exhibits the source's behaviour).
- `ActivationLayers.ActivationInputError`: builds the input error in the corrected clone of the layer's size, so for a layer of `new Size()` it succeeds where the source throws `ArgumentOutOfRange` (see Findings; `ActivationLayers.ActivationAsWrittenOfEmptySize`).
- `DenseLayers.DenseForward`: builds the output in the corrected clone of the output size, so for an output size of `new Size()` it succeeds where the source throws `ArgumentOutOfRange` (see Findings; `DenseLayers.DenseForwardAsWrittenOfEmptySize`).
- `Layers.ActivationFeedForwards`: states that every input of the layer's size is accepted, which holds for the corrected clone; for a layer of `new Size()` the source throws instead (`Layers.ActivationLayerOfEmptySize`).
- `Layers.DenseFeedForwards`: states that every input of the input size is accepted, which holds for the corrected clone; for an output size of `new Size()` the source throws instead (`Layers.DenseLayerOfEmptyOutputSize`).
- `Nets.Net.Add`: requires that a weights layer object is not already in the net. The source allows adding the same layer object twice; the model's frame reasoning needs each weights layer at one position.
- `Nets.UpdatedLayer`: a zero batch size with a stored delta is a `DivideByZero` failure; the source divides a float by the integer 0 and gets an infinite scale. The trainer never reaches it, because a run with a delta has a batch of at least one.
- `Convolutions.Convolution`: a stride below 1 is a `NonPositiveStride` failure; in the source the loop then never ends or the output size is an undefined float-to-int cast.
- `Convolutions.Convolve`: the output size uses integer division of the non-negative span where the source truncates a float quotient; the two agree whenever span and stride are below 2^23, where the float quotient cannot round up to the next integer.
- `ConvolutionalLayers.CartesianConvolve`, `ConvolutionalLayers.MatrixwiseConvolveTrans` and `ConvolutionalLayers.BackwardProducts`: their own contracts state only their empty or failure cases; the values they compute are stated by the lemmas beside them (`CartesianConvolveCells`, `MatrixwiseBlocksAreEqual`, `BackwardProductsOf` and the regressions).
- The tensor constructor compares the size's `Length` with the value count, as `Tensor.cs:14` does. `Size.cs` has no kernel count, while `DenseLayer.cs:12` reads `TotalLength` and `ConvolutionalLayer.cs:40,46` read `KernelCount`; the model keeps a kernel count (1 unless given) and `TotalLength = Length × kernelCount`, so a tensor holds `Length` values whatever its kernel count, as the code is written.
- Fixtures that call constructors and builders of other revisions (`ConvolutionalLayerFixture.cs:14`, `TransverseConvolutionalLayerFixture.cs:18`, `TrainingFixture.cs:158`) are not modelled; the convergence tests of `TrainingFixture.cs` and `AutoencodingFixture.cs` depend on random weights and float behaviour.
- The `Application` and `Build` projects (user interface and build scripts) are not part of this model.

## Findings

| source | as written | input that shows it | evidently intended | confidence | as-written member | corrected member |
|---|---|---|---|---|---|---|
| PuzzleBox.NeuralNets/Algebra/Size.cs:17-20 | `Clone` builds a new size from `Dimensions` | `new Size()`: no dimensions are stored as `[0]` with length 1, and its clone has length 0, so `Tensor.Map` of a one-value tensor of that size throws | a copy with the same dimensions and length | not executed | Sizes.CloneAsWrittenOfEmptySize | Sizes.Clone |
| PuzzleBox.NeuralNets/Layers/Activations/ActivationLayerBase.cs:16-19 | `FeedForwardsInternal` maps through `Tensor.Map`, which builds the result in the as-written clone of the input's size | a `Relu` layer of `new Size()` fed the one-value tensor of that size: the guard of `LayerBase.cs:22-23` admits it and `Map` throws `ArgumentOutOfRange` | the activation of the one value | not executed | Layers.ActivationLayerOfEmptySize | ActivationLayers.ActivationForward |
| PuzzleBox.NeuralNets/Layers/Activations/ActivationLayerBase.cs:21-29 | `BackPropagate` builds the input error in `InputSize.Clone()` | the same layer with a recorded input and output error of one value each: the new tensor throws `ArgumentOutOfRange` | the output error times the gradient at the input | not executed | ActivationLayers.ActivationAsWrittenOfEmptySize | ActivationLayers.ActivationInputError |
| PuzzleBox.NeuralNets/Layers/Weighted/DenseLayer.cs:22-28 | the output is built in `OutputSize.Clone()` | `new Net(3).Dense(new Size())` fed any three values: one weight row, but the clone spans no value, so the new tensor throws `ArgumentOutOfRange` | the one output value `W · [1; x]` | not executed | Layers.DenseLayerOfEmptyOutputSize | DenseLayers.DenseForward |
