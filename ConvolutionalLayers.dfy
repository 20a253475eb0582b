/** The convolutional layer, in its ordinary and its transpose mode: the dimension guard and
  * the weight shape of its constructor, the output sizes its two builders compute, the
  * averaging Cartesian convolution of its forward pass, and the errors and weights delta
  * of its backward pass. */
module ConvolutionalLayers {
  import opened Wrappers
  import opened Ints
  import opened Sizes
  import opened Matrices
  import opened Tensors
  import opened Convolutions
  import opened TrainingRuns

  // ---------------------------------------------------------------- the two folds

  /** `Aggregate(null, (m, c) => m == null ? c : m.Add(c))` over `item(0)` to
    * `item(n - 1)`, each computed when the fold reaches it. */
  function AddFold(item: int -> Result<Matrix>, n: nat): (r: Result<Option<Matrix>>)
    ensures r.Success? ==> (r.value.None? <==> n == 0)
  {
    if n == 0 then Success(None)
    else
      var prev :- AddFold(item, n - 1);
      var c :- item(n - 1);
      if prev.None? then Success(Some(c))
      else
        var s :- Add(prev.value, c);
        Success(Some(s))
  }

  /** `Aggregate(null, (m, c) => m == null ? c : m.Append(c))` over `item(0)` to
    * `item(n - 1)`. */
  function AppendFold(item: int -> Result<Matrix>, n: nat): (r: Result<Option<Matrix>>)
    ensures r.Success? ==> (r.value.None? <==> n == 0)
  {
    if n == 0 then Success(None)
    else
      var prev :- AppendFold(item, n - 1);
      var c :- item(n - 1);
      if prev.None? then Success(Some(c))
      else
        var a :- Append(prev.value, c);
        Success(Some(a))
  }

  /** The first `n` items all succeed with one shape. */
  predicate Uniform(item: int -> Result<Matrix>, n: nat, rows: nat, cols: nat)
  {
    forall k | 0 <= k < n :: item(k).Success? && item(k).value.rows == rows && item(k).value.cols == cols
  }

  /** Cell (i, j) of item `k`, or 0. */
  function ItemCell(item: int -> Result<Matrix>, k: int, i: int, j: int): real
  {
    if item(k).Success? then At(item(k).value, i, j) else 0.0
  }

  /** Cell (i, j) across the items. */
  function CellOf(item: int -> Result<Matrix>, i: int, j: int): int -> real
  {
    k => ItemCell(item, k, i, j)
  }

  /** Cell (i, j) of block `b` of `width` columns. */
  function BlockCell(m: Matrix, i: int, b: int, width: int, j: int): real
  {
    At(m, i, b * width + j)
  }

  /** Adding up items of one shape gives that shape, each cell the sum of the items' cells. */
  lemma {:induction false} AddFoldCells(item: int -> Result<Matrix>, n: nat, rows: nat, cols: nat)
    requires n > 0 && Uniform(item, n, rows, cols)
    ensures AddFold(item, n).Success? && AddFold(item, n).value.Some?
    ensures AddFold(item, n).value.value.rows == rows && AddFold(item, n).value.value.cols == cols
    ensures forall i, j | 0 <= i < rows && 0 <= j < cols ::
      AddFold(item, n).value.value.data[i][j] == SumOver(n, CellOf(item, i, j))
  {
    if n > 1 {
      AddFoldCells(item, n - 1, rows, cols);
    }
  }

  /** Appending items of one shape places item `b` as the `b`-th block of columns. */
  lemma {:induction false} AppendFoldBlocks(item: int -> Result<Matrix>, n: nat, rows: nat, width: nat)
    requires n > 0 && Uniform(item, n, rows, width)
    ensures AppendFold(item, n).Success? && AppendFold(item, n).value.Some?
    ensures AppendFold(item, n).value.value.rows == rows && AppendFold(item, n).value.value.cols == n * width
    ensures forall i, b, j | 0 <= i < rows && 0 <= b < n && 0 <= j < width ::
      BlockCell(AppendFold(item, n).value.value, i, b, width, j) == item(b).value.data[i][j]
  {
    if n > 1 {
      AppendFoldBlocks(item, n - 1, rows, width);
      var p := AppendFold(item, n - 1).value.value;
      var c := item(n - 1).value;
      var a := AppendFold(item, n).value.value;
      assert a == Append(p, c).value;
      MulStep(n - 1, width);
      forall i, b, j | 0 <= i < rows && 0 <= b < n && 0 <= j < width
        ensures BlockCell(a, i, b, width, j) == item(b).value.data[i][j]
      {
        MulLe(0, b, width);
        if b < n - 1 {
          MulStep(b, width);
          MulLe(b + 1, n - 1, width);
          assert BlockCell(p, i, b, width, j) == item(b).value.data[i][j];
        } else {
          assert b * width == p.cols;
        }
      }
    }
  }

  // ---------------------------------------------------------------- GuardDimensions

  /** The layer is a transpose convolution when its output spans more values than its
    * input. */
  predicate IsTranspose(outputSize: Size, inputSize: Size)
  {
    outputSize.length > inputSize.length
  }

  /** One axis passes the guard: both lengths at least 1, and the output no shorter than
    * the input in transpose mode, no longer otherwise. */
  predicate DimensionOk(inputDimension: int, outputDimension: int, isTranspose: bool)
  {
    inputDimension >= 1 && outputDimension >= 1 &&
    (if isTranspose then outputDimension >= inputDimension else inputDimension >= outputDimension)
  }

  /** What `GuardDimensions` accepts: as many output dimensions as input dimensions, each
    * axis passing. */
  predicate DimensionsCompatible(outputSize: Size, inputSize: Size)
  {
    |inputSize.dimensions| == |outputSize.dimensions| &&
    forall i | 0 <= i < |inputSize.dimensions| ::
      DimensionOk(inputSize.dimensions[i], outputSize.dimensions[i], IsTranspose(outputSize, inputSize))
  }

  /** `ConvolutionalLayer.GuardDimensions`: checks the axes in order and refuses the first
    * that fails. */
  method GuardDimensions(outputSize: Size, inputSize: Size) returns (o: Outcome)
    ensures o.Pass? <==> DimensionsCompatible(outputSize, inputSize)
    ensures o.Fail? ==> o.error == Argument
  {
    if |inputSize.dimensions| != |outputSize.dimensions| {
      return Fail(Argument);
    }
    var isTranspose := outputSize.length > inputSize.length;
    var i := 0;
    while i < |inputSize.dimensions|
      invariant 0 <= i <= |inputSize.dimensions|
      invariant forall k | 0 <= k < i :: DimensionOk(inputSize.dimensions[k], outputSize.dimensions[k], isTranspose)
    {
      var inputDimension, outputDimension := inputSize.dimensions[i], outputSize.dimensions[i];
      if inputDimension < 1 {
        return Fail(Argument);
      }
      if outputDimension < 1 {
        return Fail(Argument);
      }
      if isTranspose && outputDimension < inputDimension {
        return Fail(Argument);
      }
      if !isTranspose && inputDimension < outputDimension {
        return Fail(Argument);
      }
      i := i + 1;
    }
    o := Pass;
  }

  // ---------------------------------------------------------------- the weights

  /** The weight rows the constructor reads: the second weight length, or 1 for one. */
  function WeightRows(weightLength: seq<int>): int
    requires |weightLength| >= 1
  {
    if |weightLength| == 1 then 1 else weightLength[1]
  }

  /** The shape of the weights the constructor allocates, after its guard: `weightRows`
    * rows and one block of `weightLength[0]` columns per output kernel. An empty length
    * list has no first element, and the matrix library refuses a negative size. */
  function ConvolutionalWeightsShape(inputSize: Size, outputSize: Size, weightLength: seq<int>): (r: Result<(nat, nat)>)
    ensures !DimensionsCompatible(outputSize, inputSize) ==> r == Failure(Argument)
    ensures DimensionsCompatible(outputSize, inputSize) && weightLength == [] ==> r == Failure(IndexOutOfRange)
    ensures r.Success? <==>
      DimensionsCompatible(outputSize, inputSize) && |weightLength| >= 1 &&
      WeightRows(weightLength) >= 0 && weightLength[0] * outputSize.kernelCount >= 0
    ensures r.Success? ==> r.value == (WeightRows(weightLength), weightLength[0] * outputSize.kernelCount)
  {
    if !DimensionsCompatible(outputSize, inputSize) then Failure(Argument)
    else if weightLength == [] then Failure(IndexOutOfRange)
    else
      var m :- Dense(WeightRows(weightLength), weightLength[0] * outputSize.kernelCount);
      Success((m.rows, m.cols))
  }

  /** Weights of the constructor's shape split into one kernel per output kernel, each
    * `weightLength[0]` columns wide. */
  lemma KernelsOfWeights(weights: Matrix, kernelCount: int, width: nat)
    requires kernelCount > 0 && weights.cols == width * kernelCount
    ensures SplitByColumn(weights, kernelCount).Success?
    ensures |SplitByColumn(weights, kernelCount).value| == kernelCount
    ensures forall b | 0 <= b < kernelCount ::
      SplitByColumn(weights, kernelCount).value[b].rows == weights.rows &&
      SplitByColumn(weights, kernelCount).value[b].cols == width
  {
    assert weights.cols == kernelCount * width;
    DivModOfIndex(width, kernelCount, 0);
  }

  // ---------------------------------------------------------------- the builders

  /** The builders' `GetOutputSize`: `(inSize - weightLength) / stride + 2 * padding + 1`
    * with C#'s truncating division; a zero stride divides by zero. */
  function BuilderOutputDimension(inSize: int, weightLength: int, padding: int, stride: int): (r: Result<int>)
    ensures r.Success? <==> stride != 0
    ensures r.Failure? ==> r.error == DivideByZero
    ensures r.Success? ==> r.value == CDiv(inSize - weightLength, stride) + padding * 2 + 1
  {
    if stride == 0 then Failure(DivideByZero)
    else Success(CDiv(inSize - weightLength, stride) + padding * 2 + 1)
  }

  /** The output dimensions of the first `n` axes, computed axis by axis: an axis without
    * a weight length is a range error, a zero stride a division by zero. */
  function OutputDimensions(inDims: seq<int>, weightLengths: seq<int>, paddings: seq<int>, strides: seq<int>, n: nat)
    : (r: Result<seq<int>>)
    requires n <= |inDims| && |strides| == |inDims| && |paddings| == |weightLengths|
    ensures r.Success? <==> n <= |weightLengths| && forall i | 0 <= i < n :: strides[i] != 0
    ensures r.Success? ==> |r.value| == n && forall i | 0 <= i < n ::
      r.value[i] == CDiv(inDims[i] - weightLengths[i], strides[i]) + paddings[i] * 2 + 1
    ensures r.Failure? && n > |weightLengths| && (forall i | 0 <= i < |weightLengths| :: strides[i] != 0) ==>
      r.error == IndexOutOfRange
    ensures r.Failure? && n <= |weightLengths| ==> r.error == DivideByZero
  {
    if n == 0 then Success([])
    else
      var prev :- OutputDimensions(inDims, weightLengths, paddings, strides, n - 1);
      if n - 1 >= |weightLengths| then Failure(IndexOutOfRange)
      else
        var d :- BuilderOutputDimension(inDims[n - 1], weightLengths[n - 1], paddings[n - 1], strides[n - 1]);
        Success(prev + [d])
  }

  /** What a builder hands the layer constructor besides the input size. */
  datatype LayerShape = LayerShape(outputSize: Size, strides: seq<int>, paddings: seq<int>)

  /** The padding of the `Convolution` builder: `(w - 1) / 2` on every axis. */
  function ConvolutionPaddings(weightLengths: seq<int>): (ps: seq<int>)
    ensures |ps| == |weightLengths| && forall i | 0 <= i < |ps| :: ps[i] == CDiv(weightLengths[i] - 1, 2)
  {
    seq(|weightLengths|, i requires 0 <= i < |weightLengths| => CDiv(weightLengths[i] - 1, 2))
  }

  /** The padding of the `ConvolutionTranspose` builder: `w - 1` on every axis. */
  function TransposePaddings(weightLengths: seq<int>): (ps: seq<int>)
    ensures |ps| == |weightLengths| && forall i | 0 <= i < |ps| :: ps[i] == weightLengths[i] - 1
  {
    seq(|weightLengths|, i requires 0 <= i < |weightLengths| => weightLengths[i] - 1)
  }

  /** Unit strides on `n` axes. */
  function UnitStrides(n: nat): (ss: seq<int>)
    ensures |ss| == n && forall i | 0 <= i < n :: ss[i] == 1
  {
    seq(n, _ => 1)
  }

  /** The sizes the `Convolution` builder computes from the net's current output size:
    * unit strides unless given, a stride array of the wrong length refused as a range, and
    * then the padded output dimensions with `kernelCount` kernels. */
  function ConvolutionBuilder(inputSize: Size, weightLengths: seq<int>, kernelCount: int, strideArray: Option<seq<int>>)
    : (r: Result<LayerShape>)
    ensures strideArray.Some? && |strideArray.value| != |inputSize.dimensions| ==> r == Failure(ArgumentOutOfRange)
    ensures r.Success? ==>
      r.value.paddings == ConvolutionPaddings(weightLengths) &&
      r.value.strides == (if strideArray.Some? then strideArray.value else UnitStrides(|inputSize.dimensions|))
    ensures r.Success? ==> r.value.outputSize.kernelCount == kernelCount
  {
    var n := |inputSize.dimensions|;
    var strides := if strideArray.Some? then strideArray.value else UnitStrides(n);
    if |strides| != n then Failure(ArgumentOutOfRange)
    else
      var paddings := ConvolutionPaddings(weightLengths);
      var dims :- OutputDimensions(inputSize.dimensions, weightLengths, paddings, strides, n);
      Success(LayerShape(NewKernelSize(dims, kernelCount), strides, paddings))
  }

  /** The sizes the `ConvolutionTranspose` builder computes: unit strides and a padding of
    * one less than the weight length. */
  function ConvolutionTransposeBuilder(inputSize: Size, weightLengths: seq<int>, kernelCount: int): (r: Result<LayerShape>)
    ensures r.Success? ==>
      r.value.paddings == TransposePaddings(weightLengths) && r.value.strides == UnitStrides(|inputSize.dimensions|)
    ensures r.Success? ==> r.value.outputSize.kernelCount == kernelCount
  {
    var n := |inputSize.dimensions|;
    var strides := UnitStrides(n);
    var paddings := TransposePaddings(weightLengths);
    var dims :- OutputDimensions(inputSize.dimensions, weightLengths, paddings, strides, n);
    Success(LayerShape(NewKernelSize(dims, kernelCount), strides, paddings))
  }

  /** With unit strides and odd weight lengths the `Convolution` builder keeps every
    * dimension of its input. */
  lemma SameSizeConvolution(inputSize: Size, weightLengths: seq<int>, kernelCount: int)
    requires |inputSize.dimensions| >= 1 && |weightLengths| >= |inputSize.dimensions|
    requires forall i | 0 <= i < |inputSize.dimensions| :: weightLengths[i] >= 1 && weightLengths[i] % 2 == 1
    ensures ConvolutionBuilder(inputSize, weightLengths, kernelCount, None).Success?
    ensures ConvolutionBuilder(inputSize, weightLengths, kernelCount, None).value.outputSize.dimensions == inputSize.dimensions
  {
    var n := |inputSize.dimensions|;
    var dims := OutputDimensions(inputSize.dimensions, weightLengths, ConvolutionPaddings(weightLengths), UnitStrides(n), n);
    assert dims.Success?;
    forall i | 0 <= i < n ensures dims.value[i] == inputSize.dimensions[i] {
      var w := weightLengths[i];
      CDivOfNonNegative(w - 1, 2);
      assert CDiv(w - 1, 2) * 2 == w - 1;
    }
  }

  /** Each dimension the `ConvolutionTranspose` builder computes is `in + w - 1`. */
  lemma TransposeBuilderDimensions(inputSize: Size, weightLengths: seq<int>, kernelCount: int)
    requires |weightLengths| >= |inputSize.dimensions| >= 1
    ensures ConvolutionTransposeBuilder(inputSize, weightLengths, kernelCount).Success?
    ensures var out := ConvolutionTransposeBuilder(inputSize, weightLengths, kernelCount).value.outputSize;
      |out.dimensions| == |inputSize.dimensions| &&
      forall i | 0 <= i < |inputSize.dimensions| :: out.dimensions[i] == inputSize.dimensions[i] + weightLengths[i] - 1
  {
  }

  /** Lengths that each grow or stay have a product that grows or stays, and stays only
    * when every length stays. */
  lemma {:induction false} ProductGrows(a: seq<int>, b: seq<int>)
    requires |a| == |b| && forall i | 0 <= i < |a| :: b[i] >= a[i] >= 1
    ensures Product(b) >= Product(a) >= 1
    ensures Product(b) == Product(a) ==> a == b
  {
    if a != [] {
      assert forall i | 0 <= i < |a| - 1 :: b[1..][i] >= a[1..][i] >= 1 by {
        forall i | 0 <= i < |a| - 1 ensures b[1..][i] >= a[1..][i] >= 1 {
          assert b[1..][i] == b[i + 1] && a[1..][i] == a[i + 1];
        }
      }
      ProductGrows(a[1..], b[1..]);
      var pa, pb := Product(a[1..]), Product(b[1..]);
      MulLe(a[0], b[0], pb);
      MulLe(pa, pb, a[0]);
      assert a[0] * pa >= 1 by { MulLe(1, a[0], pa); }
      if b[0] * pb == a[0] * pa {
        if b[0] > a[0] {
          MulLe(a[0] + 1, b[0], pb);
          MulStep(a[0], pb);
        }
        assert b[0] == a[0];
        if pb > pa {
          MulLe(pa + 1, pb, a[0]);
          MulStep(pa, a[0]);
        }
        assert a == [a[0]] + a[1..] && b == [b[0]] + b[1..];
      }
    }
  }

  /** The sizes the `ConvolutionTranspose` builder computes pass the layer's guard, in
    * transpose mode whenever some weight length exceeds 1. */
  lemma TransposeBuilderPassesGuard(inputSize: Size, weightLengths: seq<int>, kernelCount: int)
    requires |weightLengths| >= |inputSize.dimensions| >= 1
    requires inputSize.length == Product(inputSize.dimensions)
    requires forall i | 0 <= i < |inputSize.dimensions| :: inputSize.dimensions[i] >= 1 && weightLengths[i] >= 1
    ensures ConvolutionTransposeBuilder(inputSize, weightLengths, kernelCount).Success?
    ensures DimensionsCompatible(ConvolutionTransposeBuilder(inputSize, weightLengths, kernelCount).value.outputSize, inputSize)
  {
    TransposeBuilderDimensions(inputSize, weightLengths, kernelCount);
    var out := ConvolutionTransposeBuilder(inputSize, weightLengths, kernelCount).value.outputSize;
    ProductGrows(inputSize.dimensions, out.dimensions);
  }

  /** One axis of the `Convolution` builder with a stride of at least 1 and an odd weight
    * length no longer than the input: the output lies between the two. */
  lemma ShrinkingAxis(d: int, w: int, s: int)
    requires s >= 1 && 1 <= w <= d && w % 2 == 1
    ensures w <= CDiv(d - w, s) + CDiv(w - 1, 2) * 2 + 1 <= d
  {
    CDivOfNonNegative(w - 1, 2);
    CDivOfNonNegative(d - w, s);
    var q := (d - w) / s;
    assert d - w == s * q + (d - w) % s;
    DivNonNegative(d - w, s);
    MulLe(1, s, q);
  }

  /** With strides of at least 1 and odd weight lengths no longer than the input, every
    * dimension the `Convolution` builder computes lies between the weight length and the
    * input dimension. */
  lemma ConvolutionBuilderShrinks(inputSize: Size, weightLengths: seq<int>, kernelCount: int, strides: seq<int>)
    requires |strides| == |inputSize.dimensions| >= 1 && |weightLengths| >= |inputSize.dimensions|
    requires forall i | 0 <= i < |inputSize.dimensions| ::
      strides[i] >= 1 && 1 <= weightLengths[i] <= inputSize.dimensions[i] && weightLengths[i] % 2 == 1
    ensures ConvolutionBuilder(inputSize, weightLengths, kernelCount, Some(strides)).Success?
    ensures var out := ConvolutionBuilder(inputSize, weightLengths, kernelCount, Some(strides)).value.outputSize;
      |out.dimensions| == |inputSize.dimensions| && out.length == Product(out.dimensions) &&
      forall i | 0 <= i < |inputSize.dimensions| :: weightLengths[i] <= out.dimensions[i] <= inputSize.dimensions[i]
  {
    var n := |inputSize.dimensions|;
    var dims := OutputDimensions(inputSize.dimensions, weightLengths, ConvolutionPaddings(weightLengths), strides, n);
    assert dims.Success?;
    forall i | 0 <= i < n ensures weightLengths[i] <= dims.value[i] <= inputSize.dimensions[i] {
      ShrinkingAxis(inputSize.dimensions[i], weightLengths[i], strides[i]);
    }
  }

  /** With strides of at least 1, odd weight lengths no longer than the input, the sizes
    * the `Convolution` builder computes pass the layer's guard in ordinary mode. */
  lemma ConvolutionBuilderPassesGuard(inputSize: Size, weightLengths: seq<int>, kernelCount: int, strides: seq<int>)
    requires |strides| == |inputSize.dimensions| >= 1 && |weightLengths| >= |inputSize.dimensions|
    requires inputSize.length == Product(inputSize.dimensions)
    requires forall i | 0 <= i < |inputSize.dimensions| ::
      strides[i] >= 1 && 1 <= weightLengths[i] <= inputSize.dimensions[i] && weightLengths[i] % 2 == 1
    ensures ConvolutionBuilder(inputSize, weightLengths, kernelCount, Some(strides)).Success?
    ensures var out := ConvolutionBuilder(inputSize, weightLengths, kernelCount, Some(strides)).value.outputSize;
      !IsTranspose(out, inputSize) && DimensionsCompatible(out, inputSize)
  {
    ConvolutionBuilderShrinks(inputSize, weightLengths, kernelCount, strides);
    ShrinkingPassesGuard(ConvolutionBuilder(inputSize, weightLengths, kernelCount, Some(strides)).value.outputSize, inputSize);
  }

  /** Sizes whose every output axis lies between 1 and the input's pass the guard in
    * ordinary mode. */
  lemma ShrinkingPassesGuard(outputSize: Size, inputSize: Size)
    requires |outputSize.dimensions| == |inputSize.dimensions|
    requires outputSize.length == Product(outputSize.dimensions) && inputSize.length == Product(inputSize.dimensions)
    requires forall i | 0 <= i < |inputSize.dimensions| :: 1 <= outputSize.dimensions[i] <= inputSize.dimensions[i]
    ensures !IsTranspose(outputSize, inputSize) && DimensionsCompatible(outputSize, inputSize)
  {
    ProductGrows(outputSize.dimensions, inputSize.dimensions);
  }

  // ---------------------------------------------------------------- CartesianConvolve

  /** The row stride `CartesianConvolve` reads: index 1, or 1 for a shorter array. */
  function StrideRows(strides: seq<int>): int
  {
    if |strides| > 1 then strides[1] else 1
  }

  /** The row padding `CartesianConvolve` reads: index 1, or 1 for a shorter array. */
  function PaddingRows(paddings: seq<int>): int
  {
    if |paddings| > 1 then paddings[1] else 1
  }

  /** Matrix `k` of a list, or an empty matrix outside it. */
  function Item(ms: seq<Matrix>, k: int): Matrix
  {
    if 0 <= k < |ms| then ms[k] else Zeros(0, 0)
  }

  /** `f.Convolve(g, strideRows, strides[0], paddingRows, paddings[0])` for the `k`-th `g`;
    * index 0 of an empty array is a range error. */
  function PairConvolution(f: Matrix, gs: seq<Matrix>, strides: seq<int>, paddings: seq<int>, k: int): (r: Result<Matrix>)
    ensures strides == [] || paddings == [] ==> r == Failure(IndexOutOfRange)
  {
    if strides == [] || paddings == [] then Failure(IndexOutOfRange)
    else Convolution(f, Item(gs, k), StrideRows(strides), strides[0], PaddingRows(paddings), paddings[0])
  }

  function PairConvolutions(f: Matrix, gs: seq<Matrix>, strides: seq<int>, paddings: seq<int>): int -> Result<Matrix>
  {
    k => PairConvolution(f, gs, strides, paddings, k)
  }

  /** The convolutions of `f` with every `g`, summed and divided by their count; with no
    * `g` the sum is null. */
  function AveragedConvolution(f: Matrix, gs: seq<Matrix>, strides: seq<int>, paddings: seq<int>): Result<Matrix>
  {
    var sum :- AddFold(PairConvolutions(f, gs, strides, paddings), |gs|);
    if sum.None? then Failure(NullReference) else Success(DivideBy(sum.value, |gs| as real))
  }

  function AveragedConvolutions(fs: seq<Matrix>, gs: seq<Matrix>, strides: seq<int>, paddings: seq<int>): int -> Result<Matrix>
  {
    b => AveragedConvolution(Item(fs, b), gs, strides, paddings)
  }

  /** `ConvolutionalLayer.CartesianConvolve`: one averaged convolution per `f`, appended
    * left to right; null when there is no `f`. */
  function CartesianConvolve(fs: seq<Matrix>, gs: seq<Matrix>, strides: seq<int>, paddings: seq<int>): (r: Result<Option<Matrix>>)
    ensures |fs| == 0 ==> r == Success(None)
  {
    AppendFold(AveragedConvolutions(fs, gs, strides, paddings), |fs|)
  }

  /** A fold whose every item fails with one error fails with it. */
  lemma {:induction false} AppendFoldOfFailures(item: int -> Result<Matrix>, n: nat, e: Error)
    requires n > 0 && forall k | 0 <= k < n :: item(k) == Failure(e)
    ensures AppendFold(item, n) == Failure(e)
  {
    if n > 1 {
      AppendFoldOfFailures(item, n - 1, e);
    }
  }

  /** With no second operand, the sum of each row of the product is null. */
  lemma CartesianConvolveOfNoKernel(fs: seq<Matrix>, strides: seq<int>, paddings: seq<int>)
    requires |fs| > 0
    ensures CartesianConvolve(fs, [], strides, paddings) == Failure(NullReference)
  {
    AppendFoldOfFailures(AveragedConvolutions(fs, [], strides, paddings), |fs|, NullReference);
  }

  /** When every convolution of the product succeeds with one shape, block `b` of the
    * result at cell (i, j) is the mean over the `g`s of cell (i, j) of the convolution of
    * `fs[b]` with `g`. */
  lemma CartesianConvolveCells(fs: seq<Matrix>, gs: seq<Matrix>, strides: seq<int>, paddings: seq<int>, rows: nat, width: nat)
    requires |fs| > 0 && |gs| > 0
    requires forall b | 0 <= b < |fs| :: Uniform(PairConvolutions(fs[b], gs, strides, paddings), |gs|, rows, width)
    ensures CartesianConvolve(fs, gs, strides, paddings).Success?
    ensures CartesianConvolve(fs, gs, strides, paddings).value.Some?
    ensures var m := CartesianConvolve(fs, gs, strides, paddings).value.value;
      m.rows == rows && m.cols == |fs| * width &&
      forall i, b, j | 0 <= i < rows && 0 <= b < |fs| && 0 <= j < width ::
        BlockCell(m, i, b, width, j) == SumOver(|gs|, CellOf(PairConvolutions(fs[b], gs, strides, paddings), i, j)) / (|gs| as real)
  {
    var item := AveragedConvolutions(fs, gs, strides, paddings);
    forall b | 0 <= b < |fs|
      ensures item(b).Success? && item(b).value.rows == rows && item(b).value.cols == width
      ensures forall i, j | 0 <= i < rows && 0 <= j < width ::
        item(b).value.data[i][j] == SumOver(|gs|, CellOf(PairConvolutions(fs[b], gs, strides, paddings), i, j)) / (|gs| as real)
    {
      assert Item(fs, b) == fs[b];
      AddFoldCells(PairConvolutions(fs[b], gs, strides, paddings), |gs|, rows, width);
    }
    AppendFoldBlocks(item, |fs|, rows, width);
  }

  /** A single input: each block is the convolution itself. */
  lemma CartesianConvolveOfOneInput(fs: seq<Matrix>, g: Matrix, strides: seq<int>, paddings: seq<int>, rows: nat, width: nat)
    requires |fs| > 0
    requires forall b | 0 <= b < |fs| :: Uniform(PairConvolutions(fs[b], [g], strides, paddings), 1, rows, width)
    ensures CartesianConvolve(fs, [g], strides, paddings).Success?
    ensures CartesianConvolve(fs, [g], strides, paddings).value.Some?
    ensures var m := CartesianConvolve(fs, [g], strides, paddings).value.value;
      m.rows == rows && m.cols == |fs| * width &&
      forall i, b, j | 0 <= i < rows && 0 <= b < |fs| && 0 <= j < width ::
        BlockCell(m, i, b, width, j) == ItemCell(PairConvolutions(fs[b], [g], strides, paddings), 0, i, j)
  {
    CartesianConvolveCells(fs, [g], strides, paddings, rows, width);
    forall b, i, j | 0 <= b < |fs| ensures SumOver(1, CellOf(PairConvolutions(fs[b], [g], strides, paddings), i, j))
        == ItemCell(PairConvolutions(fs[b], [g], strides, paddings), 0, i, j) {
      SumOverTwo(CellOf(PairConvolutions(fs[b], [g], strides, paddings), i, j));
    }
  }

  // ---------------------------------------------------------------- MatrixwiseConvolveTrans

  /** The paddings `MatrixwiseConvolveTrans` uses: half of `in - out + w - 1` on each axis,
    * rows from index 1 and columns from index 0 of the dimensions. */
  function TransposeErrorPaddings(inputSize: Size, outputSize: Size, weightRows: int, weightCols: int): (r: Result<(int, int)>)
    ensures r.Success? <==> |inputSize.dimensions| >= 2 && |outputSize.dimensions| >= 2
    ensures r.Failure? ==> r.error == IndexOutOfRange
    ensures r.Success? ==>
      r.value == (CDiv(inputSize.dimensions[1] - outputSize.dimensions[1] + weightRows - 1, 2),
                  CDiv(inputSize.dimensions[0] - outputSize.dimensions[0] + weightCols - 1, 2))
  {
    if |inputSize.dimensions| < 2 || |outputSize.dimensions| < 2 then Failure(IndexOutOfRange)
    else Success((CDiv(inputSize.dimensions[1] - outputSize.dimensions[1] + weightRows - 1, 2),
                  CDiv(inputSize.dimensions[0] - outputSize.dimensions[0] + weightCols - 1, 2)))
  }

  /** `fs[i].ConvolveTranspose(hs[i], rowPadding, columnPadding)`. */
  function TransposeTerm(fs: seq<Matrix>, hs: seq<Matrix>, rowPadding: int, columnPadding: int, i: int): Result<Matrix>
  {
    if 0 <= i < |fs| && i < |hs| then TransposedConvolution(fs[i], hs[i], Some(rowPadding), Some(columnPadding))
    else Failure(IndexOutOfRange)
  }

  function TransposeTerms(fs: seq<Matrix>, hs: seq<Matrix>, rowPadding: int, columnPadding: int): int -> Result<Matrix>
  {
    i => TransposeTerm(fs, hs, rowPadding, columnPadding, i)
  }

  /** One block of the input error: the transposed convolutions of the first
    * `kernelCount` pairs, summed and divided by `kernelCount`. A negative count is refused
    * by `Enumerable.Range`, a zero count leaves the sum null. */
  function TransposeBlock(fs: seq<Matrix>, hs: seq<Matrix>, rowPadding: int, columnPadding: int, kernelCount: int): Result<Matrix>
  {
    if kernelCount < 0 then Failure(ArgumentOutOfRange)
    else
      var sum :- AddFold(TransposeTerms(fs, hs, rowPadding, columnPadding), kernelCount);
      if sum.None? then Failure(NullReference) else Success(DivideBy(sum.value, kernelCount as real))
  }

  /** The outer `Select` ignores its index: every block is the same computation. */
  function TransposeBlocks(fs: seq<Matrix>, hs: seq<Matrix>, rowPadding: int, columnPadding: int, kernelCount: int): int -> Result<Matrix>
  {
    _ => TransposeBlock(fs, hs, rowPadding, columnPadding, kernelCount)
  }

  /** `ConvolutionalLayer.MatrixwiseConvolveTrans`: refuses slice lists of different
    * lengths, then appends one block per input kernel. */
  function MatrixwiseConvolveTrans(fs: seq<Matrix>, hs: seq<Matrix>, inputSize: Size, outputSize: Size, weightRows: int, weightCols: int)
    : (r: Result<Option<Matrix>>)
    ensures |fs| != |hs| ==> r == Failure(Argument)
  {
    if |fs| != |hs| then Failure(Argument)
    else
      var paddings :- TransposeErrorPaddings(inputSize, outputSize, weightRows, weightCols);
      if inputSize.kernelCount < 0 then Failure(ArgumentOutOfRange)
      else AppendFold(TransposeBlocks(fs, hs, paddings.0, paddings.1, outputSize.kernelCount), inputSize.kernelCount)
  }

  /** The input error is one block repeated once per input kernel: block `b` at cell
    * (i, j) is cell (i, j) of the single block. */
  lemma MatrixwiseBlocksAreEqual(fs: seq<Matrix>, hs: seq<Matrix>, inputSize: Size, outputSize: Size, weightRows: int, weightCols: int)
    requires MatrixwiseConvolveTrans(fs, hs, inputSize, outputSize, weightRows, weightCols).Success?
    requires inputSize.kernelCount > 0
    ensures var (rp, cp) := TransposeErrorPaddings(inputSize, outputSize, weightRows, weightCols).value;
      var block := TransposeBlock(fs, hs, rp, cp, outputSize.kernelCount);
      var r := MatrixwiseConvolveTrans(fs, hs, inputSize, outputSize, weightRows, weightCols).value;
      block.Success? && r.Some? &&
      r.value.rows == block.value.rows && r.value.cols == inputSize.kernelCount * block.value.cols &&
      forall i, b, j | 0 <= i < block.value.rows && 0 <= b < inputSize.kernelCount && 0 <= j < block.value.cols ::
        BlockCell(r.value, i, b, block.value.cols, j) == block.value.data[i][j]
  {
    var (rp, cp) := TransposeErrorPaddings(inputSize, outputSize, weightRows, weightCols).value;
    var item := TransposeBlocks(fs, hs, rp, cp, outputSize.kernelCount);
    assert item(0).Success?;
    var block := item(0).value;
    AppendFoldBlocks(item, inputSize.kernelCount, block.rows, block.cols);
  }

  /** No input kernel gives a null input error, which the conversion to a tensor then
    * dereferences. */
  lemma MatrixwiseOfNoInputKernel(fs: seq<Matrix>, hs: seq<Matrix>, inputSize: Size, outputSize: Size, weightRows: int, weightCols: int)
    requires |fs| == |hs| && |inputSize.dimensions| >= 2 && |outputSize.dimensions| >= 2 && inputSize.kernelCount == 0
    ensures MatrixwiseConvolveTrans(fs, hs, inputSize, outputSize, weightRows, weightCols) == Success(None)
  {
  }

  // ---------------------------------------------------------------- the weights-delta tiling

  /** The bounds of the two loops that copy the delta into a zero matrix of the weights'
    * shape: `rows / d.rows` rows of copies, and `cols / d.cols` columns of them, the
    * latter read only when the outer loop runs (integer division by zero otherwise). */
  function TileCounts(rows: nat, cols: nat, d: Matrix): (r: Result<(nat, nat)>)
    ensures r.Failure? <==> d.rows == 0 || (rows >= d.rows && d.cols == 0)
    ensures r.Failure? ==> r.error == DivideByZero
    ensures r.Success? ==> r.value.0 * d.rows <= rows && r.value.1 * d.cols <= cols
    ensures r.Success? ==> (r.value.0 > 0 <==> rows >= d.rows) && (r.value.0 == 0 ==> r.value.1 == 0)
    ensures r.Success? && r.value.0 > 0 ==> (r.value.1 > 0 <==> cols >= d.cols)
  {
    if d.rows == 0 then Failure(DivideByZero)
    else
      QuotientBounds(rows, d.rows);
      if rows / d.rows == 0 then Success((0, 0))
      else if d.cols == 0 then Failure(DivideByZero)
      else QuotientBounds(cols, d.cols); Success((rows / d.rows, cols / d.cols))
  }

  /** The last copy along an axis, at offset `total / len - 1`, still fits. */
  lemma TileFit(total: nat, len: nat, q: nat)
    requires len > 0 && q * len <= total
    ensures q == 0 || q - 1 + len <= total
  {
    if q > 0 {
      MulLe(1, q, len - 1);
      assert (q - 1) * (len - 1) >= 0;
      assert q * len == (q - 1) * (len - 1) + (q - 1) + len;
    }
  }

  /** The copies at (r, 0) to (r, n - 1), in that order. */
  function TileRow(m: Matrix, d: Matrix, r: nat, n: nat): (t: Matrix)
    requires r + d.rows <= m.rows && (n > 0 ==> n - 1 + d.cols <= m.cols)
    ensures SameShape(t, m)
    decreases n
  {
    if n == 0 then m else SetSubMatrix(TileRow(m, d, r, n - 1), r, n - 1, d)
  }

  /** The copies at each (r, c) with `r < rowCount` and `c < columnCount`, row by row. */
  function TileRows(m: Matrix, d: Matrix, rowCount: nat, columnCount: nat): (t: Matrix)
    requires rowCount > 0 ==> rowCount - 1 + d.rows <= m.rows
    requires rowCount > 0 && columnCount > 0 ==> columnCount - 1 + d.cols <= m.cols
    ensures SameShape(t, m)
    decreases rowCount
  {
    if rowCount == 0 then m else TileRow(TileRows(m, d, rowCount - 1, columnCount), d, rowCount - 1, columnCount)
  }

  /** Whether index `i` falls in one of the copies at offsets 0 to `n - 1` of length `len`;
    * the last of them to cover it is at `Min(i, n - 1)`. */
  predicate Covered(i: int, n: int, len: int)
  {
    n > 0 && 0 <= i - Min(i, n - 1) < len
  }

  /** Each cell of a row of copies comes from the last copy that covers it. */
  lemma {:induction false} TileRowCells(m: Matrix, d: Matrix, r: nat, n: nat)
    requires r + d.rows <= m.rows && (n > 0 ==> n - 1 + d.cols <= m.cols)
    ensures forall i, j {:trigger TileRow(m, d, r, n).data[i][j]} | 0 <= i < m.rows && 0 <= j < m.cols ::
      TileRow(m, d, r, n).data[i][j] ==
        if r <= i < r + d.rows && Covered(j, n, d.cols) then d.data[i - r][j - Min(j, n - 1)] else m.data[i][j]
  {
    if n > 0 {
      TileRowCells(m, d, r, n - 1);
      var p := TileRow(m, d, r, n - 1);
      var t := TileRow(m, d, r, n);
      assert t == SetSubMatrix(p, r, n - 1, d);
      forall i, j | 0 <= i < m.rows && 0 <= j < m.cols
        ensures t.data[i][j] ==
          if r <= i < r + d.rows && Covered(j, n, d.cols) then d.data[i - r][j - Min(j, n - 1)] else m.data[i][j]
      {
        assert t.data[i][j] == if r <= i < r + d.rows && n - 1 <= j < n - 1 + d.cols then d.data[i - r][j - (n - 1)] else p.data[i][j];
        assert p.data[i][j] ==
          if r <= i < r + d.rows && Covered(j, n - 1, d.cols) then d.data[i - r][j - Min(j, n - 2)] else m.data[i][j];
        if !(r <= i < r + d.rows) {
        } else if n - 1 <= j < n - 1 + d.cols {
          assert Min(j, n - 1) == n - 1;
        } else if j < n - 1 {
          assert Min(j, n - 2) == j == Min(j, n - 1);
        } else {
          assert !Covered(j, n, d.cols) && !Covered(j, n - 1, d.cols);
        }
      }
    }
  }

  /** Each cell of the tiling comes from the last copy that covers it, or keeps its value. */
  lemma {:induction false} TileRowsCells(m: Matrix, d: Matrix, rowCount: nat, columnCount: nat)
    requires rowCount > 0 ==> rowCount - 1 + d.rows <= m.rows
    requires rowCount > 0 && columnCount > 0 ==> columnCount - 1 + d.cols <= m.cols
    ensures forall i, j {:trigger TileRows(m, d, rowCount, columnCount).data[i][j]} | 0 <= i < m.rows && 0 <= j < m.cols ::
      TileRows(m, d, rowCount, columnCount).data[i][j] ==
        if Covered(i, rowCount, d.rows) && Covered(j, columnCount, d.cols)
        then d.data[i - Min(i, rowCount - 1)][j - Min(j, columnCount - 1)]
        else m.data[i][j]
  {
    if rowCount > 0 {
      TileRowsCells(m, d, rowCount - 1, columnCount);
      var p := TileRows(m, d, rowCount - 1, columnCount);
      TileRowCells(p, d, rowCount - 1, columnCount);
      var t := TileRows(m, d, rowCount, columnCount);
      assert t == TileRow(p, d, rowCount - 1, columnCount);
      forall i, j | 0 <= i < m.rows && 0 <= j < m.cols
        ensures t.data[i][j] ==
          if Covered(i, rowCount, d.rows) && Covered(j, columnCount, d.cols)
          then d.data[i - Min(i, rowCount - 1)][j - Min(j, columnCount - 1)]
          else m.data[i][j]
      {
        if !Covered(j, columnCount, d.cols) {
        } else if rowCount - 1 <= i < rowCount - 1 + d.rows {
          assert Min(i, rowCount - 1) == rowCount - 1;
        } else if i < rowCount - 1 {
          assert Min(i, rowCount - 2) == i == Min(i, rowCount - 1);
        } else {
          assert !Covered(i, rowCount, d.rows) && !Covered(i, rowCount - 1, d.rows);
        }
      }
    }
  }

  /** The weights delta `BackPropagate` stores: a zero matrix of the weights' shape with
    * the computed delta copied at every (r, c) the two loops visit. */
  function Tiling(rows: nat, cols: nat, d: Matrix): (r: Result<Matrix>)
    ensures r.Success? <==> TileCounts(rows, cols, d).Success?
    ensures r.Failure? ==> r.error == DivideByZero
    ensures r.Success? ==> r.value.rows == rows && r.value.cols == cols
  {
    var counts :- TileCounts(rows, cols, d);
    TileFit(rows, d.rows, counts.0);
    if counts.0 > 0 && counts.1 > 0 then TileFit(cols, d.cols, counts.1); Success(TileRows(Zeros(rows, cols), d, counts.0, counts.1))
    else Success(TileRows(Zeros(rows, cols), d, counts.0, counts.1))
  }

  /** Every cell of the tiling is a cell of the delta or zero: the delta at the offset of
    * the last copy that covers the cell. */
  lemma TilingCells(rows: nat, cols: nat, d: Matrix)
    requires Tiling(rows, cols, d).Success?
    ensures var nR, nC := TileCounts(rows, cols, d).value.0, TileCounts(rows, cols, d).value.1;
      forall i, j {:trigger Tiling(rows, cols, d).value.data[i][j]} | 0 <= i < rows && 0 <= j < cols ::
        Tiling(rows, cols, d).value.data[i][j] ==
          if Covered(i, nR, d.rows) && Covered(j, nC, d.cols)
          then d.data[i - Min(i, nR - 1)][j - Min(j, nC - 1)]
          else 0.0
  {
    var nR, nC := TileCounts(rows, cols, d).value.0, TileCounts(rows, cols, d).value.1;
    TileFit(rows, d.rows, nR);
    if nR > 0 && nC > 0 {
      TileFit(cols, d.cols, nC);
    }
    var z := Zeros(rows, cols);
    var t := TileRows(z, d, nR, nC);
    assert Tiling(rows, cols, d).value == t;
    TileRowsCells(z, d, nR, nC);
  }

  /** A delta already of the weights' shape is stored as it is. */
  lemma TilingOfSameShape(d: Matrix)
    requires d.rows > 0 && d.cols > 0
    ensures Tiling(d.rows, d.cols, d) == Success(d)
  {
    TilingCells(d.rows, d.cols, d);
    Extensionality(Tiling(d.rows, d.cols, d).value, d);
  }

  /** A delta too tall, or too wide, for the weights leaves the stored delta zero. */
  lemma TilingOfLargerDelta(rows: nat, cols: nat, d: Matrix)
    requires d.rows > rows || (0 < d.rows <= rows && cols < d.cols)
    ensures Tiling(rows, cols, d) == Success(Zeros(rows, cols))
  {
    TilingCells(rows, cols, d);
    var t := Tiling(rows, cols, d).value;
    forall i, j | 0 <= i < rows && 0 <= j < cols ensures t.data[i][j] == Zeros(rows, cols).data[i][j] {
      assert !Covered(i, TileCounts(rows, cols, d).value.0, d.rows) || !Covered(j, TileCounts(rows, cols, d).value.1, d.cols);
    }
    Extensionality(Tiling(rows, cols, d).value, Zeros(rows, cols));
  }

  /** The inner loop of `TileDelta`: the delta copied at (r, c) for every c below `n`. */
  method TileAlongRow(m: Matrix, d: Matrix, r: nat, n: nat) returns (t: Matrix)
    requires r + d.rows <= m.rows && (n > 0 ==> n - 1 + d.cols <= m.cols)
    ensures t == TileRow(m, d, r, n)
  {
    t := m;
    var c := 0;
    while c < n
      invariant 0 <= c <= n
      invariant t == TileRow(m, d, r, c)
    {
      t := SetSubMatrix(t, r, c, d);
      c := c + 1;
    }
  }

  /** The two loops of `BackPropagate`, copying the delta into a zero matrix. */
  method TileDelta(rows: nat, cols: nat, d: Matrix) returns (r: Result<Matrix>)
    ensures r == Tiling(rows, cols, d)
  {
    if d.rows == 0 {
      return Failure(DivideByZero);
    }
    var zeros := Zeros(rows, cols);
    var t := zeros;
    var nR := rows / d.rows;
    var nC := if d.cols == 0 then 0 else cols / d.cols;
    TileFit(rows, d.rows, nR);
    if d.cols > 0 {
      TileFit(cols, d.cols, nC);
    }
    var i := 0;
    while i < rows / d.rows
      invariant 0 <= i <= nR
      invariant i > 0 ==> d.cols > 0
      invariant t == TileRows(zeros, d, i, nC)
    {
      if d.cols == 0 {
        return Failure(DivideByZero);
      }
      t := TileAlongRow(t, d, i, cols / d.cols);
      i := i + 1;
    }
    return Success(t);
  }

  // ---------------------------------------------------------------- forward and backward

  /** Every matrix of a list turned by 180 degrees. */
  function RotateAll(ms: seq<Matrix>): (rs: seq<Matrix>)
    ensures |rs| == |ms| && forall k | 0 <= k < |ms| :: rs[k] == Rotated180(ms[k])
  {
    seq(|ms|, k requires 0 <= k < |ms| => Rotated180(ms[k]))
  }

  /** The kernels of the weights: the split by the output kernel count, each turned by 180
    * degrees in transpose mode. */
  function OrientedKernels(weights: Matrix, kernelCount: int, isTranspose: bool): (r: Result<seq<Matrix>>)
    ensures r.Success? <==> SplitByColumn(weights, kernelCount).Success?
    ensures r.Failure? ==> r == Failure(SplitByColumn(weights, kernelCount).error)
    ensures r.Success? ==> |r.value| == kernelCount && forall b | 0 <= b < kernelCount ::
      r.value[b] == if isTranspose then Rotated180(SplitBlock(weights, kernelCount, b)) else SplitBlock(weights, kernelCount, b)
  {
    var kernels :- SplitByColumn(weights, kernelCount);
    Success(if isTranspose then RotateAll(kernels) else kernels)
  }

  /** `ConvolutionalLayer.FeedForwardsInternal`: every kernel convolved with every slice
    * of the input, each kernel's convolutions averaged, the kernels' results side by side,
    * read column by column into a tensor of the declared output size. */
  function ConvolutionalForward(weights: Matrix, outputSize: Size, strides: seq<int>, paddings: seq<int>,
                                isTranspose: bool, input: Tensor): (r: Result<Tensor>)
    ensures OrientedKernels(weights, outputSize.kernelCount, isTranspose).Failure? ==>
      r == Failure(SplitByColumn(weights, outputSize.kernelCount).error)
    ensures r.Success? ==> r.value.size == outputSize
    ensures r.Success? ==>
      OrientedKernels(weights, outputSize.kernelCount, isTranspose).Success? && ToMatrices(input).Success? &&
      var c := CartesianConvolve(OrientedKernels(weights, outputSize.kernelCount, isTranspose).value,
                                 ToMatrices(input).value, strides, paddings);
      c.Success? && c.value.Some? && r.value.value == ColumnMajor(c.value.value)
  {
    var kernels :- OrientedKernels(weights, outputSize.kernelCount, isTranspose);
    var slices :- ToMatrices(input);
    var c :- CartesianConvolve(kernels, slices, strides, paddings);
    if c.None? then Failure(NullReference)
    else NewTensor(Clone(outputSize), ColumnMajor(c.value))
  }

  /** What `ConvolutionalLayer.BackPropagate` computes before it stores anything: the
    * output error's slices (turned in transpose mode) correlated with the input's give
    * the weights delta (null without any slice), and the weights' kernels convolved back
    * with the output error give the input error. */
  function BackwardProducts(weights: Matrix, inputSize: Size, outputSize: Size, strides: seq<int>, paddings: seq<int>,
                            isTranspose: bool, v: RunView): (r: Result<(Option<Matrix>, Matrix)>)
    ensures OutputErrorOf(v).Failure? ==> r == Failure(IndexOutOfRange)
    ensures OutputErrorOf(v) == Success(None) ==> r == Failure(NullReference)
    ensures r.Success? ==> 0 <= v.counter && v.counter + 1 < |v.errors|
  {
    var outputError :- OutputErrorOf(v);
    if outputError.None? then Failure(NullReference)
    else
      var errorSlices :- ToMatrices(outputError.value);
      var errors := if isTranspose then RotateAll(errorSlices) else errorSlices;
      var input :- InputOf(v);
      if input.None? then Failure(NullReference)
      else
        var inputSlices :- ToMatrices(input.value);
        var delta :- CartesianConvolve(errors, inputSlices, strides, paddings);
        var kernels :- SplitByColumn(weights, outputSize.kernelCount);
        var inputError :- MatrixwiseConvolveTrans(kernels, errors, inputSize, outputSize, weights.rows, weights.cols);
        if inputError.None? then Failure(NullReference)
        else Success((delta, inputError.value))
  }

  /** The stores of `ConvolutionalLayer.BackPropagate`: the input error as a tensor, then a
    * zero delta of the weights' shape, into which the computed delta is then copied. */
  function StoreBackward(weights: Matrix, v: RunView, delta: Option<Matrix>, inputError: Matrix): (r: Result<RunView>)
    ensures r.Success? <==>
      0 <= v.counter < |v.errors| && v.counter < |v.deltas| && delta.Some? &&
      Tiling(weights.rows, weights.cols, delta.value).Success?
    ensures r.Success? ==>
      r.value == v.(errors := v.errors[v.counter := Some(FromMatrix(inputError))],
                    deltas := v.deltas[v.counter := Some(Tiling(weights.rows, weights.cols, delta.value).value)])
  {
    var v1 :- WithInputError(v, Some(FromMatrix(inputError)));
    var v2 :- WithWeightsDelta(v1, Some(Zeros(weights.rows, weights.cols)));
    if delta.None? then Failure(NullReference)
    else
      var tiled :- Tiling(weights.rows, weights.cols, delta.value);
      WithWeightsDelta(v2, Some(tiled))
  }

  /** `ConvolutionalLayer.BackPropagate` on the state of a run: only the input error and
    * the weights delta of the current layer change, and the delta has the weights' shape. */
  function ConvolutionalBackward(weights: Matrix, inputSize: Size, outputSize: Size, strides: seq<int>, paddings: seq<int>,
                                 isTranspose: bool, v: RunView): (r: Result<RunView>)
    ensures OutputErrorOf(v) == Success(None) ==> r == Failure(NullReference)
    ensures r.Success? ==>
      0 <= v.counter && v.counter + 1 < |v.errors| && v.counter < |v.deltas| &&
      |r.value.errors| == |v.errors| && |r.value.deltas| == |v.deltas| &&
      r.value == v.(errors := v.errors[v.counter := r.value.errors[v.counter]],
                    deltas := v.deltas[v.counter := r.value.deltas[v.counter]])
    ensures r.Success? ==> r.value.errors[v.counter].Some? && r.value.deltas[v.counter].Some?
    ensures r.Success? ==> r.value.deltas[v.counter].value.rows == weights.rows &&
                           r.value.deltas[v.counter].value.cols == weights.cols
  {
    var products :- BackwardProducts(weights, inputSize, outputSize, strides, paddings, isTranspose, v);
    StoreBackward(weights, v, products.0, products.1)
  }

  // ---------------------------------------------------------------- single kernels and slices

  /** Splitting into one block gives the matrix back. */
  lemma SplitByColumnOfOne(m: Matrix)
    ensures SplitByColumn(m, 1) == Success([m])
  {
    var r := SplitByColumn(m, 1).value;
    assert m.cols / 1 == m.cols;
    forall i, j | 0 <= i < m.rows && 0 <= j < m.cols ensures r[0].data[i][j] == m.data[i][j] {
      assert 0 * (m.cols / 1) + j == j;
    }
    Extensionality(r[0], m);
    assert r == [m];
  }

  /** One kernel over one slice: the product is that one convolution. */
  lemma CartesianConvolveOfOnePair(f: Matrix, g: Matrix, strides: seq<int>, paddings: seq<int>)
    requires PairConvolution(f, [g], strides, paddings, 0).Success?
    ensures CartesianConvolve([f], [g], strides, paddings) == Success(Some(PairConvolution(f, [g], strides, paddings, 0).value))
  {
    var c := PairConvolution(f, [g], strides, paddings, 0).value;
    assert AddFold(PairConvolutions(f, [g], strides, paddings), 1) == Success(Some(c));
    Extensionality(DivideBy(c, 1.0), c);
    assert AveragedConvolutions([f], [g], strides, paddings)(0) == Success(c);
  }

  /** One input kernel and one output kernel: the input error is that one transposed
    * convolution. */
  lemma MatrixwiseOfOnePair(f: Matrix, h: Matrix, inputSize: Size, outputSize: Size, weightRows: int, weightCols: int)
    requires inputSize.kernelCount == 1 && outputSize.kernelCount == 1
    requires |inputSize.dimensions| >= 2 && |outputSize.dimensions| >= 2
    requires var (rp, cp) := TransposeErrorPaddings(inputSize, outputSize, weightRows, weightCols).value;
      TransposedConvolution(f, h, Some(rp), Some(cp)).Success?
    ensures var (rp, cp) := TransposeErrorPaddings(inputSize, outputSize, weightRows, weightCols).value;
      MatrixwiseConvolveTrans([f], [h], inputSize, outputSize, weightRows, weightCols)
        == Success(Some(TransposedConvolution(f, h, Some(rp), Some(cp)).value))
  {
    var (rp, cp) := TransposeErrorPaddings(inputSize, outputSize, weightRows, weightCols).value;
    var c := TransposedConvolution(f, h, Some(rp), Some(cp)).value;
    assert AddFold(TransposeTerms([f], [h], rp, cp), 1) == Success(Some(c));
    Extensionality(DivideBy(c, 1.0), c);
    assert TransposeBlocks([f], [h], rp, cp, 1)(0) == Success(c);
  }

  // ---------------------------------------------------------------- the hand-checked layer

  /** The weights of the hand-checked layer, the kernel [0.2, 0.7]. */
  const ConvRegressionWeights: Matrix := RawMatrix(1, 2, [[0.2, 0.7]])
  /** That kernel turned half a circle. */
  const ConvRegressionRotated: Matrix := RawMatrix(1, 2, [[0.7, 0.2]])
  /** Its input [1, 2, 3]. */
  const ConvRegressionInput: Matrix := RawMatrix(1, 3, [[1.0, 2.0, 3.0]])
  /** Its output [1.6, 2.5]. */
  const ConvRegressionOutput: Matrix := RawMatrix(1, 2, [[1.6, 2.5]])
  /** The output error [0.2, -0.5] it is given. */
  const ConvRegressionOutputError: Matrix := RawMatrix(1, 2, [[0.2, -0.5]])
  /** The weights delta [-0.8, -1.1] it computes. */
  const ConvRegressionDeltaMatrix: Matrix := RawMatrix(1, 2, [[-0.8, -1.1]])
  /** The input error [0.04, 0.04, -0.35] it computes. */
  const ConvRegressionInputErrorMatrix: Matrix := RawMatrix(1, 3, [[0.04, 0.04, -0.35]])

  /** A 1 x 2 kernel [0.2, 0.7] over the input [1, 2, 3]. */
  lemma ForwardConvolutionRegression()
    ensures Convolution(ConvRegressionWeights, ConvRegressionInput, 1, 1, 0, 0)
      == Success(ConvRegressionOutput)
  {
    var f: Matrix := ConvRegressionWeights;
    var g: Matrix := ConvRegressionInput;
    var expected: Matrix := ConvRegressionOutput;
    var res := Convolution(f, g, 1, 1, 0, 0).value;
    forall k, j | 0 <= k < 1 && 0 <= j < 2 ensures res.data[k][j] == expected.data[k][j] {
      CorrelationOneByTwo(f, g, k, j);
    }
    Extensionality(res, expected);
  }

  /** The output error [0.2, -0.5] correlated with the input [1, 2, 3]. */
  lemma DeltaConvolutionRegression()
    ensures Convolution(ConvRegressionOutputError, ConvRegressionInput, 1, 1, 0, 0)
      == Success(ConvRegressionDeltaMatrix)
  {
    var f: Matrix := ConvRegressionOutputError;
    var g: Matrix := ConvRegressionInput;
    var expected: Matrix := ConvRegressionDeltaMatrix;
    var res := Convolution(f, g, 1, 1, 0, 0).value;
    forall k, j | 0 <= k < 1 && 0 <= j < 2 ensures res.data[k][j] == expected.data[k][j] {
      CorrelationOneByTwo(f, g, k, j);
    }
    Extensionality(res, expected);
  }

  /** The kernel [0.2, 0.7] convolved back with the output error [0.2, -0.5], column
    * padding 1. */
  lemma InputErrorConvolutionRegression()
    ensures TransposedConvolution(ConvRegressionWeights, ConvRegressionOutputError, Some(0), Some(1))
      == Success(ConvRegressionInputErrorMatrix)
  {
    var f: Matrix := ConvRegressionWeights;
    var rotated: Matrix := ConvRegressionRotated;
    var g: Matrix := ConvRegressionOutputError;
    var expected: Matrix := ConvRegressionInputErrorMatrix;
    Extensionality(Rotated180(f), rotated);
    var res := Convolution(rotated, g, 1, 1, 0, 1).value;
    forall k, j | 0 <= k < 1 && 0 <= j < 3 ensures res.data[k][j] == expected.data[k][j] {
      CorrelationOneByTwo(rotated, g, k, -1 + j);
    }
    Extensionality(res, expected);
  }

  /** The kernel [0.2, 0.7] paired with the single input slice [1, 2, 3]. */
  lemma ForwardProductRegression()
    ensures CartesianConvolve([ConvRegressionWeights], [ConvRegressionInput], [1, 1], [0, 0])
      == Success(Some(ConvRegressionOutput))
  {
    var w: Matrix := ConvRegressionWeights;
    var x: Matrix := ConvRegressionInput;
    ForwardConvolutionRegression();
    assert PairConvolution(w, [x], [1, 1], [0, 0], 0) == Convolution(w, x, 1, 1, 0, 0);
    CartesianConvolveOfOnePair(w, x, [1, 1], [0, 0]);
  }

  /** The layer of a 1 x 3 input, a 1 x 2 output, weight lengths [2, 1], unit strides and
    * zero paddings, with weights [0.2, 0.7], maps the input [1, 2, 3] to [1.6, 2.5]. */
  lemma ForwardRegression()
    ensures ConvolutionalForward(ConvRegressionWeights, NewSize([2, 1]), [1, 1], [0, 0], false,
                                 FromMatrix(ConvRegressionInput))
      == Success(FromMatrix(ConvRegressionOutput))
  {
    var w: Matrix := ConvRegressionWeights;
    var out: Matrix := ConvRegressionOutput;
    SplitByColumnOfOne(w);
    assert OrientedKernels(w, 1, false) == Success([w]);
    ToMatricesOfFromMatrix(ConvRegressionInput);
    ForwardProductRegression();
    assert Clone(NewSize([2, 1])) == NewSize([out.cols, out.rows]);
  }

  /** The state of the run before the backward pass of the hand-checked layer. */
  function RegressionRun(): RunView
  {
    RunView([Some(FromMatrix(ConvRegressionInput)), Some(FromMatrix(ConvRegressionOutput))],
            [None, Some(FromMatrix(ConvRegressionOutputError))], [None], 0, 0, 0.0)
  }

  /** The backward products assembled from their steps. */
  lemma BackwardProductsOf(weights: Matrix, inputSize: Size, outputSize: Size, strides: seq<int>, paddings: seq<int>,
                           v: RunView, outputError: Tensor, errors: seq<Matrix>, input: Tensor, inputSlices: seq<Matrix>,
                           delta: Option<Matrix>, kernels: seq<Matrix>, inputError: Matrix)
    requires OutputErrorOf(v) == Success(Some(outputError)) && ToMatrices(outputError) == Success(errors)
    requires InputOf(v) == Success(Some(input)) && ToMatrices(input) == Success(inputSlices)
    requires CartesianConvolve(errors, inputSlices, strides, paddings) == Success(delta)
    requires SplitByColumn(weights, outputSize.kernelCount) == Success(kernels)
    requires MatrixwiseConvolveTrans(kernels, errors, inputSize, outputSize, weights.rows, weights.cols) == Success(Some(inputError))
    ensures BackwardProducts(weights, inputSize, outputSize, strides, paddings, false, v) == Success((delta, inputError))
  {
  }

  /** The weights delta of the hand-checked layer, before it is stored. */
  lemma RegressionDelta()
    ensures CartesianConvolve([ConvRegressionOutputError], [ConvRegressionInput], [1, 1], [0, 0])
      == Success(Some(ConvRegressionDeltaMatrix))
  {
    var x: Matrix := ConvRegressionInput;
    var e: Matrix := ConvRegressionOutputError;
    DeltaConvolutionRegression();
    assert PairConvolution(e, [x], [1, 1], [0, 0], 0) == Convolution(e, x, 1, 1, 0, 0);
    CartesianConvolveOfOnePair(e, x, [1, 1], [0, 0]);
  }

  /** The paddings of the hand-checked layer's input error: half of 1 - 1 + 1 - 1 rows
    * and half of 3 - 2 + 2 - 1 columns. */
  lemma RegressionPaddings()
    ensures TransposeErrorPaddings(NewSize([3, 1]), NewSize([2, 1]), 1, 2) == Success((0, 1))
  {
    assert NewSize([3, 1]).dimensions == [3, 1] && NewSize([2, 1]).dimensions == [2, 1];
    CDivOfNonNegative(0, 2);
    CDivOfNonNegative(2, 2);
  }

  /** The input error of the hand-checked layer, before it is stored: row padding 0 and
    * column padding 1. */
  lemma RegressionInputError()
    ensures MatrixwiseConvolveTrans([ConvRegressionWeights], [ConvRegressionOutputError], NewSize([3, 1]), NewSize([2, 1]), 1, 2)
      == Success(Some(ConvRegressionInputErrorMatrix))
  {
    var w: Matrix := ConvRegressionWeights;
    var e: Matrix := ConvRegressionOutputError;
    var inputSize, outputSize := NewSize([3, 1]), NewSize([2, 1]);
    RegressionPaddings();
    InputErrorConvolutionRegression();
    MatrixwiseOfOnePair(w, e, inputSize, outputSize, 1, 2);
  }

  /** Before anything is stored, the same layer computes the weights delta [-0.8, -1.1]
    * and the input error [0.04, 0.04, -0.35] from the output error [0.2, -0.5]. */
  lemma BackwardProductsRegression()
    ensures BackwardProducts(ConvRegressionWeights, NewSize([3, 1]), NewSize([2, 1]), [1, 1], [0, 0], false, RegressionRun())
      == Success((Some(ConvRegressionDeltaMatrix), ConvRegressionInputErrorMatrix))
  {
    var w: Matrix := ConvRegressionWeights;
    var x: Matrix := ConvRegressionInput;
    var e: Matrix := ConvRegressionOutputError;
    var v := RegressionRun();
    ToMatricesOfFromMatrix(x);
    ToMatricesOfFromMatrix(e);
    RegressionDelta();
    SplitByColumnOfOne(w);
    RegressionInputError();
    BackwardProductsOf(w, NewSize([3, 1]), NewSize([2, 1]), [1, 1], [0, 0], v, FromMatrix(e), [e], FromMatrix(x), [x],
                       Some(ConvRegressionDeltaMatrix), [w], ConvRegressionInputErrorMatrix);
  }

  /** With the output error [0.2, -0.5], the same layer stores the weights delta
    * [-0.8, -1.1] and the input error [0.04, 0.04, -0.35]. */
  lemma BackwardRegression()
    ensures var r := ConvolutionalBackward(ConvRegressionWeights, NewSize([3, 1]), NewSize([2, 1]), [1, 1], [0, 0],
                                           false, RegressionRun());
      r.Success? &&
      r.value.deltas[0] == Some(ConvRegressionDeltaMatrix) &&
      r.value.errors[0] == Some(FromMatrix(ConvRegressionInputErrorMatrix))
  {
    var delta: Matrix := ConvRegressionDeltaMatrix;
    BackwardProductsRegression();
    TilingOfSameShape(delta);
  }
}
