/** A tensor: a size and the values it spans, laid out column-major kernel after kernel.
  * Construction refuses a value count that differs from the size's length. */
module Tensors {
  import opened Wrappers
  import opened Sizes
  import opened Matrices

  datatype RawTensor = RawTensor(size: Size, value: Vector)

  /** Every tensor satisfies the guard of its constructor. */
  type Tensor = t: RawTensor | t.size.length == |t.value| witness RawTensor(Size([0], 0, 1), [])

  /** `new Tensor(size, value)`. */
  function NewTensor(size: Size, value: Vector): (r: Result<Tensor>)
    ensures r.Success? <==> size.length == |value|
    ensures r.Success? ==> r.value.size == size && r.value.value == value
    ensures r.Failure? ==> r.error == ArgumentOutOfRange
  {
    if size.length != |value| then Failure(ArgumentOutOfRange) else Success(RawTensor(size, value))
  }

  /** `new Tensor(vector)`, also the conversion from a vector, an array or a single value:
    * a one-dimensional size as long as the vector. */
  function FromVector(v: Vector): (t: Tensor)
    ensures t.size == NewSize([|v|]) && t.value == v
  {
    ProductOfOne(|v|);
    RawTensor(NewSize([|v|]), v)
  }

  /** `new Tensor(matrix)`, also the conversion from a matrix: the size lists the column
    * count first and the row count second, and the values are read column by column. */
  function FromMatrix(m: Matrix): (t: Tensor)
    ensures t.size == NewSize([m.cols, m.rows]) && t.value == ColumnMajor(m)
  {
    ProductOfTwo(m.cols, m.rows);
    RawTensor(NewSize([m.cols, m.rows]), ColumnMajor(m))
  }

  /** The conversion to a single value: the first value; an empty tensor has none. */
  function ToScalar(t: Tensor): (r: Result<real>)
    ensures r.Success? <==> |t.value| > 0
    ensures r.Success? ==> r.value == t.value[0]
  {
    if |t.value| == 0 then Failure(ArgumentOutOfRange) else Success(t.value[0])
  }

  /** `Tensor.Map` as written: a new tensor of the cloned size holding the mapped values. */
  function MapAsWritten(t: Tensor, f: real -> real): Result<Tensor>
  {
    NewTensor(CloneAsWritten(t.size), VMap(t.value, f))
  }

  /** `Tensor.Map` with the corrected clone: every value mapped, the size kept. */
  function Map(t: Tensor, f: real -> real): (r: Tensor)
    ensures r.size == t.size && |r.value| == |t.value|
    ensures forall i | 0 <= i < |t.value| :: r.value[i] == f(t.value[i])
  {
    NewTensor(Clone(t.size), VMap(t.value, f)).value
  }

  /** Mapping as written fails on a tensor whose size was built from no dimensions: such
    * a size spans one value, its clone spans none. */
  lemma MapAsWrittenOfEmptySize(x: real, f: real -> real)
    ensures MapAsWritten(RawTensor(NewSize([]), [x]), f) == Failure(ArgumentOutOfRange)
  {
    assert Product([0]) == 0;
  }

  /** For a size built from some dimensions, mapping as written agrees with `Map`. */
  lemma MapAsWrittenOfNonEmptySize(t: Tensor, dims: seq<int>, k: int, f: real -> real)
    requires dims != [] && t.size == NewKernelSize(dims, k)
    ensures MapAsWritten(t, f) == Success(Map(t, f).(size := NewSize(dims)))
  {
  }

  /** Mapping twice is mapping once by the composition. */
  lemma MapMap(t: Tensor, f: real -> real, g: real -> real)
    ensures Map(Map(t, f), g) == Map(t, x => g(f(x)))
  {
    assert Map(Map(t, f), g).value == Map(t, x => g(f(x))).value;
  }

  /** `Tensor.Equals`: false for null, otherwise equal sizes and equal values. */
  function TensorEquals(t: Tensor, other: Option<Tensor>): bool
  {
    other.Some? && SizeEquals(t.size, Some(other.value.size)) && t.value == other.value.value
  }

  /** `Equals` is an equivalence on tensors, false for null, and equal tensors agree on
    * every value. */
  lemma TensorEqualsIsEquivalence(a: Tensor, b: Tensor, c: Tensor)
    ensures TensorEquals(a, Some(a)) && !TensorEquals(a, None)
    ensures TensorEquals(a, Some(b)) <==> TensorEquals(b, Some(a))
    ensures TensorEquals(a, Some(b)) && TensorEquals(b, Some(c)) ==> TensorEquals(a, Some(c))
    ensures TensorEquals(a, Some(b)) ==> forall i | 0 <= i < |a.value| :: a.value[i] == b.value[i]
  {
    EqualsIsEquivalence(a.size, b.size, c.size);
  }

  // ---------------------------------------------------------------- matrix views

  /** The shape `ToMatrix` reads from a size, or the failure it raises for one: at least
    * one dimension, and at most two unless the third is 1; columns come first, and
    * the row count is 1 for a one-dimensional size. */
  function MatrixShape(s: Size): (r: Result<(int, int)>)
    ensures r.Success? <==>
      1 <= |s.dimensions| && (|s.dimensions| <= 2 || (|s.dimensions| == 3 && s.dimensions[2] == 1))
    ensures r.Success? ==> r.value == (if |s.dimensions| > 1 then s.dimensions[1] else 1, s.dimensions[0])
  {
    var dims := s.dimensions;
    if |dims| < 1 then Failure(InvalidCast)
    else if |dims| > 2 && !(|dims| == 3 && dims[2] == 1) then Failure(InvalidCast)
    else Success((if |dims| > 1 then dims[1] else 1, dims[0]))
  }

  /** What `ToMatrix` computes: a `rows` by `columns` matrix whose column `c` is the
    * `c`-th run of `rows` values. The matrix library refuses negative sizes and a run
    * that leaves the values. */
  function ToMatrixSpec(t: Tensor): (r: Result<Matrix>)
    ensures r.Success? ==> MatrixShape(t.size) == Success((r.value.rows, r.value.cols))
    ensures r.Success? ==>
      r.value.rows * r.value.cols <= |t.value| &&
      r.value == OfColumnMajor(r.value.rows, r.value.cols, t.value[..r.value.rows * r.value.cols])
  {
    var shape :- MatrixShape(t.size);
    var (rows, columns) := shape;
    if rows < 0 || columns < 0 then Failure(ArgumentOutOfRange)
    else if columns * rows > |t.value| then Failure(ArgumentOutOfRange)
    else Success(OfColumnMajor(rows, columns, t.value[..rows * columns]))
  }

  /** Value `i` of the `j`-th run of `rows` values: the cell (i, j) of the column-major
    * reading of `v` (0 outside it). */
  function Cell(v: Vector, rows: int, i: int, j: int): real
  {
    var column := Run(v, j, rows);
    if 0 <= i < |column| then column[i] else 0.0
  }

  /** The first `c` columns of `a` hold the first `c` runs of `rows` values of `v`. */
  ghost predicate ColumnsFilled(a: array2<real>, v: Vector, rows: int, c: int)
    reads a
  {
    forall i, j | 0 <= i < rows && 0 <= j < c && i < a.Length0 && j < a.Length1 :: a[i, j] == Cell(v, rows, i, j)
  }

  lemma FilledColumns(a: array2<real>, v: Vector, rows: int, columns: int)
    requires a.Length0 == rows && a.Length1 == columns && columns * rows <= |v|
    requires ColumnsFilled(a, v, rows, columns)
    ensures rows * columns <= |v| && FromArray2(a) == OfColumnMajor(rows, columns, v[..rows * columns])
  {
    assert rows * columns == columns * rows;
    var m := FromArray2(a);
    var w := v[..rows * columns];
    var spec := OfColumnMajor(rows, columns, w);
    forall i, j | 0 <= i < rows && 0 <= j < columns ensures m.data[i][j] == spec.data[i][j] {
      IndexBound(i, j, rows, columns);
      RunInRange(v, j, columns, rows);
      assert Cell(v, rows, i, j) == v[j * rows + i];
    }
    Extensionality(m, spec);
  }

  lemma ToMatrixSpecShort(t: Tensor, rows: int, columns: int)
    requires rows >= 0 && columns >= 0 && MatrixShape(t.size) == Success((rows, columns)) && columns * rows > |t.value|
    ensures ToMatrixSpec(t) == Failure(ArgumentOutOfRange)
  {
  }
  lemma ToMatrixSpecValue(t: Tensor, rows: int, columns: int)
    requires rows >= 0 && columns >= 0 && MatrixShape(t.size) == Success((rows, columns)) && columns * rows <= |t.value|
    ensures rows * columns <= |t.value| && ToMatrixSpec(t) == Success(OfColumnMajor(rows, columns, t.value[..rows * columns]))
  {
  }

  /** `Tensor.ToMatrix`: checks the dimensions, then fills a new matrix. */
  method ToMatrix(t: Tensor) returns (r: Result<Matrix>)
    ensures r == ToMatrixSpec(t)
  {
    var dims := t.size.dimensions;
    if |dims| < 1 {
      return Failure(InvalidCast);
    }
    var singleLayer3D := |dims| == 3 && dims[2] == 1;
    if |dims| > 2 && !singleLayer3D {
      return Failure(InvalidCast);
    }
    var columns := dims[0];
    var rows := if |dims| > 1 then dims[1] else 1;
    if rows < 0 || columns < 0 {
      return Failure(ArgumentOutOfRange);
    }
    r := FillColumns(t, rows, columns);
  }

  /** `matrix.SetColumn(c, column)`: column `c` of the matrix becomes `column`; every
    * other cell keeps its value. */
  method SetColumn(matrix: array2<real>, c: int, column: Vector)
    requires 0 <= c < matrix.Length1 && |column| == matrix.Length0
    modifies matrix
    ensures forall i, j | 0 <= i < matrix.Length0 && 0 <= j < matrix.Length1 ::
      matrix[i, j] == if j == c then column[i] else old(matrix[i, j])
  {
    forall i | 0 <= i < matrix.Length0 {
      matrix[i, c] := column[i];
    }
  }

  /** The body of `ToMatrix` after its checks: allocates the matrix and sets one column
    * at a time from the next run of `rows` values. */
  method FillColumns(t: Tensor, rows: int, columns: int) returns (r: Result<Matrix>)
    requires rows >= 0 && columns >= 0 && MatrixShape(t.size) == Success((rows, columns))
    ensures r == ToMatrixSpec(t)
  {
    var matrix := new real[rows, columns]((i, j) => 0.0);
    var c := 0;
    while c < columns
      invariant 0 <= c <= columns
      invariant c * rows <= |t.value|
      invariant ColumnsFilled(matrix, t.value, rows, c)
    {
      MulLe(0, c, rows);
      var column := SubVector(t.value, c * rows, rows);
      assert (c + 1) * rows == c * rows + rows;
      if column.Failure? {
        MulLe(c + 1, columns, rows);
        ToMatrixSpecShort(t, rows, columns);
        return Failure(ArgumentOutOfRange);
      }
      assert column.value == Run(t.value, c, rows);
      SetColumn(matrix, c, column.value);
      assert ColumnsFilled(matrix, t.value, rows, c + 1);
      c := c + 1;
    }
    FilledColumns(matrix, t.value, rows, columns);
    ToMatrixSpecValue(t, rows, columns);
    return Success(FromArray2(matrix));
  }

  /** A matrix seen as a tensor and back is the same matrix. */
  lemma ToMatrixOfFromMatrix(m: Matrix)
    ensures ToMatrixSpec(FromMatrix(m)) == Success(m)
  {
    var t := FromMatrix(m);
    var r := ToMatrixSpec(t);
    assert t.value[..m.rows * m.cols] == ColumnMajor(m);
    OfColumnMajorOfColumnMajor(m);
  }

  /** A two-dimensional tensor seen as a matrix and back is the same tensor. */
  lemma FromMatrixOfToMatrix(t: Tensor, columns: nat, rows: nat)
    requires t.size == NewSize([columns, rows])
    ensures ToMatrixSpec(t).Success? && FromMatrix(ToMatrixSpec(t).value) == t
  {
    ProductOfTwo(columns, rows);
    assert |t.value| == rows * columns;
    assert MatrixShape(t.size) == Success((rows, columns));
    ToMatrixSpecValue(t, rows, columns);
    assert t.value[..rows * columns] == t.value;
    ColumnMajorOfOfColumnMajor(rows, columns, t.value);
  }

  /** Regression: a 3 by 4 matrix becomes a tensor of size (4, 3), and converting it back
    * reproduces the matrix. */
  lemma FromMatrixRegression()
    ensures var m := RawMatrix(3, 4, [[1.0, 2.0, 3.0, 4.0], [5.0, 6.0, 7.0, 8.0], [9.0, 10.0, 11.0, 12.0]]);
      FromMatrix(m).size.dimensions == [4, 3] && ToMatrixSpec(FromMatrix(m)) == Success(m)
  {
    var m := RawMatrix(3, 4, [[1.0, 2.0, 3.0, 4.0], [5.0, 6.0, 7.0, 8.0], [9.0, 10.0, 11.0, 12.0]]);
    ToMatrixOfFromMatrix(m);
  }

  /** Regression: tensors built from the same values are equal, and a tensor differing in
    * one value is not. */
  lemma EqualsRegression()
    ensures TensorEquals(FromVector([0.0, 1.0]), Some(FromVector([0.0, 1.0])))
    ensures !TensorEquals(FromVector([0.0, 1.0]), Some(FromVector([0.00001, 1.0])))
  {
    assert FromVector([0.0, 1.0]).value[0] != FromVector([0.00001, 1.0]).value[0];
  }

  /** The row count `ToMatrices` reads from a size: the second dimension, or 1. */
  function KernelRows(s: Size): int
  {
    if |s.dimensions| > 1 then s.dimensions[1] else 1
  }

  /** `Tensor.ToMatrices`: one matrix per kernel. A size must have one, two or three
    * dimensions; the kernel count is the third (1 without one); each kernel spans
    * columns times rows values, a count that must divide the value count (a zero count
    * is a division by zero). */
  function ToMatrices(t: Tensor): (r: Result<seq<Matrix>>)
    ensures r.Success? ==> 1 <= |t.size.dimensions| <= 3 && |r.value| == (if |t.size.dimensions| == 3 then t.size.dimensions[2] else 1)
    ensures r.Success? ==> forall f | 0 <= f < |r.value| ::
      r.value[f].rows == KernelRows(t.size) && r.value[f].cols == t.size.dimensions[0] &&
      ColumnMajor(r.value[f]) == Run(t.value, f, KernelRows(t.size) * t.size.dimensions[0])
  {
    var dims := t.size.dimensions;
    var kernelCount := if |dims| == 3 then dims[2] else 1;
    if !(1 <= |dims| <= 3) then Failure(Argument)
    else
      var cols := dims[0];
      var rows := KernelRows(t.size);
      var sub := cols * rows;
      if sub == 0 then Failure(DivideByZero)
      else if |t.value| % sub != 0 then Failure(Argument)
      else if kernelCount < 0 then Failure(ArgumentOutOfRange)
      else if kernelCount > 0 && (rows < 0 || cols < 0 || kernelCount * sub > |t.value|) then Failure(ArgumentOutOfRange)
      else
        assert rows * cols == sub;
        var ms := seq(kernelCount, f requires 0 <= f < kernelCount =>
          (RunInRange(t.value, f, kernelCount, sub); OfColumnMajor(rows, cols, Run(t.value, f, sub))));
        assert forall f | 0 <= f < kernelCount :: ColumnMajor(ms[f]) == Run(t.value, f, rows * cols) by {
          forall f | 0 <= f < kernelCount ensures ColumnMajor(ms[f]) == Run(t.value, f, rows * cols) {
            RunInRange(t.value, f, kernelCount, sub);
            ColumnMajorOfOfColumnMajor(rows, cols, Run(t.value, f, sub));
          }
        }
        Success(ms)
  }

  /** A non-empty matrix seen as a tensor splits back into that one matrix. */
  lemma ToMatricesOfFromMatrix(m: Matrix)
    requires m.rows > 0 && m.cols > 0
    ensures ToMatrices(FromMatrix(m)) == Success([m])
  {
    var t := FromMatrix(m);
    var sub := m.cols * m.rows;
    MulLe(1, m.cols, m.rows);
    assert |t.value| == 1 * sub + 0;
    DivModOfIndex(1, sub, 0);
    var r := ToMatrices(t);
    assert r.Success?;
    RunInRange(t.value, 0, 1, m.rows * m.cols);
    assert Run(t.value, 0, m.rows * m.cols) == ColumnMajor(m);
    ColumnMajorOfOfColumnMajor(m.rows, m.cols, ColumnMajor(m));
    OfColumnMajorOfColumnMajor(m);
    Extensionality(r.value[0], m) by {
      assert ColumnMajor(r.value[0]) == ColumnMajor(m);
      OfColumnMajorOfColumnMajor(r.value[0]);
    }
    assert r.value == [m];
  }

  /** For a tensor of `kernels` kernels of `columns` by `rows` values built by the size
    * constructor, the divisibility check passes and kernel `f` holds the `f`-th run of
    * values. */
  lemma ToMatricesOfKernels(t: Tensor, columns: int, rows: int, kernels: int, k: int)
    requires columns >= 1 && rows >= 1 && kernels >= 0
    requires t.size == NewKernelSize([columns, rows, kernels], k)
    ensures ToMatrices(t).Success? && |ToMatrices(t).value| == kernels
    ensures forall f | 0 <= f < kernels :: ColumnMajor(ToMatrices(t).value[f]) == Run(t.value, f, rows * columns)
  {
    var sub := columns * rows;
    ProductOfThree(columns, rows, kernels);
    assert |t.value| == kernels * sub by {
      assert columns * (rows * kernels) == kernels * (columns * rows);
    }
    MulLe(1, columns, rows);
    DivModOfIndex(kernels, sub, 0);
    assert rows * columns == sub;
  }

  // ---------------------------------------------------------------- splitting

  /** `SplitTensorsByLastDimension`: the tensor peeled into its last dimension's count of
    * tensors over the remaining dimensions, each holding the next run of values. */
  function SplitTensorsByLastDimension(t: Tensor): (r: Result<seq<Tensor>>)
    ensures r.Success? ==> |t.size.dimensions| >= 2 && |r.value| == t.size.dimensions[|t.size.dimensions| - 1]
    ensures r.Success? ==>
      var newSize := NewSize(t.size.dimensions[..|t.size.dimensions| - 1]);
      forall i | 0 <= i < |r.value| :: r.value[i].size == newSize && r.value[i].value == Run(t.value, i, newSize.length)
  {
    var dims := t.size.dimensions;
    if |dims| == 1 then Failure(InvalidOperation)
    else if |dims| == 0 then Failure(InvalidOperation)
    else
      var newSize := NewSize(dims[..|dims| - 1]);
      var last := dims[|dims| - 1];
      var n := newSize.length;
      if last < 0 then Failure(ArgumentOutOfRange)
      else if last == 0 then Success([])
      else if n < 0 || last * n > |t.value| then Failure(ArgumentOutOfRange)
      else
        Success(Runs(t.value, last, newSize))
  }

  /** `count` tensors of the given size over consecutive runs of `v`. */
  function Runs(v: Vector, count: int, size: Size): (ts: seq<Tensor>)
    requires 0 <= count && 0 <= size.length && count * size.length <= |v|
    ensures |ts| == count
    ensures forall i | 0 <= i < count :: ts[i].size == size && ts[i].value == Run(v, i, size.length)
  {
    seq(count, i requires 0 <= i < count => RunTensor(v, i, count, size))
  }

  /** The tensor of the given size over the `i`-th of `count` runs of `v`. */
  function RunTensor(v: Vector, i: int, count: int, size: Size): (t: Tensor)
    requires 0 <= i < count && 0 <= size.length && count * size.length <= |v|
    ensures t.size == size && t.value == Run(v, i, size.length)
  {
    RunInRange(v, i, count, size.length);
    RawTensor(size, Run(v, i, size.length))
  }

  /** The values of a list of tensors laid end to end. */
  function Concat(ts: seq<Tensor>): Vector
  {
    if ts == [] then [] else Concat(ts[..|ts| - 1]) + ts[|ts| - 1].value
  }

  lemma {:induction false} ConcatOfRuns(ts: seq<Tensor>, v: Vector, n: nat, k: nat)
    requires k <= |ts| && |ts| * n <= |v|
    requires forall i | 0 <= i < |ts| :: ts[i].value == Run(v, i, n)
    ensures k * n <= |v| && Concat(ts[..k]) == v[..k * n]
  {
    MulLe(k, |ts|, n);
    if k > 0 {
      ConcatOfRuns(ts, v, n, k - 1);
      assert ts[..k][..k - 1] == ts[..k - 1];
      RunInRange(v, k - 1, |ts|, n);
      assert (k - 1) * n + n == k * n;
      assert v[..k * n] == v[..(k - 1) * n] + v[(k - 1) * n..k * n];
    }
  }

  /** For a size built from at least two non-negative dimensions, splitting by the last
    * dimension succeeds, and the pieces laid end to end are the original values. */
  lemma SplitThenConcat(t: Tensor, dims: seq<int>, k: int)
    requires |dims| >= 2 && (forall i | 0 <= i < |dims| :: dims[i] >= 0)
    requires t.size == NewKernelSize(dims, k)
    ensures SplitTensorsByLastDimension(t).Success?
    ensures Concat(SplitTensorsByLastDimension(t).value) == t.value
  {
    var init, last := dims[..|dims| - 1], dims[|dims| - 1];
    assert dims == init + [last];
    ProductSnoc(init, last);
    ProductNonNegative(init);
    var n := Product(init);
    assert |t.value| == n * last;
    var ts := SplitTensorsByLastDimension(t).value;
    assert |ts| == last;
    assert |ts| * n == |t.value|;
    ConcatOfRuns(ts, t.value, n, |ts|);
    assert ts[..|ts|] == ts;
    assert t.value[..|t.value|] == t.value;
  }

  lemma {:induction false} ProductNonNegative(ds: seq<int>)
    requires forall i | 0 <= i < |ds| :: ds[i] >= 0
    ensures Product(ds) >= 0
  {
    if ds != [] {
      ProductNonNegative(ds[1..]);
      MulLe(0, ds[0], Product(ds[1..]));
    }
  }

  /** The matrices of a list of tensors, failing at the first that has none. */
  function ToMatrixEach(ts: seq<Tensor>): (r: Result<seq<Matrix>>)
    ensures r.Success? <==> forall i | 0 <= i < |ts| :: ToMatrixSpec(ts[i]).Success?
    ensures r.Success? ==> |r.value| == |ts| && forall i | 0 <= i < |ts| :: r.value[i] == ToMatrixSpec(ts[i]).value
  {
    if ts == [] then Success([])
    else
      var m :- ToMatrixSpec(ts[0]);
      var rest :- ToMatrixEach(ts[1..]);
      assert forall i | 1 <= i < |ts| :: ts[i] == ts[1..][i - 1];
      Success([m] + rest)
  }

  /** `SplitIntoMatricesByLastDimension`: the pieces of the split, each as a matrix. */
  function SplitIntoMatricesByLastDimension(t: Tensor): (r: Result<seq<Matrix>>)
    ensures r.Success? ==>
      SplitTensorsByLastDimension(t).Success? &&
      |r.value| == |SplitTensorsByLastDimension(t).value| &&
      forall i | 0 <= i < |r.value| :: Success(r.value[i]) == ToMatrixSpec(SplitTensorsByLastDimension(t).value[i])
  {
    var ts :- SplitTensorsByLastDimension(t);
    ToMatrixEach(ts)
  }
}
