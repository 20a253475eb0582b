/** The part of the dense single-precision matrix and vector library that the network
  * code relies on, over real numbers. Matrices are values; an operation the library
  * refuses (a negative size, a range outside the matrix, operands of different shapes)
  * returns a failure. Zero-sized matrices and empty ranges are allowed. */
module Matrices {
  import opened Wrappers

  type Vector = seq<real>

  /** A matrix of `rows` rows of `cols` values each, stored row by row. */
  datatype RawMatrix = RawMatrix(rows: nat, cols: nat, data: seq<seq<real>>)

  predicate Shaped(m: RawMatrix)
  {
    |m.data| == m.rows && forall i | 0 <= i < m.rows :: |m.data[i]| == m.cols
  }

  type Matrix = m: RawMatrix | Shaped(m) witness RawMatrix(0, 0, [])

  predicate SameShape(a: Matrix, b: Matrix)
  {
    a.rows == b.rows && a.cols == b.cols
  }

  // ---------------------------------------------------------------- arithmetic helpers

  lemma MulLe(a: int, b: int, c: int)
    requires 0 <= a <= b && 0 <= c
    ensures a * c <= b * c
  {
    assert b * c - a * c == (b - a) * c;
  }

  lemma MulStep(a: int, b: int)
    ensures (a + 1) * b == a * b + b
  {
  }

  /** The column-major position of cell (i, j) lies inside a `rows` by `cols` matrix. */
  lemma IndexBound(i: int, j: int, rows: int, cols: int)
    requires 0 <= i < rows && 0 <= j < cols
    ensures 0 <= j * rows && j * rows + i < rows * cols
  {
    MulLe(j, cols - 1, rows);
    MulLe(0, j, rows);
    assert (cols - 1) * rows == rows * cols - rows;
  }

  /** Dafny's division and remainder of an exact multiple plus a small remainder. */
  lemma DivModOfIndex(j: int, rows: int, i: int)
    requires rows > 0 && 0 <= i < rows
    ensures (j * rows + i) / rows == j && (j * rows + i) % rows == i
  {
    var k := j * rows + i;
    var q, s := k / rows, k % rows;
    assert k == q * rows + s;
    assert (q - j) * rows == i - s by {
      assert q * rows - j * rows == (q - j) * rows;
    }
    if q - j >= 1 {
      MulLe(1, q - j, rows);
    } else if q - j <= -1 {
      MulLe(1, j - q, rows);
    }
  }

  /** The `f`-th run of `n` consecutive values of `v`; empty when the run leaves `v`. */
  function Run(v: Vector, f: int, n: int): Vector
  {
    if 0 <= f && 0 <= n && f * n + n <= |v| then v[f * n..f * n + n] else []
  }

  /** Each of the first `count` runs of `n` values lies inside a vector of at least
    * `count * n` values. */
  lemma RunInRange(v: Vector, f: int, count: int, n: int)
    requires 0 <= f < count && 0 <= n && count * n <= |v|
    ensures 0 <= f * n && f * n + n <= |v| && Run(v, f, n) == v[f * n..f * n + n] && |Run(v, f, n)| == n
  {
    MulLe(f + 1, count, n);
    MulLe(0, f, n);
    assert (f + 1) * n == f * n + n;
  }

  // ---------------------------------------------------------------- construction

  /** `Matrix.Build.Dense(rows, cols)`: a zero matrix; a negative size is refused. */
  function Dense(rows: int, cols: int): (r: Result<Matrix>)
    ensures r.Success? <==> rows >= 0 && cols >= 0
    ensures r.Success? ==> r.value == Zeros(rows, cols)
  {
    if rows < 0 || cols < 0 then Failure(ArgumentOutOfRange) else Success(Zeros(rows, cols))
  }

  function Zeros(rows: nat, cols: nat): (z: Matrix)
    ensures z.rows == rows && z.cols == cols
    ensures forall i, j | 0 <= i < rows && 0 <= j < cols :: z.data[i][j] == 0.0
  {
    RawMatrix(rows, cols, seq(rows, _ => seq(cols, _ => 0.0)))
  }

  /** The value of cell (i, j) of a column-major vector. */
  function ColumnMajorAt(v: Vector, rows: nat, cols: nat, i: int, j: int): real
    requires |v| == rows * cols && 0 <= i < rows && 0 <= j < cols
  {
    IndexBound(i, j, rows, cols);
    v[j * rows + i]
  }

  /** `DenseOfColumnMajor(rows, cols, v)`: the matrix whose columns, top to bottom and
    * left to right, are the values of `v`. */
  function OfColumnMajor(rows: nat, cols: nat, v: Vector): (m: Matrix)
    requires |v| == rows * cols
    ensures m.rows == rows && m.cols == cols
    ensures forall i, j | 0 <= i < rows && 0 <= j < cols :: m.data[i][j] == ColumnMajorAt(v, rows, cols, i, j)
  {
    RawMatrix(rows, cols, seq(rows, i requires 0 <= i < rows =>
      seq(cols, j requires 0 <= j < cols => ColumnMajorAt(v, rows, cols, i, j))))
  }

  /** Column `j` of a matrix, top to bottom. */
  function Column(m: Matrix, j: int): (c: Vector)
    requires 0 <= j < m.cols
    ensures |c| == m.rows && forall i | 0 <= i < m.rows :: c[i] == m.data[i][j]
  {
    seq(m.rows, i requires 0 <= i < m.rows => m.data[i][j])
  }

  /** The first `n` columns laid end to end. */
  function Columns(m: Matrix, n: int): (v: Vector)
    requires 0 <= n <= m.cols
    ensures |v| == n * m.rows
  {
    if n == 0 then [] else Columns(m, n - 1) + Column(m, n - 1)
  }

  /** `ToColumnMajorArray`: the values column by column. */
  function ColumnMajor(m: Matrix): (v: Vector)
    ensures |v| == m.rows * m.cols
  {
    Columns(m, m.cols)
  }

  lemma {:induction false} ColumnsAt(m: Matrix, n: int, i: int, j: int)
    requires 0 <= n <= m.cols && 0 <= i < m.rows && 0 <= j < n
    ensures 0 <= j * m.rows + i < |Columns(m, n)| && Columns(m, n)[j * m.rows + i] == m.data[i][j]
  {
    IndexBound(i, j, m.rows, n);
    if j < n - 1 {
      ColumnsAt(m, n - 1, i, j);
    } else {
      assert |Columns(m, n - 1)| == j * m.rows;
    }
  }

  /** Cell (i, j) of a matrix sits at position j * rows + i of its column-major values. */
  lemma ColumnMajorCell(m: Matrix, i: int, j: int)
    requires 0 <= i < m.rows && 0 <= j < m.cols
    ensures ColumnMajorAt(ColumnMajor(m), m.rows, m.cols, i, j) == m.data[i][j]
  {
    ColumnsAt(m, m.cols, i, j);
  }

  /** Reading a matrix column by column and rebuilding it gives the same matrix. */
  lemma OfColumnMajorOfColumnMajor(m: Matrix)
    ensures OfColumnMajor(m.rows, m.cols, ColumnMajor(m)) == m
  {
    var r := OfColumnMajor(m.rows, m.cols, ColumnMajor(m));
    forall i | 0 <= i < m.rows ensures r.data[i] == m.data[i] {
      forall j | 0 <= j < m.cols ensures r.data[i][j] == m.data[i][j] { ColumnMajorCell(m, i, j); }
    }
  }

  lemma {:induction false} ColumnsOfOfColumnMajor(rows: nat, cols: nat, v: Vector, n: int)
    requires |v| == rows * cols && 0 <= n <= cols
    ensures n * rows <= |v| && Columns(OfColumnMajor(rows, cols, v), n) == v[..n * rows]
  {
    var m := OfColumnMajor(rows, cols, v);
    MulLe(n, cols, rows);
    if n > 0 {
      ColumnsOfOfColumnMajor(rows, cols, v, n - 1);
      var col := Column(m, n - 1);
      assert (n - 1) * rows + rows == n * rows;
      forall i | 0 <= i < rows ensures col[i] == v[(n - 1) * rows + i] {
        assert col[i] == ColumnMajorAt(v, rows, cols, i, n - 1);
      }
      assert v[..n * rows] == v[..(n - 1) * rows] + v[(n - 1) * rows..n * rows];
    }
  }

  /** Rebuilding a matrix from column-major values and reading it back gives the values. */
  lemma ColumnMajorOfOfColumnMajor(rows: nat, cols: nat, v: Vector)
    requires |v| == rows * cols
    ensures ColumnMajor(OfColumnMajor(rows, cols, v)) == v
  {
    ColumnsOfOfColumnMajor(rows, cols, v, cols);
    assert v[..cols * rows] == v;
  }

  /** The matrix held by a two-dimensional array. */
  function FromArray2(a: array2<real>): (m: Matrix)
    reads a
    ensures m.rows == a.Length0 && m.cols == a.Length1
    ensures forall i, j | 0 <= i < a.Length0 && 0 <= j < a.Length1 :: m.data[i][j] == a[i, j]
  {
    RawMatrix(a.Length0, a.Length1, seq(a.Length0, i requires 0 <= i < a.Length0 reads a =>
      seq(a.Length1, j requires 0 <= j < a.Length1 reads a => a[i, j])))
  }

  /** Cell (i, j), or 0 outside the matrix. */
  function At(m: Matrix, i: int, j: int): real
  {
    if 0 <= i < m.rows && 0 <= j < m.cols then m.data[i][j] else 0.0
  }

  /** Two matrices of one shape with the same cells are the same matrix. */
  lemma Extensionality(a: Matrix, b: Matrix)
    requires SameShape(a, b)
    requires forall i, j | 0 <= i < a.rows && 0 <= j < a.cols :: a.data[i][j] == b.data[i][j]
    ensures a == b
  {
    assert forall i | 0 <= i < a.rows :: a.data[i] == b.data[i];
  }

  // ---------------------------------------------------------------- sub-matrices

  /** A range of `count` items starting at `index` lies inside `size` items. */
  predicate InRange(index: int, count: int, size: int)
  {
    0 <= index && 0 <= count && index + count <= size
  }

  /** `SubMatrix(ri, rc, ci, cc)`. */
  function SubMatrix(m: Matrix, ri: int, rc: int, ci: int, cc: int): (s: Matrix)
    requires InRange(ri, rc, m.rows) && InRange(ci, cc, m.cols)
    ensures s.rows == rc && s.cols == cc
    ensures forall i, j | 0 <= i < rc && 0 <= j < cc :: s.data[i][j] == m.data[ri + i][ci + j]
  {
    RawMatrix(rc, cc, seq(rc, i requires 0 <= i < rc => seq(cc, j requires 0 <= j < cc => m.data[ri + i][ci + j])))
  }

  /** `SetSubMatrix(r, c, s)`: `s` copied over the block whose top-left corner is (r, c). */
  function SetSubMatrix(m: Matrix, r: int, c: int, s: Matrix): (n: Matrix)
    requires InRange(r, s.rows, m.rows) && InRange(c, s.cols, m.cols)
    ensures SameShape(n, m)
    ensures forall i, j | 0 <= i < m.rows && 0 <= j < m.cols ::
      n.data[i][j] == if r <= i < r + s.rows && c <= j < c + s.cols then s.data[i - r][j - c] else m.data[i][j]
  {
    RawMatrix(m.rows, m.cols, seq(m.rows, i requires 0 <= i < m.rows => seq(m.cols, j requires 0 <= j < m.cols =>
      if r <= i < r + s.rows && c <= j < c + s.cols then s.data[i - r][j - c] else m.data[i][j])))
  }

  // ---------------------------------------------------------------- cellwise arithmetic

  function PointwiseMultiply(a: Matrix, b: Matrix): (p: Matrix)
    requires SameShape(a, b)
    ensures SameShape(p, a)
    ensures forall i, j | 0 <= i < a.rows && 0 <= j < a.cols :: p.data[i][j] == a.data[i][j] * b.data[i][j]
  {
    RawMatrix(a.rows, a.cols, seq(a.rows, i requires 0 <= i < a.rows => seq(a.cols, j requires 0 <= j < a.cols => a.data[i][j] * b.data[i][j])))
  }

  function AddSame(a: Matrix, b: Matrix): (p: Matrix)
    requires SameShape(a, b)
    ensures SameShape(p, a)
    ensures forall i, j | 0 <= i < a.rows && 0 <= j < a.cols :: p.data[i][j] == a.data[i][j] + b.data[i][j]
  {
    RawMatrix(a.rows, a.cols, seq(a.rows, i requires 0 <= i < a.rows => seq(a.cols, j requires 0 <= j < a.cols => a.data[i][j] + b.data[i][j])))
  }

  /** Matrix `+`: operands of different shapes are refused. */
  function Add(a: Matrix, b: Matrix): (r: Result<Matrix>)
    ensures r.Success? <==> SameShape(a, b)
    ensures r.Success? ==> r.value == AddSame(a, b)
  {
    if SameShape(a, b) then Success(AddSame(a, b)) else Failure(DimensionMismatch)
  }

  /** Matrix `-`: operands of different shapes are refused. */
  function Subtract(a: Matrix, b: Matrix): (r: Result<Matrix>)
    ensures r.Success? <==> SameShape(a, b)
    ensures r.Success? ==>
      SameShape(r.value, a) &&
      forall i, j | 0 <= i < a.rows && 0 <= j < a.cols :: r.value.data[i][j] == a.data[i][j] - b.data[i][j]
  {
    if !SameShape(a, b) then Failure(DimensionMismatch)
    else Success(RawMatrix(a.rows, a.cols, seq(a.rows, i requires 0 <= i < a.rows =>
      seq(a.cols, j requires 0 <= j < a.cols => a.data[i][j] - b.data[i][j]))))
  }

  /** Matrix `* k` for a scalar `k`. */
  function Scale(m: Matrix, k: real): (p: Matrix)
    ensures SameShape(p, m)
    ensures forall i, j | 0 <= i < m.rows && 0 <= j < m.cols :: p.data[i][j] == m.data[i][j] * k
  {
    RawMatrix(m.rows, m.cols, seq(m.rows, i requires 0 <= i < m.rows => seq(m.cols, j requires 0 <= j < m.cols => m.data[i][j] * k)))
  }

  /** `Divide(k)` for a non-zero scalar `k`. */
  function DivideBy(m: Matrix, k: real): (p: Matrix)
    requires k != 0.0
    ensures SameShape(p, m)
    ensures forall i, j | 0 <= i < m.rows && 0 <= j < m.cols :: p.data[i][j] == m.data[i][j] / k
  {
    RawMatrix(m.rows, m.cols, seq(m.rows, i requires 0 <= i < m.rows => seq(m.cols, j requires 0 <= j < m.cols => m.data[i][j] / k)))
  }

  function Transpose(m: Matrix): (t: Matrix)
    ensures t.rows == m.cols && t.cols == m.rows
    ensures forall i, j | 0 <= i < m.cols && 0 <= j < m.rows :: t.data[i][j] == m.data[j][i]
  {
    RawMatrix(m.cols, m.rows, seq(m.cols, i requires 0 <= i < m.cols => seq(m.rows, j requires 0 <= j < m.rows => m.data[j][i])))
  }

  /** `Append`: the columns of `b` placed to the right of those of `a`. */
  function Append(a: Matrix, b: Matrix): (r: Result<Matrix>)
    ensures r.Success? <==> a.rows == b.rows
    ensures r.Success? ==>
      r.value.rows == a.rows && r.value.cols == a.cols + b.cols &&
      (forall i, j | 0 <= i < a.rows && 0 <= j < a.cols :: r.value.data[i][j] == a.data[i][j]) &&
      (forall i, j | 0 <= i < a.rows && 0 <= j < b.cols :: r.value.data[i][a.cols + j] == b.data[i][j])
  {
    if a.rows != b.rows then Failure(DimensionMismatch)
    else
      var data := seq(a.rows, i requires 0 <= i < a.rows => a.data[i] + b.data[i]);
      assert forall i, j | 0 <= i < a.rows && 0 <= j < b.cols :: data[i][a.cols + j] == b.data[i][j];
      Success(RawMatrix(a.rows, a.cols + b.cols, data))
  }

  // ---------------------------------------------------------------- sums

  /** The sum of a vector, first value first. */
  function Sum(v: Vector): real
  {
    if v == [] then 0.0 else Sum(v[..|v| - 1]) + v[|v| - 1]
  }

  /** The sum of column `j` over its first `n` rows. */
  function ColumnSum(m: Matrix, j: int, n: int): real
    requires 0 <= j < m.cols && 0 <= n <= m.rows
  {
    if n == 0 then 0.0 else ColumnSum(m, j, n - 1) + m.data[n - 1][j]
  }

  /** `ColumnSums`. */
  function ColumnSums(m: Matrix): (v: Vector)
    ensures |v| == m.cols && forall j | 0 <= j < m.cols :: v[j] == ColumnSum(m, j, m.rows)
  {
    seq(m.cols, j requires 0 <= j < m.cols => ColumnSum(m, j, m.rows))
  }

  // ---------------------------------------------------------------- vectors

  /** The dot product of two vectors of one length. */
  function Dot(u: Vector, v: Vector): real
    requires |u| == |v|
  {
    if u == [] then 0.0 else Dot(u[..|u| - 1], v[..|v| - 1]) + u[|u| - 1] * v[|v| - 1]
  }

  /** Matrix times vector: operands whose inner sizes differ are refused. */
  function MulVec(m: Matrix, v: Vector): (r: Result<Vector>)
    ensures r.Success? <==> m.cols == |v|
    ensures r.Success? ==> |r.value| == m.rows && forall i | 0 <= i < m.rows :: r.value[i] == Dot(m.data[i], v)
  {
    if m.cols != |v| then Failure(DimensionMismatch)
    else Success(seq(m.rows, i requires 0 <= i < m.rows => Dot(m.data[i], v)))
  }

  /** `OuterProduct(u, v)`: the |u| by |v| matrix of products. */
  function OuterProduct(u: Vector, v: Vector): (m: Matrix)
    ensures m.rows == |u| && m.cols == |v|
    ensures forall i, j | 0 <= i < |u| && 0 <= j < |v| :: m.data[i][j] == u[i] * v[j]
  {
    RawMatrix(|u|, |v|, seq(|u|, i requires 0 <= i < |u| => seq(|v|, j requires 0 <= j < |v| => u[i] * v[j])))
  }

  /** `SubVector(index, count)`: refused when the range leaves the vector. */
  function SubVector(v: Vector, index: int, count: int): (r: Result<Vector>)
    ensures r.Success? <==> InRange(index, count, |v|)
    ensures r.Success? ==> r.value == v[index..index + count]
  {
    if InRange(index, count, |v|) then Success(v[index..index + count]) else Failure(ArgumentOutOfRange)
  }

  /** Vector `-`. */
  function VSubtract(a: Vector, b: Vector): (r: Result<Vector>)
    ensures r.Success? <==> |a| == |b|
    ensures r.Success? ==> |r.value| == |a| && forall i | 0 <= i < |a| :: r.value[i] == a[i] - b[i]
  {
    if |a| != |b| then Failure(DimensionMismatch) else Success(seq(|a|, i requires 0 <= i < |a| => a[i] - b[i]))
  }

  /** `PointwiseMultiply` on vectors. */
  function VPointwiseMultiply(a: Vector, b: Vector): (r: Result<Vector>)
    ensures r.Success? <==> |a| == |b|
    ensures r.Success? ==> |r.value| == |a| && forall i | 0 <= i < |a| :: r.value[i] == a[i] * b[i]
  {
    if |a| != |b| then Failure(DimensionMismatch) else Success(seq(|a|, i requires 0 <= i < |a| => a[i] * b[i]))
  }

  /** `Map(f)` on vectors. */
  function VMap(v: Vector, f: real -> real): (r: Vector)
    ensures |r| == |v| && forall i | 0 <= i < |v| :: r[i] == f(v[i])
  {
    seq(|v|, i requires 0 <= i < |v| => f(v[i]))
  }
}
