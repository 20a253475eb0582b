/** The matrix operations the convolutional layers are built on: splitting a matrix into
  * column blocks, rotating it by 180 degrees, and the zero-padded, strided
  * cross-correlation `Convolve` with its transposed form. */
module Convolutions {
  import opened Wrappers
  import opened Ints
  import opened Matrices

  function Max(a: int, b: int): int { if a < b then b else a }
  function Min(a: int, b: int): int { if a < b then a else b }

  // ---------------------------------------------------------------- finite sums

  /** `h(0) + ... + h(n - 1)`. */
  function SumOver(n: int, h: int -> real): real
    decreases n
  {
    if n <= 0 then 0.0 else SumOver(n - 1, h) + h(n - 1)
  }

  lemma {:induction false} SumOverCongruence(n: int, a: int -> real, b: int -> real)
    requires forall i | 0 <= i < n :: a(i) == b(i)
    ensures SumOver(n, a) == SumOver(n, b)
    decreases n
  {
    if n > 0 {
      SumOverCongruence(n - 1, a, b);
    }
  }

  lemma {:induction false} SumOverZero(n: int, h: int -> real)
    requires forall i | 0 <= i < n :: h(i) == 0.0
    ensures SumOver(n, h) == 0.0
    decreases n
  {
    if n > 0 {
      SumOverZero(n - 1, h);
    }
  }

  /** A sum over `0..n` whose terms vanish outside the window `lo..lo + len` is the sum over
    * the window. */
  lemma SumOverWindow(n: int, lo: int, len: int, h: int -> real, w: int -> real)
    requires 0 <= lo && 0 <= len && lo + len <= n
    requires forall i | 0 <= i < n :: w(i) == if lo <= i < lo + len then h(i - lo) else 0.0
    ensures SumOver(n, w) == SumOver(len, h)
  {
    SumOverWindowPrefix(n, lo, len, h, w, n);
  }

  lemma {:induction false} SumOverWindowPrefix(n: int, lo: int, len: int, h: int -> real, w: int -> real, k: int)
    requires 0 <= lo && 0 <= len && lo + len <= n && 0 <= k <= n
    requires forall i | 0 <= i < n :: w(i) == if lo <= i < lo + len then h(i - lo) else 0.0
    ensures SumOver(k, w) == SumOver(if k < lo then 0 else if k < lo + len then k - lo else len, h)
    decreases k
  {
    if k > 0 {
      SumOverWindowPrefix(n, lo, len, h, w, k - 1);
    }
  }

  /** `Matrices.Sum` is the sum over the indices of the vector. */
  lemma {:induction false} SumIsSumOver(v: Vector, h: int -> real)
    requires forall i | 0 <= i < |v| :: h(i) == v[i]
    ensures Sum(v) == SumOver(|v|, h)
    decreases |v|
  {
    if v != [] {
      var init := v[..|v| - 1];
      assert forall i | 0 <= i < |init| :: h(i) == init[i];
      SumIsSumOver(init, h);
    }
  }

  /** `Matrices.ColumnSum` is the sum over the rows of the column. */
  lemma {:induction false} ColumnSumIsSumOver(m: Matrix, j: int, n: int, h: int -> real)
    requires 0 <= j < m.cols && 0 <= n <= m.rows
    requires forall i | 0 <= i < n :: h(i) == m.data[i][j]
    ensures ColumnSum(m, j, n) == SumOver(n, h)
    decreases n
  {
    if n > 0 {
      ColumnSumIsSumOver(m, j, n - 1, h);
    }
  }

  // ---------------------------------------------------------------- cross-correlation

  /** The product of kernel cell (i, j) with the cell of `g` it covers when the kernel sits
    * at offset (r, c); 0 where the kernel hangs over the edge of `g` (zero padding). */
  function Term(f: Matrix, g: Matrix, r: int, c: int, i: int, j: int): real
  {
    if 0 <= i < f.rows && 0 <= j < f.cols && 0 <= i + r < g.rows && 0 <= j + c < g.cols
    then f.data[i][j] * g.data[i + r][j + c]
    else 0.0
  }

  /** The terms of kernel column `j`, by row. */
  function ColumnTerms(f: Matrix, g: Matrix, r: int, c: int, j: int): int -> real
  {
    i => Term(f, g, r, c, i, j)
  }

  /** The sums of the kernel columns, by column. */
  function ColumnTotals(f: Matrix, g: Matrix, r: int, c: int): int -> real
  {
    j => SumOver(f.rows, ColumnTerms(f, g, r, c, j))
  }

  /** The cross-correlation of the kernel `f` with `g` at offset (r, c), with no kernel flip:
    * the sum over the kernel's columns of the sums down each column of
    * `f[i][j] * g[i + r][j + c]`, over the cells that fall inside `g`. */
  function Correlation(f: Matrix, g: Matrix, r: int, c: int): real
  {
    SumOver(f.cols, ColumnTotals(f, g, r, c))
  }

  /** The start of the overlap, and its length, of the kernel's rows `0..fLen` shifted by
    * `r` with the rows `0..gLen`, as `Convolve` works them out for one axis. */
  function OverlapStartInKernel(r: int): int { Max(0, -r) }
  function OverlapStartInInput(r: int): int { Max(0, r) }
  function OverlapLength(fLen: int, gLen: int, r: int): int
  {
    Min(fLen + Min(0, r), gLen + Min(0, -r))
  }

  /** The kernel at offset (r, c) overlaps the input or touches its edge. */
  predicate Overlaps(f: Matrix, g: Matrix, r: int, c: int)
  {
    0 <= f.rows + r && r <= g.rows && 0 <= f.cols + c && c <= g.cols
  }

  /** One output cell of `Convolve` at offset (r, c): the overlapping sub-matrices of the
    * kernel and the input, multiplied cell by cell, summed by column and then added up.
    * The sub-matrices exist exactly when the kernel overlaps the input or touches its edge. */
  function CellAt(f: Matrix, g: Matrix, r: int, c: int): (v: Result<real>)
    ensures v.Success? <==> Overlaps(f, g, r, c)
  {
    var fci, fri := OverlapStartInKernel(c), OverlapStartInKernel(r);
    var gci, gri := OverlapStartInInput(c), OverlapStartInInput(r);
    var cl, rl := OverlapLength(f.cols, g.cols, c), OverlapLength(f.rows, g.rows, r);
    if !(InRange(fri, rl, f.rows) && InRange(fci, cl, f.cols)) then Failure(ArgumentOutOfRange)
    else if !(InRange(gri, rl, g.rows) && InRange(gci, cl, g.cols)) then Failure(ArgumentOutOfRange)
    else Success(OverlapSum(f, g, r, c))
  }

  /** The sum of the cells of the overlap product, column by column. */
  function OverlapSum(f: Matrix, g: Matrix, r: int, c: int): real
    requires Overlaps(f, g, r, c)
  {
    Sum(ColumnSums(OverlapProduct(f, g, r, c)))
  }

  /** The cell-by-cell product of the overlapping sub-matrices of the kernel and the input. */
  function OverlapProduct(f: Matrix, g: Matrix, r: int, c: int): (p: Matrix)
    requires Overlaps(f, g, r, c)
    ensures p.rows == OverlapLength(f.rows, g.rows, r) && p.cols == OverlapLength(f.cols, g.cols, c)
  {
    OverlapBounds(f.rows, g.rows, r);
    OverlapBounds(f.cols, g.cols, c);
    var fci, fri := OverlapStartInKernel(c), OverlapStartInKernel(r);
    var gci, gri := OverlapStartInInput(c), OverlapStartInInput(r);
    var cl, rl := OverlapLength(f.cols, g.cols, c), OverlapLength(f.rows, g.rows, r);
    PointwiseMultiply(SubMatrix(f, fri, rl, fci, cl), SubMatrix(g, gri, rl, gci, cl))
  }

  /** Overlap column `jj` of the product sums to the overlap total of that column. */
  lemma OverlapProductColumn(f: Matrix, g: Matrix, r: int, c: int, jj: int)
    requires Overlaps(f, g, r, c) && 0 <= jj < OverlapLength(f.cols, g.cols, c)
    ensures ColumnSum(OverlapProduct(f, g, r, c), jj, OverlapLength(f.rows, g.rows, r)) == OverlapTotals(f, g, r, c)(jj)
  {
    OverlapBounds(f.rows, g.rows, r);
    OverlapBounds(f.cols, g.cols, c);
    var p := OverlapProduct(f, g, r, c);
    var fci, fri := OverlapStartInKernel(c), OverlapStartInKernel(r);
    var gci, gri := OverlapStartInInput(c), OverlapStartInInput(r);
    var rl := OverlapLength(f.rows, g.rows, r);
    forall ii | 0 <= ii < rl ensures OverlapTerms(f, g, r, c, fci + jj)(ii) == p.data[ii][jj] {
      assert fri + ii + r == gri + ii && fci + jj + c == gci + jj;
    }
    ColumnSumIsSumOver(p, jj, rl, OverlapTerms(f, g, r, c, fci + jj));
  }

  /** Where the overlap ranges exist they hold exactly the kernel rows that fall inside the
    * input. */
  lemma OverlapCovers(fLen: int, gLen: int, r: int, i: int)
    requires 0 <= fLen && 0 <= gLen && 0 <= fLen + r && r <= gLen && 0 <= i < fLen
    ensures (0 <= i + r < gLen) <==>
      (OverlapStartInKernel(r) <= i < OverlapStartInKernel(r) + OverlapLength(fLen, gLen, r))
  {
  }

  /** Where the kernel overlaps the input, the overlap ranges lie inside both. */
  lemma OverlapBounds(fLen: int, gLen: int, r: int)
    requires 0 <= fLen && 0 <= gLen && 0 <= fLen + r && r <= gLen
    ensures InRange(OverlapStartInKernel(r), OverlapLength(fLen, gLen, r), fLen)
    ensures InRange(OverlapStartInInput(r), OverlapLength(fLen, gLen, r), gLen)
    ensures OverlapStartInKernel(r) + r == OverlapStartInInput(r)
  {
  }

  /** Column `j` of the kernel, summed over all its rows, is the sum over the rows that
    * overlap the input. */
  lemma ColumnOverlap(f: Matrix, g: Matrix, r: int, c: int, j: int)
    requires Overlaps(f, g, r, c)
    ensures SumOver(f.rows, ColumnTerms(f, g, r, c, j)) ==
      SumOver(OverlapLength(f.rows, g.rows, r), OverlapTerms(f, g, r, c, j))
  {
    var fri, rl := OverlapStartInKernel(r), OverlapLength(f.rows, g.rows, r);
    OverlapBounds(f.rows, g.rows, r);
    forall i | 0 <= i < f.rows
      ensures Term(f, g, r, c, i, j) == if fri <= i < fri + rl then Term(f, g, r, c, fri + (i - fri), j) else 0.0
    {
      OverlapCovers(f.rows, g.rows, r, i);
    }
    SumOverWindow(f.rows, fri, rl, OverlapTerms(f, g, r, c, j), ColumnTerms(f, g, r, c, j));
  }

  /** The terms of kernel column `j` on the rows that overlap the input, by overlap row. */
  function OverlapTerms(f: Matrix, g: Matrix, r: int, c: int, j: int): int -> real
  {
    ii => Term(f, g, r, c, OverlapStartInKernel(r) + ii, j)
  }

  /** The sums over the overlapping rows of the overlapping columns, by overlap column. */
  function OverlapTotals(f: Matrix, g: Matrix, r: int, c: int): int -> real
  {
    jj => SumOver(OverlapLength(f.rows, g.rows, r), OverlapTerms(f, g, r, c, OverlapStartInKernel(c) + jj))
  }

  /** The correlation only involves the columns of the kernel that overlap the input. */
  lemma CorrelationOverlap(f: Matrix, g: Matrix, r: int, c: int)
    requires Overlaps(f, g, r, c)
    ensures Correlation(f, g, r, c) == SumOver(OverlapLength(f.cols, g.cols, c), OverlapTotals(f, g, r, c))
  {
    var fci, cl := OverlapStartInKernel(c), OverlapLength(f.cols, g.cols, c);
    OverlapBounds(f.cols, g.cols, c);
    forall j | 0 <= j < f.cols
      ensures ColumnTotals(f, g, r, c)(j) == if fci <= j < fci + cl then OverlapTotals(f, g, r, c)(j - fci) else 0.0
    {
      OverlapCovers(f.cols, g.cols, c, j);
      ColumnOverlap(f, g, r, c, j);
      if !(fci <= j < fci + cl) {
        forall i | 0 <= i < f.rows ensures ColumnTerms(f, g, r, c, j)(i) == 0.0 {
        }
        SumOverZero(f.rows, ColumnTerms(f, g, r, c, j));
      }
    }
    SumOverWindow(f.cols, fci, cl, OverlapTotals(f, g, r, c), ColumnTotals(f, g, r, c));
  }

  /** Each cell `Convolve` computes is the zero-padded cross-correlation at its offset. */
  lemma CellIsCorrelation(f: Matrix, g: Matrix, r: int, c: int)
    requires CellAt(f, g, r, c).Success?
    ensures CellAt(f, g, r, c).value == Correlation(f, g, r, c)
  {
    assert CellAt(f, g, r, c).value == OverlapSum(f, g, r, c);
    var p := OverlapProduct(f, g, r, c);
    forall jj | 0 <= jj < p.cols
      ensures ColumnSums(p)[jj] == OverlapTotals(f, g, r, c)(jj)
    {
      OverlapProductColumn(f, g, r, c, jj);
    }
    SumIsSumOver(ColumnSums(p), OverlapTotals(f, g, r, c));
    CorrelationOverlap(f, g, r, c);
  }

  // ---------------------------------------------------------------- Convolve

  /** The number of kernel offsets along one axis, from `-padding` up to the last offset
    * before `gLen - fLen + padding + 1`. */
  function Span(gLen: int, fLen: int, padding: int): int
  {
    gLen - fLen + 2 * padding + 1
  }

  /** The output length along one axis: the span itself when it is shorter than the stride,
    * otherwise the span divided by the stride (a truncation of a positive quotient). */
  function OutputLength(span: int, stride: int): int
    requires stride >= 1
  {
    if span < stride then span else span / stride
  }

  /** Step `k` of an axis loop that starts at the first offset and moves by `stride`
    * stays before the end of the span. */
  predicate Visited(span: int, stride: int, k: int)
  {
    0 <= k && k * stride < span
  }

  /** When the loops run at all, some sub-matrix or some write falls outside its matrix:
    * a padding larger than the kernel leaves the first offsets without any overlap, and a
    * stride that neither exceeds nor divides the span makes the last step write one row
    * or column past the output. */
  predicate ConvolveOutOfRange(f: Matrix, g: Matrix, rowStride: int, columnStride: int, rowPadding: int, columnPadding: int)
    requires rowStride >= 1 && columnStride >= 1
  {
    var rSpan, cSpan := Span(g.rows, f.rows, rowPadding), Span(g.cols, f.cols, columnPadding);
    rSpan > 0 && cSpan > 0 &&
    (rowPadding > f.rows || columnPadding > f.cols ||
     (rSpan >= rowStride && rSpan % rowStride != 0) || (cSpan >= columnStride && cSpan % columnStride != 0))
  }

  /** Output cell (k, j): the correlation at the offset the loops reach on their k-th and
    * j-th steps, or 0 for a cell no step reaches. */
  function ConvolveCell(f: Matrix, g: Matrix, rowStride: int, columnStride: int, rowPadding: int, columnPadding: int, k: int, j: int): real
  {
    if Visited(Span(g.rows, f.rows, rowPadding), rowStride, k) && Visited(Span(g.cols, f.cols, columnPadding), columnStride, j)
    then Correlation(f, g, -rowPadding + k * rowStride, -columnPadding + j * columnStride)
    else 0.0
  }

  /** What `Convolve` computes. Strides below 1 are outside the model (the loops would not
    * terminate); a negative output length is refused by the matrix constructor; a range
    * error anywhere in the loops is an `ArgumentOutOfRange`. */
  function Convolution(f: Matrix, g: Matrix, rowStride: int, columnStride: int, rowPadding: int, columnPadding: int): (r: Result<Matrix>)
    ensures r.Success? ==> rowStride >= 1 && columnStride >= 1
    ensures r.Success? ==>
      r.value.rows == OutputLength(Span(g.rows, f.rows, rowPadding), rowStride) &&
      r.value.cols == OutputLength(Span(g.cols, f.cols, columnPadding), columnStride)
    ensures r.Success? ==> forall k, j | 0 <= k < r.value.rows && 0 <= j < r.value.cols ::
      r.value.data[k][j] == ConvolveCell(f, g, rowStride, columnStride, rowPadding, columnPadding, k, j)
  {
    if rowStride < 1 || columnStride < 1 then Failure(NonPositiveStride)
    else
      var rows := OutputLength(Span(g.rows, f.rows, rowPadding), rowStride);
      var cols := OutputLength(Span(g.cols, f.cols, columnPadding), columnStride);
      if rows < 0 || cols < 0 then Failure(ArgumentOutOfRange)
      else if ConvolveOutOfRange(f, g, rowStride, columnStride, rowPadding, columnPadding) then Failure(ArgumentOutOfRange)
      else
        Success(RawMatrix(rows, cols, seq(rows, k requires 0 <= k < rows =>
          seq(cols, j requires 0 <= j < cols => ConvolveCell(f, g, rowStride, columnStride, rowPadding, columnPadding, k, j)))))
  }

  /** An offset the loops reach with no overlap means a padding larger than the kernel. */
  lemma NoOverlapIsOutOfRange(f: Matrix, g: Matrix, rowStride: int, columnStride: int, rowPadding: int, columnPadding: int, k: int, j: int)
    requires rowStride >= 1 && columnStride >= 1
    requires Visited(Span(g.rows, f.rows, rowPadding), rowStride, k)
    requires Visited(Span(g.cols, f.cols, columnPadding), columnStride, j)
    requires !Overlaps(f, g, -rowPadding + k * rowStride, -columnPadding + j * columnStride)
    ensures ConvolveOutOfRange(f, g, rowStride, columnStride, rowPadding, columnPadding)
  {
    MulLe(0, k, rowStride);
    MulLe(0, j, columnStride);
  }

  /** A step of an axis loop that writes at or past the output length means a stride that
    * neither exceeds nor divides the span. */
  lemma WritePastEnd(span: int, stride: int, k: int)
    requires stride >= 1 && Visited(span, stride, k) && k >= OutputLength(span, stride)
    ensures span >= stride && span % stride != 0
  {
    if span < stride {
      if k >= 1 {
        MulLe(1, k, stride);
      }
    }
  }

  /** An axis loop that left the span after `k` steps, all of which wrote inside the output,
    * had a stride that exceeds or divides the span. */
  lemma StepsFit(span: int, stride: int, k: int)
    requires stride >= 1 && 0 < k && span <= k * stride && k <= OutputLength(span, stride)
    ensures span < stride || span % stride == 0
  {
    if span >= stride {
      var q := span / stride;
      assert q * stride + span % stride == span;
      MulLe(k, q, stride);
    }
  }

  /** The output array holds the cells of the rows before `k`, and of row `k` before column
    * `j`; the rest is still 0. */
  ghost predicate Filled(conv: array2<real>, f: Matrix, g: Matrix, rowStride: int, columnStride: int, rowPadding: int, columnPadding: int, k: int, j: int)
    reads conv
  {
    forall a, b | 0 <= a < conv.Length0 && 0 <= b < conv.Length1 ::
      conv[a, b] == if a < k || (a == k && b < j) then ConvolveCell(f, g, rowStride, columnStride, rowPadding, columnPadding, a, b) else 0.0
  }

  /** Once the column loop has left the span, the rest of row `k` is cells no step reaches. */
  lemma RowDone(conv: array2<real>, f: Matrix, g: Matrix, rowStride: int, columnStride: int, rowPadding: int, columnPadding: int, k: int, j: int)
    requires columnStride >= 1 && 0 <= j && Span(g.cols, f.cols, columnPadding) <= j * columnStride
    requires Filled(conv, f, g, rowStride, columnStride, rowPadding, columnPadding, k, j)
    ensures Filled(conv, f, g, rowStride, columnStride, rowPadding, columnPadding, k + 1, 0)
  {
    forall b | j <= b < conv.Length1
      ensures !Visited(Span(g.cols, f.cols, columnPadding), columnStride, b)
    {
      MulLe(j, b, columnStride);
    }
  }

  /** Once the row loop has left the span, the array holds the convolution. */
  lemma AllRowsDone(conv: array2<real>, f: Matrix, g: Matrix, rowStride: int, columnStride: int, rowPadding: int, columnPadding: int, k: int)
    requires rowStride >= 1 && 0 <= k && Span(g.rows, f.rows, rowPadding) <= k * rowStride
    requires Filled(conv, f, g, rowStride, columnStride, rowPadding, columnPadding, k, 0)
    requires Convolution(f, g, rowStride, columnStride, rowPadding, columnPadding).Success?
    requires conv.Length0 == OutputLength(Span(g.rows, f.rows, rowPadding), rowStride)
    requires conv.Length1 == OutputLength(Span(g.cols, f.cols, columnPadding), columnStride)
    ensures FromArray2(conv) == Convolution(f, g, rowStride, columnStride, rowPadding, columnPadding).value
  {
    var spec := Convolution(f, g, rowStride, columnStride, rowPadding, columnPadding).value;
    var m := FromArray2(conv);
    forall a, b | 0 <= a < m.rows && 0 <= b < m.cols ensures m.data[a][b] == spec.data[a][b] {
      if a >= k {
        MulLe(k, a, rowStride);
      }
    }
    Extensionality(m, spec);
  }

  /** The spec's verdict once a range error has been found in the loops. */
  lemma ConvolutionOutOfRange(f: Matrix, g: Matrix, rowStride: int, columnStride: int, rowPadding: int, columnPadding: int)
    requires rowStride >= 1 && columnStride >= 1
    requires OutputLength(Span(g.rows, f.rows, rowPadding), rowStride) >= 0
    requires OutputLength(Span(g.cols, f.cols, columnPadding), columnStride) >= 0
    requires ConvolveOutOfRange(f, g, rowStride, columnStride, rowPadding, columnPadding)
    ensures Convolution(f, g, rowStride, columnStride, rowPadding, columnPadding) == Failure(ArgumentOutOfRange)
  {
  }

  /** `MathNetExtensions.Convolve`: the kernel `f` slides over `g` from offset
    * (-rowPadding, -columnPadding) in steps of the strides, and each step writes the sum of
    * the products of the overlapping cells into the output cell numbered by the step. */
  method Convolve(f: Matrix, g: Matrix, rowStride: int, columnStride: int, rowPadding: int, columnPadding: int)
    returns (result: Result<Matrix>)
    ensures result == Convolution(f, g, rowStride, columnStride, rowPadding, columnPadding)
  {
    if rowStride < 1 || columnStride < 1 {
      return Failure(NonPositiveStride);
    }
    var rStart := -rowPadding;
    var rEnd := g.rows - f.rows + rowPadding + 1;
    var cLength := Span(g.cols, f.cols, columnPadding);
    var rLength := rEnd - rStart;
    // a length is only divided when it is at least the stride, so truncation is `/`
    var convRows := if rLength < rowStride then rLength else rLength / rowStride;
    var convCols := if cLength < columnStride then cLength else cLength / columnStride;
    if convRows < 0 || convCols < 0 {
      return Failure(ArgumentOutOfRange);
    }
    var conv := new real[convRows, convCols]((i, j) => 0.0);
    var r, k := rStart, 0;
    while r < rEnd
      invariant 0 <= k && r == rStart + k * rowStride
      invariant k > 0 && cLength > 0 ==>
        rowPadding <= f.rows && columnPadding <= f.cols && k <= convRows &&
        (cLength < columnStride || cLength % columnStride == 0)
      invariant Filled(conv, f, g, rowStride, columnStride, rowPadding, columnPadding, k, 0)
    {
      var done := ConvolveRow(conv, f, g, rowStride, columnStride, rowPadding, columnPadding, k);
      if done.Fail? {
        ConvolutionOutOfRange(f, g, rowStride, columnStride, rowPadding, columnPadding);
        return Failure(ArgumentOutOfRange);
      }
      MulStep(k, rowStride);
      r, k := r + rowStride, k + 1;
    }
    if rLength > 0 && cLength > 0 {
      StepsFit(rLength, rowStride, k);
    }
    AllRowsDone(conv, f, g, rowStride, columnStride, rowPadding, columnPadding, k);
    return Success(FromArray2(conv));
  }

  /** The column loop of `Convolve` for row step `k`: fills row `k` of the output, or stops
    * at the first range error. */
  method ConvolveRow(conv: array2<real>, f: Matrix, g: Matrix, rowStride: int, columnStride: int, rowPadding: int, columnPadding: int, k: int)
    returns (done: Outcome)
    requires rowStride >= 1 && columnStride >= 1
    requires Visited(Span(g.rows, f.rows, rowPadding), rowStride, k)
    requires conv.Length0 == OutputLength(Span(g.rows, f.rows, rowPadding), rowStride)
    requires conv.Length1 == OutputLength(Span(g.cols, f.cols, columnPadding), columnStride)
    requires Filled(conv, f, g, rowStride, columnStride, rowPadding, columnPadding, k, 0)
    requires k > 0 && Span(g.cols, f.cols, columnPadding) > 0 ==> rowPadding <= f.rows && columnPadding <= f.cols
    modifies conv
    ensures done.Fail? ==> ConvolveOutOfRange(f, g, rowStride, columnStride, rowPadding, columnPadding)
    ensures done.Pass? ==> Filled(conv, f, g, rowStride, columnStride, rowPadding, columnPadding, k + 1, 0)
    ensures done.Pass? && Span(g.cols, f.cols, columnPadding) > 0 ==>
      rowPadding <= f.rows && columnPadding <= f.cols && k < conv.Length0 &&
      (Span(g.cols, f.cols, columnPadding) < columnStride || Span(g.cols, f.cols, columnPadding) % columnStride == 0)
  {
    var cStart := -columnPadding;
    var cEnd := g.cols - f.cols + columnPadding + 1;
    var cLength := cEnd - cStart;
    var c, j := cStart, 0;
    while c < cEnd
      invariant 0 <= j && c == cStart + j * columnStride
      invariant j > 0 ==> rowPadding <= f.rows && columnPadding <= f.cols && k < conv.Length0 && j <= conv.Length1
      invariant Filled(conv, f, g, rowStride, columnStride, rowPadding, columnPadding, k, j)
    {
      done := ConvolveStep(conv, f, g, rowStride, columnStride, rowPadding, columnPadding, k, j);
      if done.Fail? {
        return;
      }
      MulStep(j, columnStride);
      c, j := c + columnStride, j + 1;
    }
    if cLength > 0 {
      StepsFit(cLength, columnStride, j);
    }
    RowDone(conv, f, g, rowStride, columnStride, rowPadding, columnPadding, k, j);
    return Pass;
  }

  /** The body of the column loop of `Convolve` at step (k, j): the cell's value, then the
    * write into the output cell the step numbers. */
  method ConvolveStep(conv: array2<real>, f: Matrix, g: Matrix, rowStride: int, columnStride: int, rowPadding: int, columnPadding: int, k: int, j: int)
    returns (done: Outcome)
    requires rowStride >= 1 && columnStride >= 1
    requires Visited(Span(g.rows, f.rows, rowPadding), rowStride, k)
    requires Visited(Span(g.cols, f.cols, columnPadding), columnStride, j)
    requires conv.Length0 == OutputLength(Span(g.rows, f.rows, rowPadding), rowStride)
    requires conv.Length1 == OutputLength(Span(g.cols, f.cols, columnPadding), columnStride)
    requires Filled(conv, f, g, rowStride, columnStride, rowPadding, columnPadding, k, j)
    requires k > 0 || j > 0 ==> rowPadding <= f.rows && columnPadding <= f.cols
    modifies conv
    ensures done.Fail? ==> ConvolveOutOfRange(f, g, rowStride, columnStride, rowPadding, columnPadding)
    ensures done.Pass? ==>
      Filled(conv, f, g, rowStride, columnStride, rowPadding, columnPadding, k, j + 1) &&
      rowPadding <= f.rows && columnPadding <= f.cols && k < conv.Length0 && j < conv.Length1
  {
    var row, column, value;
    done, row, column, value := StepValue(f, g, rowStride, columnStride, rowPadding, columnPadding, k, j, conv.Length0, conv.Length1);
    if done.Fail? {
      return;
    }
    WriteCell(conv, f, g, rowStride, columnStride, rowPadding, columnPadding, row, column, value);
  }

  /** The value `Convolve` computes at step (k, j), and the output cell it goes to, or the
    * range error that step raises. */
  method StepValue(f: Matrix, g: Matrix, rowStride: int, columnStride: int, rowPadding: int, columnPadding: int, k: int, j: int, convRows: int, convCols: int)
    returns (done: Outcome, row: int, column: int, value: real)
    requires rowStride >= 1 && columnStride >= 1
    requires Visited(Span(g.rows, f.rows, rowPadding), rowStride, k)
    requires Visited(Span(g.cols, f.cols, columnPadding), columnStride, j)
    requires convRows == OutputLength(Span(g.rows, f.rows, rowPadding), rowStride)
    requires convCols == OutputLength(Span(g.cols, f.cols, columnPadding), columnStride)
    requires k > 0 || j > 0 ==> rowPadding <= f.rows && columnPadding <= f.cols
    ensures done.Fail? ==> ConvolveOutOfRange(f, g, rowStride, columnStride, rowPadding, columnPadding)
    ensures done.Pass? ==>
      row == k && column == j && k < convRows && j < convCols &&
      value == ConvolveCell(f, g, rowStride, columnStride, rowPadding, columnPadding, k, j) &&
      rowPadding <= f.rows && columnPadding <= f.cols
  {
    var rStart, cStart := -rowPadding, -columnPadding;
    var r, c := rStart + k * rowStride, cStart + j * columnStride;
    var cell := CellAt(f, g, r, c);
    if cell.Failure? {
      NoOverlapIsOutOfRange(f, g, rowStride, columnStride, rowPadding, columnPadding, k, j);
      return Fail(ArgumentOutOfRange), 0, 0, 0.0;
    }
    row, column := (r - rStart) / rowStride, (c - cStart) / columnStride;
    assert row == k && column == j by {
      assert r - rStart == k * rowStride + 0 && c - cStart == j * columnStride + 0;
      DivModOfIndex(k, rowStride, 0);
      DivModOfIndex(j, columnStride, 0);
    }
    if !(row < convRows && column < convCols) {
      if row >= convRows {
        WritePastEnd(Span(g.rows, f.rows, rowPadding), rowStride, k);
      } else {
        WritePastEnd(Span(g.cols, f.cols, columnPadding), columnStride, j);
      }
      return Fail(ArgumentOutOfRange), row, column, 0.0;
    }
    if k == 0 && j == 0 {
      FirstOverlap(f, g, rowStride, columnStride, rowPadding, columnPadding, k, j);
    }
    CellIsConvolveCell(f, g, rowStride, columnStride, rowPadding, columnPadding, k, j);
    return Pass, row, column, cell.value;
  }

  /** At a step the loops reach, the cell `Convolve` computes is the spec's cell. */
  lemma CellIsConvolveCell(f: Matrix, g: Matrix, rowStride: int, columnStride: int, rowPadding: int, columnPadding: int, k: int, j: int)
    requires Visited(Span(g.rows, f.rows, rowPadding), rowStride, k)
    requires Visited(Span(g.cols, f.cols, columnPadding), columnStride, j)
    requires CellAt(f, g, -rowPadding + k * rowStride, -columnPadding + j * columnStride).Success?
    ensures CellAt(f, g, -rowPadding + k * rowStride, -columnPadding + j * columnStride).value ==
      ConvolveCell(f, g, rowStride, columnStride, rowPadding, columnPadding, k, j)
  {
    CellIsCorrelation(f, g, -rowPadding + k * rowStride, -columnPadding + j * columnStride);
  }

  /** Writes output cell (k, j), the next one in loop order. */
  method WriteCell(conv: array2<real>, f: Matrix, g: Matrix, rowStride: int, columnStride: int, rowPadding: int, columnPadding: int, k: int, j: int, value: real)
    requires 0 <= k < conv.Length0 && 0 <= j < conv.Length1
    requires Filled(conv, f, g, rowStride, columnStride, rowPadding, columnPadding, k, j)
    requires value == ConvolveCell(f, g, rowStride, columnStride, rowPadding, columnPadding, k, j)
    modifies conv
    ensures Filled(conv, f, g, rowStride, columnStride, rowPadding, columnPadding, k, j + 1)
  {
    conv[k, j] := value;
  }

  /** Every offset the loops reach has an overlap only when neither padding exceeds the
    * kernel. */
  lemma FirstOverlap(f: Matrix, g: Matrix, rowStride: int, columnStride: int, rowPadding: int, columnPadding: int, k: int, j: int)
    requires rowStride >= 1 && columnStride >= 1 && 0 <= k && 0 <= j
    requires Overlaps(f, g, -rowPadding + k * rowStride, -columnPadding + j * columnStride)
    requires k == 0 && j == 0
    ensures rowPadding <= f.rows && columnPadding <= f.cols
  {
  }

  // ---------------------------------------------------------------- SplitByColumn

  /** Block `b` of `width` columns. */
  function ColumnBlock(m: Matrix, b: int, width: int): (s: Matrix)
    requires 0 <= b && 0 <= width && b * width + width <= m.cols
    ensures s.rows == m.rows && s.cols == width
    ensures forall i, j | 0 <= i < m.rows && 0 <= j < width :: s.data[i][j] == m.data[i][b * width + j]
  {
    MulLe(0, b, width);
    SubMatrix(m, 0, m.rows, b * width, width)
  }

  /** Block `b` of `n` equal blocks lies inside the matrix. */
  lemma BlockFits(cols: int, n: int, b: int)
    requires n > 0 && cols >= 0 && cols % n == 0 && 0 <= b < n
    ensures 0 <= cols / n && b * (cols / n) + cols / n <= cols
  {
    var w := cols / n;
    assert n * w == cols;
    MulStep(b, w);
    MulLe(b + 1, n, w);
  }

  /** `MathNetExtensions.SplitByColumn`: `n` blocks of equal width, left to right. A zero
    * count divides by zero, a count that does not divide the column count is refused, and a
    * negative count is refused as a range. */
  function SplitByColumn(m: Matrix, n: int): (r: Result<seq<Matrix>>)
    ensures r.Success? <==> n > 0 && m.cols % n == 0
    ensures n == 0 ==> r == Failure(DivideByZero)
    ensures n != 0 && CRem(m.cols, n) != 0 ==> r == Failure(Argument)
    ensures n < 0 && CRem(m.cols, n) == 0 ==> r == Failure(ArgumentOutOfRange)
    ensures r.Success? ==> |r.value| == n && forall b | 0 <= b < n :: r.value[b] == SplitBlock(m, n, b)
  {
    if n == 0 then Failure(DivideByZero)
    else if CRem(m.cols, n) != 0 then Failure(Argument)
    else
      var width := CDiv(m.cols, n);
      if n < 0 then Failure(ArgumentOutOfRange)
      else
        CDivOfNonNegative(m.cols, n);
        Success(seq(n, b requires 0 <= b < n => SplitBlock(m, n, b)))
  }

  /** Block `b` of the split of `m` into `n` blocks: columns `b * w` to `(b + 1) * w` for
    * the width `w = m.cols / n`. */
  function SplitBlock(m: Matrix, n: int, b: int): (s: Matrix)
    requires n > 0 && m.cols % n == 0 && 0 <= b < n
    ensures s.rows == m.rows && s.cols == m.cols / n
    ensures forall i, j | 0 <= i < m.rows && 0 <= j < m.cols / n :: s.data[i][j] == At(m, i, b * (m.cols / n) + j)
  {
    BlockFits(m.cols, n, b);
    ColumnBlock(m, b, m.cols / n)
  }

  /** The blocks of a split cover the columns: column `b * width + j` of the matrix is
    * column `j` of block `b`. */
  lemma SplitCovers(m: Matrix, n: int, i: int, col: int)
    requires SplitByColumn(m, n).Success? && 0 <= i < m.rows && 0 <= col < m.cols
    ensures 0 <= col / (m.cols / n) < n
    ensures SplitByColumn(m, n).value[col / (m.cols / n)].data[i][col % (m.cols / n)] == m.data[i][col]
  {
    var w := m.cols / n;
    assert n * w == m.cols;
    assert w > 0;
    var b, j := col / w, col % w;
    assert col == b * w + j;
    if b >= n {
      MulLe(n, b, w);
    }
    BlockFits(m.cols, n, b);
  }

  lemma SplitByColumnRegression()
    ensures SplitByColumn(RawMatrix(2, 6, [[1.0, 2.0, 5.0, 5.0, 6.0, 7.0], [3.0, 4.0, 5.0, 5.0, 8.0, 9.0]]), 3)
      == Success([RawMatrix(2, 2, [[1.0, 2.0], [3.0, 4.0]]), RawMatrix(2, 2, [[5.0, 5.0], [5.0, 5.0]]),
                  RawMatrix(2, 2, [[6.0, 7.0], [8.0, 9.0]])])
  {
    var m: Matrix := RawMatrix(2, 6, [[1.0, 2.0, 5.0, 5.0, 6.0, 7.0], [3.0, 4.0, 5.0, 5.0, 8.0, 9.0]]);
    var blocks := SplitByColumn(m, 3).value;
    var a: Matrix, b: Matrix, c: Matrix := RawMatrix(2, 2, [[1.0, 2.0], [3.0, 4.0]]),
      RawMatrix(2, 2, [[5.0, 5.0], [5.0, 5.0]]), RawMatrix(2, 2, [[6.0, 7.0], [8.0, 9.0]]);
    assert m.cols / 3 == 2;
    Extensionality(blocks[0], a);
    Extensionality(blocks[1], b);
    Extensionality(blocks[2], c);
    assert blocks == [a, b, c];
  }

  lemma PartialSplitByColumnRegression()
    ensures SplitByColumn(RawMatrix(2, 3, [[1.0, 2.0, 5.0], [3.0, 4.0, 5.0]]), 2) == Failure(Argument)
  {
  }

  // ---------------------------------------------------------------- Rotate180

  /** Cell (i, j) of the matrix turned by 180 degrees: the cell mirrored through the centre,
    * or 0 outside the matrix. */
  function RotatedCell(m: Matrix, i: int, j: int): real
  {
    if 0 <= i < m.rows && 0 <= j < m.cols then m.data[m.rows - 1 - i][m.cols - 1 - j] else 0.0
  }

  /** The matrix turned by 180 degrees. */
  function Rotated180(m: Matrix): (t: Matrix)
    ensures SameShape(t, m)
    ensures forall i, j | 0 <= i < m.rows && 0 <= j < m.cols :: t.data[i][j] == m.data[m.rows - 1 - i][m.cols - 1 - j]
  {
    RawMatrix(m.rows, m.cols, seq(m.rows, i requires 0 <= i < m.rows =>
      seq(m.cols, j requires 0 <= j < m.cols => RotatedCell(m, i, j))))
  }

  /** Turning twice by 180 degrees gives back the matrix. */
  lemma RotateTwice(m: Matrix)
    ensures Rotated180(Rotated180(m)) == m
  {
    Extensionality(Rotated180(Rotated180(m)), m);
  }

  /** The array holds the rotated cells of the columns before `c`, and of column `c` above
    * row `r`; the rest is still 0. */
  ghost predicate RotatedUpTo(a: array2<real>, m: Matrix, c: int, r: int)
    reads a
  {
    forall i, j | 0 <= i < a.Length0 && 0 <= j < a.Length1 ::
      a[i, j] == if j < c || (j == c && i < r) then RotatedCell(m, i, j) else 0.0
  }

  /** `MathNetExtensions.Rotate180`: fills a fresh matrix column by column, each cell from
    * the cell mirrored through the centre. */
  method Rotate180(m: Matrix) returns (result: Matrix)
    ensures result == Rotated180(m)
  {
    var a := new real[m.rows, m.cols]((i, j) => 0.0);
    var c := 0;
    while c < m.cols
      invariant 0 <= c <= m.cols
      invariant RotatedUpTo(a, m, c, 0)
    {
      var r := 0;
      while r < m.rows
        invariant 0 <= r <= m.rows
        invariant RotatedUpTo(a, m, c, r)
      {
        a[r, c] := m.data[m.rows - r - 1][m.cols - c - 1];
        r := r + 1;
      }
      c := c + 1;
    }
    result := FromArray2(a);
    Extensionality(result, Rotated180(m));
  }

  lemma RotateRegression()
    ensures Rotated180(RawMatrix(2, 2, [[1.0, 2.0], [3.0, 4.0]])) == RawMatrix(2, 2, [[4.0, 3.0], [2.0, 1.0]])
  {
    var m: Matrix := RawMatrix(2, 2, [[1.0, 2.0], [3.0, 4.0]]);
    Extensionality(Rotated180(m), RawMatrix(2, 2, [[4.0, 3.0], [2.0, 1.0]]));
  }

  // ---------------------------------------------------------------- ConvolveTranspose

  /** The padding `ConvolveTranspose` uses along an axis: the given one, or one less than
    * the kernel's length. */
  function PaddingOr(padding: Option<int>, fLen: int): int
  {
    if padding.Some? then padding.value else fLen - 1
  }

  /** What `ConvolveTranspose` computes: the rotated kernel convolved with unit strides. */
  function TransposedConvolution(f: Matrix, g: Matrix, rowPadding: Option<int>, columnPadding: Option<int>): Result<Matrix>
  {
    Convolution(Rotated180(f), g, 1, 1, PaddingOr(rowPadding, f.rows), PaddingOr(columnPadding, f.cols))
  }

  /** `MathNetExtensions.ConvolveTranspose`: rotates the kernel, then convolves with unit
    * strides and, by default, a padding that lets every kernel cell meet every input cell. */
  method ConvolveTranspose(f: Matrix, g: Matrix, rowPadding: Option<int>, columnPadding: Option<int>)
    returns (result: Result<Matrix>)
    ensures result == TransposedConvolution(f, g, rowPadding, columnPadding)
  {
    var rotated := Rotate180(f);
    result := Convolve(rotated, g, 1, 1, PaddingOr(rowPadding, f.rows), PaddingOr(columnPadding, f.cols));
  }

  /** With the default paddings the transposed convolution is the full convolution: it
    * fails only when an axis has no cells in either matrix, and its output is
    * `(g.rows + f.rows - 1) x (g.cols + f.cols - 1)`. */
  lemma TransposedConvolutionShape(f: Matrix, g: Matrix)
    ensures TransposedConvolution(f, g, None, None).Success? <==>
      g.rows + f.rows >= 1 && g.cols + f.cols >= 1
    ensures TransposedConvolution(f, g, None, None).Success? ==>
      TransposedConvolution(f, g, None, None).value.rows == g.rows + f.rows - 1 &&
      TransposedConvolution(f, g, None, None).value.cols == g.cols + f.cols - 1
  {
  }

  /** The only term of a sum that can be non-zero is the sum. */
  lemma SumOverSingle(n: int, h: int -> real, p: int)
    requires 0 <= p < n
    requires forall i | 0 <= i < n && i != p :: h(i) == 0.0
    ensures SumOver(n, h) == h(p)
  {
    var w := i => h(p + i);
    SumOverWindow(n, p, 1, w, h);
  }

  /** With a 1 x 1 input holding 1, the transposed convolution gives back the kernel. */
  lemma TransposeOfUnit(f: Matrix)
    ensures TransposedConvolution(f, RawMatrix(1, 1, [[1.0]]), None, None) == Success(f)
  {
    var g: Matrix := RawMatrix(1, 1, [[1.0]]);
    var rot := Rotated180(f);
    TransposedConvolutionShape(f, g);
    var res := TransposedConvolution(f, g, None, None).value;
    forall k, j | 0 <= k < f.rows && 0 <= j < f.cols ensures res.data[k][j] == f.data[k][j] {
      var r, c := -(f.rows - 1) + k * 1, -(f.cols - 1) + j * 1;
      assert res.data[k][j] == Correlation(rot, g, r, c);
      var jj, ii := f.cols - 1 - j, f.rows - 1 - k;
      forall q | 0 <= q < f.cols && q != jj ensures ColumnTotals(rot, g, r, c)(q) == 0.0 {
        SumOverZero(f.rows, ColumnTerms(rot, g, r, c, q));
      }
      SumOverSingle(f.cols, ColumnTotals(rot, g, r, c), jj);
      SumOverSingle(f.rows, ColumnTerms(rot, g, r, c, jj), ii);
    }
    Extensionality(res, f);
  }

  // ---------------------------------------------------------------- worked examples

  lemma SumOverTwo(h: int -> real)
    ensures SumOver(1, h) == h(0) && SumOver(2, h) == h(0) + h(1)
  {
  }

  /** The correlation of a 1 x 2 kernel. */
  lemma CorrelationOneByTwo(f: Matrix, g: Matrix, r: int, c: int)
    requires f.rows == 1 && f.cols == 2
    ensures Correlation(f, g, r, c) == Term(f, g, r, c, 0, 0) + Term(f, g, r, c, 0, 1)
  {
    SumOverTwo(ColumnTotals(f, g, r, c));
    SumOverTwo(ColumnTerms(f, g, r, c, 0));
    SumOverTwo(ColumnTerms(f, g, r, c, 1));
  }

  /** The correlation of a 2 x 2 kernel. */
  lemma CorrelationTwoByTwo(f: Matrix, g: Matrix, r: int, c: int)
    requires f.rows == 2 && f.cols == 2
    ensures Correlation(f, g, r, c) ==
      Term(f, g, r, c, 0, 0) + Term(f, g, r, c, 1, 0) + Term(f, g, r, c, 0, 1) + Term(f, g, r, c, 1, 1)
  {
    SumOverTwo(ColumnTotals(f, g, r, c));
    SumOverTwo(ColumnTerms(f, g, r, c, 0));
    SumOverTwo(ColumnTerms(f, g, r, c, 1));
  }

  /** A 2 x 2 kernel over a 3 x 3 input, no padding, unit strides. */
  lemma ConvolveRegression()
    ensures Convolution(RawMatrix(2, 2, [[1.0, 2.0], [3.0, 4.0]]),
                        RawMatrix(3, 3, [[1.0, 2.0, 3.0], [4.0, 5.0, 6.0], [7.0, 8.0, 9.0]]), 1, 1, 0, 0)
      == Success(RawMatrix(2, 2, [[37.0, 47.0], [67.0, 77.0]]))
  {
    var f: Matrix := RawMatrix(2, 2, [[1.0, 2.0], [3.0, 4.0]]);
    var g: Matrix := RawMatrix(3, 3, [[1.0, 2.0, 3.0], [4.0, 5.0, 6.0], [7.0, 8.0, 9.0]]);
    var expected: Matrix := RawMatrix(2, 2, [[37.0, 47.0], [67.0, 77.0]]);
    var res := Convolution(f, g, 1, 1, 0, 0).value;
    forall k, j | 0 <= k < 2 && 0 <= j < 2 ensures res.data[k][j] == expected.data[k][j] {
      CorrelationTwoByTwo(f, g, k, j);
    }
    Extensionality(res, expected);
  }

  /** A 1 x 2 kernel over a 1 x 7 input with column stride 3: offsets 0 and 3. */
  lemma StridedConvolveRegression()
    ensures Convolution(RawMatrix(1, 2, [[3.0, 4.0]]),
                        RawMatrix(1, 7, [[1.0, 2.0, 3.0, 4.0, 5.0, 6.0, 7.0]]), 1, 3, 0, 0)
      == Success(RawMatrix(1, 2, [[11.0, 32.0]]))
  {
    var f: Matrix := RawMatrix(1, 2, [[3.0, 4.0]]);
    var g: Matrix := RawMatrix(1, 7, [[1.0, 2.0, 3.0, 4.0, 5.0, 6.0, 7.0]]);
    var expected: Matrix := RawMatrix(1, 2, [[11.0, 32.0]]);
    var res := Convolution(f, g, 1, 3, 0, 0).value;
    forall k, j | 0 <= k < 1 && 0 <= j < 2 ensures res.data[k][j] == expected.data[k][j] {
      CorrelationOneByTwo(f, g, k, j * 3);
    }
    Extensionality(res, expected);
  }

  /** A 1 x 2 kernel over a 1 x 3 input. */
  lemma OneDimensionalConvolveRegression()
    ensures Convolution(RawMatrix(1, 2, [[3.0, 4.0]]), RawMatrix(1, 3, [[1.0, 2.0, 3.0]]), 1, 1, 0, 0)
      == Success(RawMatrix(1, 2, [[11.0, 18.0]]))
  {
    var f: Matrix := RawMatrix(1, 2, [[3.0, 4.0]]);
    var g: Matrix := RawMatrix(1, 3, [[1.0, 2.0, 3.0]]);
    var expected: Matrix := RawMatrix(1, 2, [[11.0, 18.0]]);
    var res := Convolution(f, g, 1, 1, 0, 0).value;
    forall k, j | 0 <= k < 1 && 0 <= j < 2 ensures res.data[k][j] == expected.data[k][j] {
      CorrelationOneByTwo(f, g, k, j);
    }
    Extensionality(res, expected);
  }

  /** The transposed convolution of two 2 x 2 matrices is their full 3 x 3 convolution. */
  lemma TransposeRegression()
    ensures TransposedConvolution(RawMatrix(2, 2, [[4.0, 3.0], [2.0, 1.0]]), RawMatrix(2, 2, [[5.0, 6.0], [7.0, 8.0]]), None, None)
      == Success(RawMatrix(3, 3, [[20.0, 39.0, 18.0], [38.0, 70.0, 30.0], [14.0, 23.0, 8.0]]))
  {
    var f: Matrix := RawMatrix(2, 2, [[4.0, 3.0], [2.0, 1.0]]);
    Extensionality(Rotated180(f), RawMatrix(2, 2, [[1.0, 2.0], [3.0, 4.0]]));
    FullConvolveRegression();
  }

  /** A cell of the full convolution of two 2 x 2 matrices: the four terms at offset
    * (k - 1, j - 1). */
  lemma FullConvolveCell(f: Matrix, g: Matrix, k: int, j: int)
    requires f.rows == 2 && f.cols == 2 && g.rows == 2 && g.cols == 2 && 0 <= k < 3 && 0 <= j < 3
    requires Convolution(f, g, 1, 1, 1, 1).Success?
    ensures Convolution(f, g, 1, 1, 1, 1).value.data[k][j] ==
      Term(f, g, k - 1, j - 1, 0, 0) + Term(f, g, k - 1, j - 1, 1, 0) + Term(f, g, k - 1, j - 1, 0, 1) + Term(f, g, k - 1, j - 1, 1, 1)
  {
    CorrelationTwoByTwo(f, g, -1 + k * 1, -1 + j * 1);
  }

  /** A 2 x 2 kernel over a 2 x 2 input with padding 1 on both axes. */
  lemma FullConvolveRegression()
    ensures Convolution(RawMatrix(2, 2, [[1.0, 2.0], [3.0, 4.0]]), RawMatrix(2, 2, [[5.0, 6.0], [7.0, 8.0]]), 1, 1, 1, 1)
      == Success(RawMatrix(3, 3, [[20.0, 39.0, 18.0], [38.0, 70.0, 30.0], [14.0, 23.0, 8.0]]))
  {
    var f: Matrix := RawMatrix(2, 2, [[1.0, 2.0], [3.0, 4.0]]);
    var g: Matrix := RawMatrix(2, 2, [[5.0, 6.0], [7.0, 8.0]]);
    var expected: Matrix := RawMatrix(3, 3, [[20.0, 39.0, 18.0], [38.0, 70.0, 30.0], [14.0, 23.0, 8.0]]);
    var res := Convolution(f, g, 1, 1, 1, 1).value;
    forall k, j | 0 <= k < 3 && 0 <= j < 3 ensures res.data[k][j] == expected.data[k][j] {
      FullConvolveCell(f, g, k, j);
    }
    Extensionality(res, expected);
  }
}
