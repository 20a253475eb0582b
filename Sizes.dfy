/** The shape of a tensor: its dimensions, the number of values they span, and the
  * number of kernels stacked behind them. */
module Sizes {
  import opened Wrappers

  /** `length` is stored, as in the library, because it is not a function of the stored
    * dimensions: a size built from no dimensions keeps `[0]` but spans one value.
    * `kernelCount` is the count of stacked kernels that convolutional layers read; the
    * one-argument constructor sets it to 1. */
  datatype Size = Size(dimensions: seq<int>, length: int, kernelCount: int)

  /** The product of a list of dimensions. */
  function Product(ds: seq<int>): int
  {
    if ds == [] then 1 else ds[0] * Product(ds[1..])
  }

  /** The library's left fold `Aggregate(acc, (m, d) => d * m)`. */
  function Aggregate(acc: int, ds: seq<int>): int
    decreases |ds|
  {
    if ds == [] then acc else Aggregate(ds[0] * acc, ds[1..])
  }

  lemma {:induction false} AggregateIsProduct(acc: int, ds: seq<int>)
    ensures Aggregate(acc, ds) == acc * Product(ds)
    decreases |ds|
  {
    if ds != [] {
      AggregateIsProduct(ds[0] * acc, ds[1..]);
      assert ds[0] * acc * Product(ds[1..]) == acc * (ds[0] * Product(ds[1..]));
    }
  }

  /** `new Size(dims)`: no dimensions is stored as the single dimension 0, while the
    * length is the product of the dimensions given (1 for none). */
  function NewSize(dims: seq<int>): (s: Size)
    ensures s.dimensions == (if dims == [] then [0] else dims)
    ensures s.length == Product(dims) && s.kernelCount == 1
  {
    AggregateIsProduct(1, dims);
    Size(if |dims| == 0 then [0] else dims, Aggregate(1, dims), 1)
  }

  /** `new Size(dims, kernelCount)`: the same shape with `kernelCount` stacked kernels. */
  function NewKernelSize(dims: seq<int>, kernelCount: int): (s: Size)
    ensures s.dimensions == NewSize(dims).dimensions && s.length == Product(dims)
    ensures TotalLength(s) == Product(dims) * kernelCount
  {
    NewSize(dims).(kernelCount := kernelCount)
  }

  /** The number of values of all kernels together. */
  function TotalLength(s: Size): int
  {
    s.length * s.kernelCount
  }

  /** `Size.Equals`: false for null, otherwise equal lengths and equal dimension lists.
    * The kernel count is not compared. */
  function SizeEquals(s: Size, other: Option<Size>): bool
  {
    other.Some? && s.length == other.value.length && s.dimensions == other.value.dimensions
  }

  /** `Size.Clone` as written: a new size from the stored dimensions. */
  function CloneAsWritten(s: Size): Size
  {
    NewSize(s.dimensions)
  }

  /** The clone the library evidently intends: a copy of every field. */
  function Clone(s: Size): (r: Size)
    ensures SizeEquals(r, Some(s)) && TotalLength(r) == TotalLength(s)
  {
    Size(s.dimensions, s.length, s.kernelCount)
  }

  /** Two sizes built by the constructor are equal exactly when they were built from the
    * same dimension list, whatever their kernel counts. */
  lemma EqualsOfConstructed(d1: seq<int>, k1: int, d2: seq<int>, k2: int)
    ensures SizeEquals(NewKernelSize(d1, k1), Some(NewKernelSize(d2, k2))) <==> d1 == d2
  {
    if d1 != d2 && NewKernelSize(d1, k1).dimensions == NewKernelSize(d2, k2).dimensions {
      assert (d1 == [] && d2 == [0]) || (d1 == [0] && d2 == []);
      assert Product([0]) == 0;
    }
  }

  /** `Equals` is an equivalence on sizes. */
  lemma EqualsIsEquivalence(a: Size, b: Size, c: Size)
    ensures SizeEquals(a, Some(a))
    ensures SizeEquals(a, Some(b)) <==> SizeEquals(b, Some(a))
    ensures SizeEquals(a, Some(b)) && SizeEquals(b, Some(c)) ==> SizeEquals(a, Some(c))
    ensures !SizeEquals(a, None)
  {
  }

  /** With every dimension at least 1, the length is at least 1 and at least every
    * single dimension. */
  lemma {:induction false} ProductBounds(ds: seq<int>)
    requires forall i | 0 <= i < |ds| :: ds[i] >= 1
    ensures Product(ds) >= 1
    ensures forall i | 0 <= i < |ds| :: Product(ds) >= ds[i]
  {
    if ds != [] {
      ProductBounds(ds[1..]);
      var a, p := ds[0], Product(ds[1..]);
      assert Product(ds) == a * p;
      assert a * p - a == a * (p - 1) >= 0;
      assert a * p - p == (a - 1) * p >= 0;
      forall i | 0 <= i < |ds| ensures Product(ds) >= ds[i] {
        if i > 0 { assert ds[i] == ds[1..][i - 1]; }
      }
    }
  }

  /** The product of a list extended by one dimension. */
  lemma {:induction false} ProductSnoc(ds: seq<int>, d: int)
    ensures Product(ds + [d]) == Product(ds) * d
  {
    if ds != [] {
      assert (ds + [d])[1..] == ds[1..] + [d];
      ProductSnoc(ds[1..], d);
    } else {
      assert ds + [d] == [d];
    }
  }

  lemma ProductOfOne(a: int)
    ensures Product([a]) == a
  {
    assert [a][1..] == [];
  }

  lemma ProductOfTwo(a: int, b: int)
    ensures Product([a, b]) == a * b
  {
    assert [a, b][1..] == [b];
    ProductOfOne(b);
  }

  lemma ProductOfThree(a: int, b: int, c: int)
    ensures Product([a, b, c]) == a * (b * c)
  {
    assert [a, b, c][1..] == [b, c];
    ProductOfTwo(b, c);
  }

  /** Cloning as written loses the length of a size built from no dimensions: the clone
    * spans no values while the original spans one, so the two are not equal. */
  lemma CloneAsWrittenOfEmptySize()
    ensures NewSize([]).length == 1 && CloneAsWritten(NewSize([])).length == 0
    ensures !SizeEquals(CloneAsWritten(NewSize([])), Some(NewSize([])))
  {
    assert Product([0]) == 0;
  }

  /** For any size built from at least one dimension, cloning as written does agree with
    * the original under `Equals`. */
  lemma CloneAsWrittenOfNonEmptySize(dims: seq<int>, k: int)
    requires dims != []
    ensures SizeEquals(CloneAsWritten(NewKernelSize(dims, k)), Some(NewKernelSize(dims, k)))
  {
  }
}
