/** The record of one pass forwards and backwards through a net: the value before and after
  * every layer, the error before and after every layer, and every layer's weights delta.
  * A cursor, `counter`, selects the layer whose slots the accessors read and write: the
  * input of layer `i` is value slot `i` and its output value slot `i + 1`, and likewise
  * for the errors. An absent slot is the library's null. */
module TrainingRuns {
  import opened Wrappers
  import opened Matrices
  import opened Tensors

  /** The whole state of a run as a value. */
  datatype RunView = RunView(
    values: seq<Option<Tensor>>,
    errors: seq<Option<Tensor>>,
    deltas: seq<Option<Matrix>>,
    counter: int,
    batchSize: int,
    cost: real)

  /** The state of `new TrainingRun(layerCount)`: `layerCount + 1` empty value and error
    * slots, `layerCount` empty weights deltas, the cursor at 0 and nothing accumulated. */
  function FreshView(layerCount: nat): (v: RunView)
    ensures |v.values| == |v.errors| == layerCount + 1 && |v.deltas| == layerCount
    ensures forall i | 0 <= i <= layerCount :: v.values[i].None? && v.errors[i].None?
    ensures forall i | 0 <= i < layerCount :: v.deltas[i].None?
    ensures v.counter == 0 && v.batchSize == 0 && v.cost == 0.0
  {
    RunView(seq(layerCount + 1, _ => None), seq(layerCount + 1, _ => None), seq(layerCount, _ => None), 0, 0, 0.0)
  }

  // ---------------------------------------------------------------- cursor-addressed slots

  /** Slot `i` of an array, or the range error of an index outside it. */
  function Slot<T>(slots: seq<T>, i: int): (r: Result<T>)
    ensures r.Success? <==> 0 <= i < |slots|
    ensures r.Success? ==> r.value == slots[i]
    ensures r.Failure? ==> r.error == IndexOutOfRange
  {
    if 0 <= i < |slots| then Success(slots[i]) else Failure(IndexOutOfRange)
  }

  /** Slot `i` of an array replaced, or the range error of an index outside it. */
  function Store<T>(slots: seq<T>, i: int, x: T): (r: Result<seq<T>>)
    ensures r.Success? <==> 0 <= i < |slots|
    ensures r.Success? ==> r.value == slots[i := x]
    ensures r.Failure? ==> r.error == IndexOutOfRange
  {
    if 0 <= i < |slots| then Success(slots[i := x]) else Failure(IndexOutOfRange)
  }

  function InputOf(v: RunView): Result<Option<Tensor>> { Slot(v.values, v.counter) }
  function OutputOf(v: RunView): Result<Option<Tensor>> { Slot(v.values, v.counter + 1) }
  function InputErrorOf(v: RunView): Result<Option<Tensor>> { Slot(v.errors, v.counter) }
  function OutputErrorOf(v: RunView): Result<Option<Tensor>> { Slot(v.errors, v.counter + 1) }
  function WeightsDeltaOf(v: RunView): Result<Option<Matrix>> { Slot(v.deltas, v.counter) }

  /** Setting `Input` replaces value slot `counter` and nothing else. */
  function WithInput(v: RunView, t: Option<Tensor>): (r: Result<RunView>)
    ensures r.Success? <==> 0 <= v.counter < |v.values|
    ensures r.Success? ==> r.value == v.(values := v.values[v.counter := t])
  {
    var values :- Store(v.values, v.counter, t);
    Success(v.(values := values))
  }

  /** Setting `Output` replaces value slot `counter + 1` and nothing else. */
  function WithOutput(v: RunView, t: Option<Tensor>): (r: Result<RunView>)
    ensures r.Success? <==> 0 <= v.counter + 1 < |v.values|
    ensures r.Success? ==> r.value == v.(values := v.values[v.counter + 1 := t])
  {
    var values :- Store(v.values, v.counter + 1, t);
    Success(v.(values := values))
  }

  /** Setting `InputError` replaces error slot `counter` and nothing else. */
  function WithInputError(v: RunView, t: Option<Tensor>): (r: Result<RunView>)
    ensures r.Success? <==> 0 <= v.counter < |v.errors|
    ensures r.Success? ==> r.value == v.(errors := v.errors[v.counter := t])
  {
    var errors :- Store(v.errors, v.counter, t);
    Success(v.(errors := errors))
  }

  /** Setting `OutputError` replaces error slot `counter + 1` and nothing else. */
  function WithOutputError(v: RunView, t: Option<Tensor>): (r: Result<RunView>)
    ensures r.Success? <==> 0 <= v.counter + 1 < |v.errors|
    ensures r.Success? ==> r.value == v.(errors := v.errors[v.counter + 1 := t])
  {
    var errors :- Store(v.errors, v.counter + 1, t);
    Success(v.(errors := errors))
  }

  /** Setting `WeightsDelta` replaces delta slot `counter` and nothing else. */
  function WithWeightsDelta(v: RunView, m: Option<Matrix>): (r: Result<RunView>)
    ensures r.Success? <==> 0 <= v.counter < |v.deltas|
    ensures r.Success? ==> r.value == v.(deltas := v.deltas[v.counter := m])
  {
    var deltas :- Store(v.deltas, v.counter, m);
    Success(v.(deltas := deltas))
  }

  /** The output seen at one cursor position is the input seen at the next, for values
    * and for errors alike. */
  lemma OutputIsNextInput(v: RunView)
    ensures OutputOf(v) == InputOf(v.(counter := v.counter + 1))
    ensures OutputErrorOf(v) == InputErrorOf(v.(counter := v.counter + 1))
  {
  }

  /** What is stored through a slot is read back through it, and the other slots keep
    * what they held. */
  lemma StoreThenRead(v: RunView, t: Option<Tensor>)
    requires WithOutput(v, t).Success?
    ensures OutputOf(WithOutput(v, t).value) == Success(t)
    ensures InputOf(WithOutput(v, t).value) == InputOf(v)
    ensures InputErrorOf(WithOutput(v, t).value) == InputErrorOf(v)
    ensures OutputErrorOf(WithOutput(v, t).value) == OutputErrorOf(v)
    ensures WeightsDeltaOf(WithOutput(v, t).value) == WeightsDeltaOf(v)
  {
  }

  // ---------------------------------------------------------------- Combine

  /** One step of the `Combine` loop: an absent delta takes the other run's delta (absent
    * or not); a present one is added to the other's, which dereferences a null other
    * delta and is refused by the matrix library for a different shape. */
  function CombineDelta(mine: Option<Matrix>, theirs: Option<Matrix>): (r: Result<Option<Matrix>>)
    ensures mine.None? ==> r == Success(theirs)
    ensures mine.Some? && theirs.None? ==> r == Failure(NullReference)
    ensures mine.Some? && theirs.Some? ==>
      (r.Success? <==> SameShape(mine.value, theirs.value)) &&
      (r.Success? ==> r.value == Some(AddSame(mine.value, theirs.value)))
  {
    if mine.None? then Success(theirs)
    else if theirs.None? then Failure(NullReference)
    else
      var sum :- Add(mine.value, theirs.value);
      Success(Some(sum))
  }

  /** The deltas after the first `n` steps of the `Combine` loop, which runs over the other
    * run's deltas: step `i` combines slot `i` of both, and a step past the end of this
    * run's deltas is a range error. */
  function CombinedUpTo(mine: seq<Option<Matrix>>, theirs: seq<Option<Matrix>>, n: nat): (r: Result<seq<Option<Matrix>>>)
    requires n <= |theirs|
    ensures r.Success? ==> n <= |mine| && |r.value| == |mine|
    ensures r.Success? ==> forall k | n <= k < |mine| :: r.value[k] == mine[k]
    decreases n
  {
    if n == 0 then Success(mine)
    else
      var prev :- CombinedUpTo(mine, theirs, n - 1);
      if n - 1 >= |prev| then Failure(IndexOutOfRange)
      else
        var d :- CombineDelta(prev[n - 1], theirs[n - 1]);
        Success(prev[n - 1 := d])
  }

  /** The loop succeeds exactly when every step it takes lies inside this run's deltas and
    * combines, and then slot `k` is the combination of the two slots `k`. */
  lemma {:induction false} CombinedUpToCharacterised(mine: seq<Option<Matrix>>, theirs: seq<Option<Matrix>>, n: nat)
    requires n <= |theirs|
    ensures CombinedUpTo(mine, theirs, n).Success? <==>
      n <= |mine| && forall k | 0 <= k < n :: CombineDelta(mine[k], theirs[k]).Success?
    ensures CombinedUpTo(mine, theirs, n).Success? ==>
      forall k | 0 <= k < n :: CombinedUpTo(mine, theirs, n).value[k] == CombineDelta(mine[k], theirs[k]).value
    decreases n
  {
    if n > 0 {
      CombinedUpToCharacterised(mine, theirs, n - 1);
    }
  }

  /** Once a step of the loop fails, the loop fails with that error. */
  lemma {:induction false} FailurePersists(mine: seq<Option<Matrix>>, theirs: seq<Option<Matrix>>, i: nat, n: nat)
    requires i <= n <= |theirs| && CombinedUpTo(mine, theirs, i).Failure?
    ensures CombinedUpTo(mine, theirs, n) == CombinedUpTo(mine, theirs, i)
    decreases n
  {
    if n > i {
      FailurePersists(mine, theirs, i, n - 1);
    }
  }

  /** `TrainingRun.Combine` on the run's state: the deltas combined slot by slot, the batch
    * sizes and the costs added; the values, the errors and the cursor are kept. */
  function CombineViews(mine: RunView, theirs: RunView): (r: Result<RunView>)
    ensures r.Success? <==> CombinedUpTo(mine.deltas, theirs.deltas, |theirs.deltas|).Success?
    ensures r.Success? ==> r.value == mine.(
      deltas := CombinedUpTo(mine.deltas, theirs.deltas, |theirs.deltas|).value,
      batchSize := mine.batchSize + theirs.batchSize,
      cost := mine.cost + theirs.cost)
  {
    var deltas :- CombinedUpTo(mine.deltas, theirs.deltas, |theirs.deltas|);
    Success(mine.(deltas := deltas, batchSize := mine.batchSize + theirs.batchSize, cost := mine.cost + theirs.cost))
  }

  /** A fresh run absorbs the deltas, batch size and cost of any run with as many layers. */
  lemma CombineIntoFresh(layerCount: nat, theirs: RunView)
    requires |theirs.deltas| == layerCount
    ensures CombineViews(FreshView(layerCount), theirs).Success?
    ensures CombineViews(FreshView(layerCount), theirs).value ==
      FreshView(layerCount).(deltas := theirs.deltas, batchSize := theirs.batchSize, cost := theirs.cost)
  {
    var start := FreshView(layerCount);
    CombinedUpToCharacterised(start.deltas, theirs.deltas, layerCount);
    var ds := CombinedUpTo(start.deltas, theirs.deltas, layerCount).value;
    assert ds == theirs.deltas;
  }

  /** Combining a fresh run changes nothing in a run whose matching deltas are absent; a
    * present delta meets the fresh run's null delta and fails. */
  lemma CombineWithFresh(mine: RunView, layerCount: nat)
    requires layerCount <= |mine.deltas|
    ensures CombineViews(mine, FreshView(layerCount)).Success? <==>
      forall k | 0 <= k < layerCount :: mine.deltas[k].None?
    ensures CombineViews(mine, FreshView(layerCount)).Success? ==> CombineViews(mine, FreshView(layerCount)).value == mine
    ensures CombineViews(mine, FreshView(layerCount)).Failure? ==>
      CombineViews(mine, FreshView(layerCount)).error == NullReference
  {
    var theirs := FreshView(layerCount).deltas;
    CombinedUpToCharacterised(mine.deltas, theirs, layerCount);
    if CombinedUpTo(mine.deltas, theirs, layerCount).Success? {
      assert CombinedUpTo(mine.deltas, theirs, layerCount).value == mine.deltas;
    } else {
      FirstFailure(mine.deltas, theirs, layerCount);
    }
  }

  /** When the other run's deltas are all absent and the loop fails, it fails on a null. */
  lemma {:induction false} FirstFailure(mine: seq<Option<Matrix>>, theirs: seq<Option<Matrix>>, n: nat)
    requires n <= |theirs| && n <= |mine|
    requires forall k | 0 <= k < n :: theirs[k].None?
    requires CombinedUpTo(mine, theirs, n).Failure?
    ensures CombinedUpTo(mine, theirs, n).error == NullReference
    decreases n
  {
    if CombinedUpTo(mine, theirs, n - 1).Failure? {
      FirstFailure(mine, theirs, n - 1);
    }
  }

  /** When the two runs have deltas in the same slots, of the same shapes, the order of
    * combination does not change the summed deltas, the batch size or the cost. */
  lemma CombineCommutes(a: RunView, b: RunView)
    requires |a.deltas| == |b.deltas|
    requires forall k | 0 <= k < |a.deltas| :: a.deltas[k].Some? == b.deltas[k].Some?
    requires forall k | 0 <= k < |a.deltas| && a.deltas[k].Some? :: SameShape(a.deltas[k].value, b.deltas[k].value)
    ensures CombineViews(a, b).Success? && CombineViews(b, a).Success?
    ensures CombineViews(a, b).value.deltas == CombineViews(b, a).value.deltas
    ensures CombineViews(a, b).value.batchSize == CombineViews(b, a).value.batchSize
    ensures CombineViews(a, b).value.cost == CombineViews(b, a).value.cost
  {
    var n := |a.deltas|;
    CombinedUpToCharacterised(a.deltas, b.deltas, n);
    CombinedUpToCharacterised(b.deltas, a.deltas, n);
    var ab, ba := CombinedUpTo(a.deltas, b.deltas, n).value, CombinedUpTo(b.deltas, a.deltas, n).value;
    forall k | 0 <= k < n ensures ab[k] == ba[k] {
      if a.deltas[k].Some? {
        Extensionality(AddSame(a.deltas[k].value, b.deltas[k].value), AddSame(b.deltas[k].value, a.deltas[k].value));
      }
    }
  }

  /** A delta exactly in the slots of the weighted layers: what every example's run of one
    * net holds. */
  predicate SlotsLike(deltas: seq<Option<Matrix>>, weights: seq<bool>)
  {
    |deltas| == |weights| && forall k | 0 <= k < |deltas| :: deltas[k].Some? == weights[k]
  }

  /** Deltas a batch can still absorb such runs into: a delta only in the slot of a
    * weighted layer. */
  predicate Accumulable(deltas: seq<Option<Matrix>>, weights: seq<bool>)
  {
    |deltas| == |weights| && forall k | 0 <= k < |deltas| :: deltas[k].Some? ==> weights[k]
  }

  /** Once the loop fails, it fails with the error every failing step would give. */
  lemma {:induction false} FailsWith(mine: seq<Option<Matrix>>, theirs: seq<Option<Matrix>>, n: nat, err: Error)
    requires n <= |theirs| && n <= |mine|
    requires forall k | 0 <= k < n && CombineDelta(mine[k], theirs[k]).Failure? :: CombineDelta(mine[k], theirs[k]).error == err
    requires CombinedUpTo(mine, theirs, n).Failure?
    ensures CombinedUpTo(mine, theirs, n).error == err
    decreases n
  {
    if CombinedUpTo(mine, theirs, n - 1).Failure? {
      FailsWith(mine, theirs, n - 1, err);
    } else {
      CombinedUpToCharacterised(mine, theirs, n - 1);
    }
  }

  /** A run with deltas only for weighted layers absorbs a run with a delta for each of
    * them, or fails because two deltas have different shapes; the result again has
    * deltas only for weighted layers. */
  lemma CombineAccumulates(s: RunView, e: RunView, weights: seq<bool>)
    requires Accumulable(s.deltas, weights) && SlotsLike(e.deltas, weights)
    ensures CombineViews(s, e).Success? ==> SlotsLike(CombineViews(s, e).value.deltas, weights)
    ensures CombineViews(s, e).Success? ==> Accumulable(CombineViews(s, e).value.deltas, weights)
    ensures CombineViews(s, e).Failure? ==> CombineViews(s, e).error == DimensionMismatch
  {
    var n := |weights|;
    CombinedUpToCharacterised(s.deltas, e.deltas, n);
    if CombineViews(s, e).Failure? {
      FailsWith(s.deltas, e.deltas, n, DimensionMismatch);
    }
  }

  /** One slot of three runs combined: `p` into `x`, then `q` into the result. */
  function CombineThree(x: Option<Matrix>, p: Option<Matrix>, q: Option<Matrix>): Result<Option<Matrix>>
  {
    var y :- CombineDelta(x, p);
    CombineDelta(y, q)
  }

  /** In one slot, for deltas present exactly where the layer is weighted, the order of
    * the two later deltas changes nothing: the same sum, or the same shape mismatch. */
  lemma SlotOrderIrrelevant(x: Option<Matrix>, p: Option<Matrix>, q: Option<Matrix>, weighted: bool)
    requires (x.Some? ==> weighted) && p.Some? == weighted && q.Some? == weighted
    ensures CombineThree(x, p, q) == CombineThree(x, q, p)
    ensures CombineThree(x, p, q).Failure? ==> CombineThree(x, p, q).error == DimensionMismatch
  {
    if weighted && CombineThree(x, p, q).Success? {
      if x.None? {
        Extensionality(AddSame(p.value, q.value), AddSame(q.value, p.value));
      } else {
        Extensionality(AddSame(AddSame(x.value, p.value), q.value), AddSame(AddSame(x.value, q.value), p.value));
      }
    }
  }

  /** Three runs combined: `a` into `s`, then `b` into the result. */
  function CombineBoth(s: RunView, a: RunView, b: RunView): Result<RunView>
  {
    var sa :- CombineViews(s, a);
    CombineViews(sa, b)
  }

  /** Three runs combine slot by slot: they succeed exactly when every slot does, with
    * every slot's combination, and otherwise fail on a shape mismatch. */
  lemma CombineBothSlotwise(s: RunView, a: RunView, b: RunView, weights: seq<bool>)
    requires Accumulable(s.deltas, weights) && SlotsLike(a.deltas, weights) && SlotsLike(b.deltas, weights)
    ensures CombineBoth(s, a, b).Success? <==>
      forall k | 0 <= k < |weights| :: CombineThree(s.deltas[k], a.deltas[k], b.deltas[k]).Success?
    ensures CombineBoth(s, a, b).Success? ==>
      |CombineBoth(s, a, b).value.deltas| == |weights| &&
      forall k | 0 <= k < |weights| :: CombineBoth(s, a, b).value.deltas[k] == CombineThree(s.deltas[k], a.deltas[k], b.deltas[k]).value
    ensures CombineBoth(s, a, b).Success? ==>
      CombineBoth(s, a, b).value == s.(deltas := CombineBoth(s, a, b).value.deltas,
        batchSize := s.batchSize + a.batchSize + b.batchSize, cost := s.cost + a.cost + b.cost)
    ensures CombineBoth(s, a, b).Failure? ==> CombineBoth(s, a, b).error == DimensionMismatch
  {
    var n := |weights|;
    CombineAccumulates(s, a, weights);
    CombinedUpToCharacterised(s.deltas, a.deltas, n);
    if CombineViews(s, a).Success? {
      var sa := CombineViews(s, a).value;
      CombineAccumulates(sa, b, weights);
      CombinedUpToCharacterised(sa.deltas, b.deltas, n);
    }
  }

  /** Runs with deltas for the same weighted layers combine into a run in either order
    * with the same outcome: the same summed deltas, batch size and cost, with the rest of
    * the receiving run kept, or the same shape mismatch. */
  lemma CombineOrderIrrelevant(s: RunView, a: RunView, b: RunView, weights: seq<bool>)
    requires Accumulable(s.deltas, weights) && SlotsLike(a.deltas, weights) && SlotsLike(b.deltas, weights)
    ensures CombineBoth(s, a, b) == CombineBoth(s, b, a)
  {
    var n := |weights|;
    CombineBothSlotwise(s, a, b, weights);
    CombineBothSlotwise(s, b, a, weights);
    forall k | 0 <= k < n ensures CombineThree(s.deltas[k], a.deltas[k], b.deltas[k]) == CombineThree(s.deltas[k], b.deltas[k], a.deltas[k]) {
      SlotOrderIrrelevant(s.deltas[k], a.deltas[k], b.deltas[k], weights[k]);
    }
    if CombineBoth(s, a, b).Success? {
      assert CombineBoth(s, a, b).value.deltas == CombineBoth(s, b, a).value.deltas;
    }
  }

  // ---------------------------------------------------------------- the run as an object

  /** `TrainingRun`: three arrays of slots fixed at construction and addressed through the
    * cursor, plus the batch size and cost that `Combine` accumulates. */
  class TrainingRun {
    const values: array<Option<Tensor>>
    const errors: array<Option<Tensor>>
    const weightsDeltas: array<Option<Matrix>>
    var counter: int
    var batchSize: int
    var cost: real

    /** The value and error slots are two arrays. */
    ghost predicate Valid()
      reads this
    {
      values != errors
    }

    function View(): RunView
      reads this, values, errors, weightsDeltas
    {
      RunView(values[..], errors[..], weightsDeltas[..], counter, batchSize, cost)
    }

    /** `new TrainingRun(layerCount)`. */
    constructor (layerCount: nat)
      ensures Valid() && fresh(values) && fresh(errors) && fresh(weightsDeltas)
      ensures View() == FreshView(layerCount)
    {
      values := new Option<Tensor>[layerCount + 1](_ => None);
      errors := new Option<Tensor>[layerCount + 1](_ => None);
      weightsDeltas := new Option<Matrix>[layerCount](_ => None);
      counter, batchSize, cost := 0, 0, 0.0;
    }

    /** The `Input` property. */
    function Input(): (r: Result<Option<Tensor>>)
      reads this, values, errors, weightsDeltas
      ensures r == InputOf(View())
    {
      if 0 <= counter < values.Length then Success(values[counter]) else Failure(IndexOutOfRange)
    }

    /** The `Output` property. */
    function Output(): (r: Result<Option<Tensor>>)
      reads this, values, errors, weightsDeltas
      ensures r == OutputOf(View())
    {
      if 0 <= counter + 1 < values.Length then Success(values[counter + 1]) else Failure(IndexOutOfRange)
    }

    /** The `OutputError` property. */
    function OutputError(): (r: Result<Option<Tensor>>)
      reads this, values, errors, weightsDeltas
      ensures r == OutputErrorOf(View())
    {
      if 0 <= counter + 1 < errors.Length then Success(errors[counter + 1]) else Failure(IndexOutOfRange)
    }

    method SetInput(t: Option<Tensor>) returns (o: Outcome)
      requires Valid()
      modifies values
      ensures o.Pass? <==> WithInput(old(View()), t).Success?
      ensures o.Pass? ==> View() == WithInput(old(View()), t).value
      ensures o.Fail? ==> o.error == IndexOutOfRange && View() == old(View())
    {
      if !(0 <= counter < values.Length) {
        return Fail(IndexOutOfRange);
      }
      values[counter] := t;
      o := Pass;
    }

    method SetOutput(t: Option<Tensor>) returns (o: Outcome)
      requires Valid()
      modifies values
      ensures o.Pass? <==> WithOutput(old(View()), t).Success?
      ensures o.Pass? ==> View() == WithOutput(old(View()), t).value
      ensures o.Fail? ==> o.error == IndexOutOfRange && View() == old(View())
    {
      if !(0 <= counter + 1 < values.Length) {
        return Fail(IndexOutOfRange);
      }
      values[counter + 1] := t;
      o := Pass;
    }

    method SetInputError(t: Option<Tensor>) returns (o: Outcome)
      requires Valid()
      modifies errors
      ensures o.Pass? <==> WithInputError(old(View()), t).Success?
      ensures o.Pass? ==> View() == WithInputError(old(View()), t).value
      ensures o.Fail? ==> o.error == IndexOutOfRange && View() == old(View())
    {
      if !(0 <= counter < errors.Length) {
        return Fail(IndexOutOfRange);
      }
      errors[counter] := t;
      o := Pass;
    }

    method SetOutputError(t: Option<Tensor>) returns (o: Outcome)
      requires Valid()
      modifies errors
      ensures o.Pass? <==> WithOutputError(old(View()), t).Success?
      ensures o.Pass? ==> View() == WithOutputError(old(View()), t).value
      ensures o.Fail? ==> o.error == IndexOutOfRange && View() == old(View())
    {
      if !(0 <= counter + 1 < errors.Length) {
        return Fail(IndexOutOfRange);
      }
      errors[counter + 1] := t;
      o := Pass;
    }

    method SetWeightsDelta(m: Option<Matrix>) returns (o: Outcome)
      modifies weightsDeltas
      ensures o.Pass? <==> WithWeightsDelta(old(View()), m).Success?
      ensures o.Pass? ==> View() == WithWeightsDelta(old(View()), m).value
      ensures o.Fail? ==> o.error == IndexOutOfRange && View() == old(View())
    {
      if !(0 <= counter < weightsDeltas.Length) {
        return Fail(IndexOutOfRange);
      }
      weightsDeltas[counter] := m;
      o := Pass;
    }

    /** `Combine`: folds the other run into this one in place. The other run may be this
      * run itself; its deltas are then read before the same step overwrites them. A
      * failing step leaves the earlier steps' writes in place. */
    method Combine(other: TrainingRun) returns (o: Outcome)
      modifies this, weightsDeltas
      ensures o.Pass? <==> CombineViews(old(View()), old(other.View())).Success?
      ensures o.Pass? ==> View() == CombineViews(old(View()), old(other.View())).value
      ensures o.Fail? ==> o.error == CombinedUpTo(old(weightsDeltas[..]), old(other.weightsDeltas[..]), other.weightsDeltas.Length).error
      ensures counter == old(counter)
      ensures other.weightsDeltas != weightsDeltas ==> other.weightsDeltas[..] == old(other.weightsDeltas[..])
    {
      ghost var mine, theirs := weightsDeltas[..], other.weightsDeltas[..];
      var i := 0;
      while i < other.weightsDeltas.Length
        invariant 0 <= i <= other.weightsDeltas.Length
        invariant CombinedUpTo(mine, theirs, i).Success?
        invariant weightsDeltas[..] == CombinedUpTo(mine, theirs, i).value
        invariant forall k | i <= k < other.weightsDeltas.Length :: other.weightsDeltas[k] == theirs[k]
        invariant counter == old(counter) && batchSize == old(batchSize) && cost == old(cost)
        invariant other.batchSize == old(other.batchSize) && other.cost == old(other.cost)
      {
        if i >= weightsDeltas.Length {
          FailurePersists(mine, theirs, i + 1, |theirs|);
          return Fail(IndexOutOfRange);
        }
        var d := CombineDelta(weightsDeltas[i], other.weightsDeltas[i]);
        if d.Failure? {
          FailurePersists(mine, theirs, i + 1, |theirs|);
          return Fail(d.error);
        }
        weightsDeltas[i] := d.value;
        i := i + 1;
      }
      batchSize := batchSize + other.batchSize;
      cost := cost + other.cost;
      o := Pass;
    }
  }

  /** The state of the run a computation returned, or its error. */
  ghost function Viewed(r: Result<TrainingRun>): (w: Result<RunView>)
    reads if r.Success? then {r.value, r.value.values, r.value.errors, r.value.weightsDeltas} else {}
    ensures w.Success? <==> r.Success?
    ensures r.Failure? ==> w.error == r.error
  {
    if r.Success? then Success(r.value.View()) else Failure(r.error)
  }
}
