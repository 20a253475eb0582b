/** `Trainer`: trains a net by gradient descent. One example runs forwards through the net,
  * has its cost and cost gradient computed on the last output, and runs backwards; a
  * batch combines the runs of its examples and applies the combined deltas to the net's
  * weights; training repeats the batch for a number of epochs and reports the cost per
  * example after each. The natural logarithm of the cross-entropy cost is the trainer's
  * parameter `log`; cancellation is the question `cancelled(i)` asked before epoch `i`. */
module Trainers {
  import opened Wrappers
  import opened Matrices
  import opened Tensors
  import opened CostFunctions
  import opened TrainingRuns
  import opened Layers
  import opened Nets

  // ---------------------------------------------------------------- one example

  /** What `Trainer.Train(input, output)` does between the passes: the cost of the run's
    * output against the desired output `y`, summed, becomes the run's cost, and the cost
    * gradient becomes the run's output error. The output is read through the cursor
    * (outside the run on a net without layers), a missing output is dereferenced, and the
    * cost function may refuse the pair. */
  function Scored(v: RunView, cf: CostFunction, log: real -> real, y: Tensor): (r: Result<RunView>)
    ensures OutputOf(v).Failure? ==> r == Failure(IndexOutOfRange)
    ensures OutputOf(v) == Success(None) ==> r == Failure(NullReference)
    ensures r.Success? ==>
      OutputOf(v).Success? && OutputOf(v).value.Some? &&
      var h := OutputOf(v).value.value.value;
      CalcCost(cf, h, y.value, log).Success? && CalcCostGradient(cf, h, y.value).Success? &&
      0 <= v.counter + 1 < |v.errors| &&
      r.value == v.(cost := Sum(CalcCost(cf, h, y.value, log).value),
                    errors := v.errors[v.counter + 1 := Some(FromVector(CalcCostGradient(cf, h, y.value).value))])
  {
    var h :- OutputOf(v);
    if h.None? then Failure(NullReference)
    else
      var c :- CalcCost(cf, h.value.value, y.value, log);
      var g :- CalcCostGradient(cf, h.value.value, y.value);
      WithOutputError(v.(cost := Sum(c)), Some(FromVector(g)))
  }

  /** The run after the forward pass and the scoring. */
  function Forwarded(forward: ForwardPass, vs: seq<LayerValue>, cf: CostFunction, log: real -> real,
                     x: Tensor, y: Tensor): Result<RunView>
  {
    var t :- Trace(forward, vs, x, |vs|);
    Scored(TrainingView(|vs|, t, |vs|), cf, log, y)
  }

  /** The run `Trainer.Train(input, output)` returns, on the state of the net's layers:
    * the forward pass recorded, scored, then the backward pass. The trainer runs it with
    * `Layers.FeedForwards` and `Layers.Backward`; the lemmas hold for any passes. */
  function ExampleRun(forward: ForwardPass, backward: BackwardPass, vs: seq<LayerValue>,
                      cf: CostFunction, log: real -> real, x: Tensor, y: Tensor): Result<RunView>
  {
    var v :- Forwarded(forward, vs, cf, log, x, y);
    BackwardFrom(backward, vs, v, |vs|)
  }

  /** The cost of one example, defined on the net's output alone: the summed cost of what
    * the net computes from `x` against `y`. */
  function ExampleCost(forward: ForwardPass, vs: seq<LayerValue>, cf: CostFunction, log: real -> real,
                       x: Tensor, y: Tensor): Result<real>
  {
    var h :- ForwardFold(forward, vs, x);
    var c :- CalcCost(cf, h.value, y.value, log);
    Success(Sum(c))
  }

  /** A net without layers cannot be trained: its run has no output slot. */
  lemma ExampleRunOnEmptyNet(forward: ForwardPass, backward: BackwardPass, cf: CostFunction, log: real -> real,
                             x: Tensor, y: Tensor)
    ensures ExampleRun(forward, backward, [], cf, log, x, y) == Failure(IndexOutOfRange)
  {
    assert Trace(forward, [], x, 0) == Success([x]);
  }

  /** What the forward pass and the scoring leave: every value the forward pass computed,
    * the last being the net's output, the cost of that output, its cost gradient as the
    * last error and no other error or delta yet, a batch of one and the cursor on the
    * last layer. */
  lemma ForwardedEffect(forward: ForwardPass, vs: seq<LayerValue>, cf: CostFunction, log: real -> real,
                        x: Tensor, y: Tensor)
    requires Forwarded(forward, vs, cf, log, x, y).Success?
    ensures vs != [] && ForwardFold(forward, vs, x).Success? && ExampleCost(forward, vs, cf, log, x, y).Success?
    ensures var v := Forwarded(forward, vs, cf, log, x, y).value;
      v.batchSize == 1 && v.counter == |vs| - 1 && v.cost == ExampleCost(forward, vs, cf, log, x, y).value &&
      |v.values| == |v.errors| == |vs| + 1 && |v.deltas| == |vs|
    ensures var v := Forwarded(forward, vs, cf, log, x, y).value;
      v.values[0] == Some(x) && v.values[|vs|] == Some(ForwardFold(forward, vs, x).value)
    ensures var v := Forwarded(forward, vs, cf, log, x, y).value;
      forall k | 0 <= k < |vs| :: v.values[k].Some? && forward(vs[k], v.values[k]) == Success(v.values[k + 1].value)
    ensures var v, h := Forwarded(forward, vs, cf, log, x, y).value, ForwardFold(forward, vs, x).value;
      CalcCostGradient(cf, h.value, y.value).Success? &&
      v.errors[|vs|] == Some(FromVector(CalcCostGradient(cf, h.value, y.value).value))
    ensures var v := Forwarded(forward, vs, cf, log, x, y).value;
      forall k | 0 <= k < |vs| :: v.deltas[k].None?
  {
    var n := |vs|;
    var t := Trace(forward, vs, x, n).value;
    TraceEndsInForwardFold(forward, vs, x, n);
    assert vs[..n] == vs;
    if n == 0 {
      assert false;
    }
    var v := Forwarded(forward, vs, cf, log, x, y).value;
    forall k | 0 <= k < n
      ensures v.values[k].Some? && forward(vs[k], v.values[k]) == Success(v.values[k + 1].value)
    {
      assert vs[k] == vs[k];
    }
  }

  /** A trained example's run, for a backward pass with the layers' effect: what the
    * forward pass and the scoring left, with an error for every slot, a delta exactly for
    * every weighted layer and the cursor back on layer 0. */
  lemma ExampleRunEffect(forward: ForwardPass, backward: BackwardPass, vs: seq<LayerValue>,
                         cf: CostFunction, log: real -> real, x: Tensor, y: Tensor)
    requires forall l, u | backward(l, u).Success? :: BackwardEffect(l, u, backward(l, u).value)
    requires ExampleRun(forward, backward, vs, cf, log, x, y).Success?
    ensures Forwarded(forward, vs, cf, log, x, y).Success?
    ensures var v, r := Forwarded(forward, vs, cf, log, x, y).value, ExampleRun(forward, backward, vs, cf, log, x, y).value;
      r.values == v.values && r.batchSize == v.batchSize && r.cost == v.cost && r.counter == 0 &&
      |r.errors| == |v.errors| && |r.deltas| == |v.deltas| && r.errors[|vs|] == v.errors[|vs|]
    ensures var r := ExampleRun(forward, backward, vs, cf, log, x, y).value;
      forall k | 0 <= k < |r.errors| :: r.errors[k].Some?
    ensures var r := ExampleRun(forward, backward, vs, cf, log, x, y).value;
      forall k | 0 <= k < |vs| :: r.deltas[k].Some? <==> vs[k].WeightedValue?
  {
    ForwardedEffect(forward, vs, cf, log, x, y);
    var v := Forwarded(forward, vs, cf, log, x, y).value;
    BackwardFromEffect(backward, vs, v, |vs|);
  }

  // ---------------------------------------------------------------- one batch

  /** A training example: an input and the output desired for it. */
  type Example = (Tensor, Tensor)

  /** One example's training as the batch sees it. */
  type ExamplePass = Example -> Result<RunView>

  /** `Trainer.Train(input, output)` on a net whose layers are `vs`. */
  function Trainee(forward: ForwardPass, backward: BackwardPass, vs: seq<LayerValue>, cf: CostFunction,
                   log: real -> real): ExamplePass
  {
    (e: Example) => ExampleRun(forward, backward, vs, cf, log, e.0, e.1)
  }

  /** The cost of every example on a net whose layers are `vs`, 0 where it has none. */
  function Costs(forward: ForwardPass, vs: seq<LayerValue>, cf: CostFunction, log: real -> real): Example -> real
  {
    (e: Example) => var c := ExampleCost(forward, vs, cf, log, e.0, e.1); if c.Success? then c.value else 0.0
  }

  /** Which layers are weighted. */
  function Weights(vs: seq<LayerValue>): (ws: seq<bool>)
    ensures |ws| == |vs| && forall k | 0 <= k < |vs| :: ws[k] == vs[k].WeightedValue?
  {
    seq(|vs|, k requires 0 <= k < |vs| => vs[k].WeightedValue?)
  }

  /** What every trained example's run has in common: a batch of one, the cursor on layer
    * 0, a slot for every layer and a delta exactly for the weighted ones. */
  predicate Shaped(v: RunView, weights: seq<bool>)
  {
    v.batchSize == 1 && v.counter == 0 &&
    |v.values| == |v.errors| == |weights| + 1 && |v.deltas| == |weights| &&
    forall k | 0 <= k < |weights| :: v.deltas[k].Some? <==> weights[k]
  }

  /** Every example the net trains has that shape and costs what its output costs. */
  lemma TraineeShaped(forward: ForwardPass, backward: BackwardPass, vs: seq<LayerValue>, cf: CostFunction,
                      log: real -> real)
    requires forall l, u | backward(l, u).Success? :: BackwardEffect(l, u, backward(l, u).value)
    ensures forall e | Trainee(forward, backward, vs, cf, log)(e).Success? ::
      Shaped(Trainee(forward, backward, vs, cf, log)(e).value, Weights(vs)) &&
      Trainee(forward, backward, vs, cf, log)(e).value.cost == Costs(forward, vs, cf, log)(e)
  {
    forall e | Trainee(forward, backward, vs, cf, log)(e).Success?
      ensures Shaped(Trainee(forward, backward, vs, cf, log)(e).value, Weights(vs))
      ensures Trainee(forward, backward, vs, cf, log)(e).value.cost == Costs(forward, vs, cf, log)(e)
    {
      ExampleRunEffect(forward, backward, vs, cf, log, e.0, e.1);
      ForwardedEffect(forward, vs, cf, log, e.0, e.1);
    }
  }

  /** The run `TrainBatch` aggregates from the first `n` examples: a fresh run for the
    * net's layers, into which every example's run is combined in turn. The first example
    * that fails, or the first combination that fails, stops the batch. */
  function BatchRun(example: ExamplePass, layerCount: nat, batch: seq<Example>, n: nat): Result<RunView>
    requires n <= |batch|
    decreases n
  {
    if n == 0 then Success(FreshView(layerCount))
    else
      var acc :- BatchRun(example, layerCount, batch, n - 1);
      var e :- example(batch[n - 1]);
      CombineViews(acc, e)
  }

  /** Once the batch has failed, later examples do not change its error. */
  lemma {:induction false} BatchRunFailurePersists(example: ExamplePass, layerCount: nat, batch: seq<Example>, i: nat, n: nat)
    requires i <= n <= |batch| && BatchRun(example, layerCount, batch, i).Failure?
    ensures BatchRun(example, layerCount, batch, n) == BatchRun(example, layerCount, batch, i)
    decreases n
  {
    if n > i {
      BatchRunFailurePersists(example, layerCount, batch, i, n - 1);
    }
  }

  /** The first `n` examples' costs added up. */
  function TotalCost(cost: Example -> real, batch: seq<Example>, n: nat): real
    requires n <= |batch|
    decreases n
  {
    if n == 0 then 0.0 else TotalCost(cost, batch, n - 1) + cost(batch[n - 1])
  }

  /** For examples of that shape, an aggregated batch of `n` examples counts `n`
    * examples, costs the sum of their costs, keeps the fresh run's empty values and
    * errors and its cursor, and holds a delta exactly for every weighted layer once one
    * example has run. */
  lemma {:induction false} BatchRunTotals(example: ExamplePass, cost: Example -> real, weights: seq<bool>,
                                          batch: seq<Example>, n: nat)
    requires forall e | example(e).Success? :: Shaped(example(e).value, weights) && example(e).value.cost == cost(e)
    requires n <= |batch| && BatchRun(example, |weights|, batch, n).Success?
    ensures var r := BatchRun(example, |weights|, batch, n).value;
      r.batchSize == n && r.cost == TotalCost(cost, batch, n) && r.counter == 0 &&
      r.values == FreshView(|weights|).values && r.errors == FreshView(|weights|).errors && |r.deltas| == |weights|
    ensures var r := BatchRun(example, |weights|, batch, n).value;
      forall k | 0 <= k < |weights| :: r.deltas[k].Some? <==> n > 0 && weights[k]
    decreases n
  {
    if n > 0 {
      BatchRunTotals(example, cost, weights, batch, n - 1);
      var acc := BatchRun(example, |weights|, batch, n - 1).value;
      var e := example(batch[n - 1]).value;
      assert Shaped(e, weights);
      CombinedUpToCharacterised(acc.deltas, e.deltas, |weights|);
    }
  }

  /** The aggregate of the first `n` examples depends on those examples alone. */
  lemma {:induction false} BatchRunOfPrefix(example: ExamplePass, layerCount: nat, batch: seq<Example>,
                                            other: seq<Example>, n: nat)
    requires n <= |batch| && n <= |other|
    requires forall k | 0 <= k < n :: batch[k] == other[k]
    ensures BatchRun(example, layerCount, batch, n) == BatchRun(example, layerCount, other, n)
    decreases n
  {
    if n > 0 {
      BatchRunOfPrefix(example, layerCount, batch, other, n - 1);
    }
  }

  /** Every example of the batch trains on its own. */
  predicate AllTrain(example: ExamplePass, batch: seq<Example>)
  {
    forall k | 0 <= k < |batch| :: example(batch[k]).Success?
  }

  /** A batch aggregates only when every one of its examples trains, and for examples
    * whose runs hold a delta exactly for every weighted layer, its deltas are only for
    * weighted layers. */
  lemma {:induction false} BatchRunAccumulates(example: ExamplePass, weights: seq<bool>, batch: seq<Example>, n: nat)
    requires forall e | example(e).Success? :: SlotsLike(example(e).value.deltas, weights)
    requires n <= |batch|
    ensures BatchRun(example, |weights|, batch, n).Success? ==> forall k | 0 <= k < n :: example(batch[k]).Success?
    ensures BatchRun(example, |weights|, batch, n).Success? ==>
      Accumulable(BatchRun(example, |weights|, batch, n).value.deltas, weights)
    decreases n
  {
    if n > 0 {
      BatchRunAccumulates(example, weights, batch, n - 1);
      var acc := BatchRun(example, |weights|, batch, n - 1);
      if acc.Success? && example(batch[n - 1]).Success? {
        CombineAccumulates(acc.value, example(batch[n - 1]).value, weights);
      }
    }
  }

  /** The batch with examples `i` and `i + 1` exchanged. */
  function Swapped(batch: seq<Example>, i: nat): (b: seq<Example>)
    requires i + 1 < |batch|
    ensures |b| == |batch| && b[i] == batch[i + 1] && b[i + 1] == batch[i]
    ensures forall k | 0 <= k < |batch| && k != i && k != i + 1 :: b[k] == batch[k]
  {
    batch[i := batch[i + 1]][i + 1 := batch[i]]
  }

  /** Two more examples that train are combined into the batch so far in turn. */
  lemma BatchRunTwoMore(example: ExamplePass, layerCount: nat, batch: seq<Example>, i: nat)
    requires i + 1 < |batch| && BatchRun(example, layerCount, batch, i).Success?
    requires example(batch[i]).Success? && example(batch[i + 1]).Success?
    ensures BatchRun(example, layerCount, batch, i + 2) ==
      CombineBoth(BatchRun(example, layerCount, batch, i).value, example(batch[i]).value, example(batch[i + 1]).value)
  {
  }

  /** Exchanging the last two of the first `i + 2` examples changes nothing. */
  lemma SwapLast(example: ExamplePass, weights: seq<bool>, batch: seq<Example>, i: nat)
    requires forall e | example(e).Success? :: SlotsLike(example(e).value.deltas, weights)
    requires i + 1 < |batch|
    ensures BatchRun(example, |weights|, Swapped(batch, i), i + 2).Success? <==>
      BatchRun(example, |weights|, batch, i + 2).Success?
    ensures example(batch[i]).Success? && example(batch[i + 1]).Success? ==>
      BatchRun(example, |weights|, Swapped(batch, i), i + 2) == BatchRun(example, |weights|, batch, i + 2)
  {
    var sw := Swapped(batch, i);
    BatchRunOfPrefix(example, |weights|, batch, sw, i);
    var acc := BatchRun(example, |weights|, batch, i);
    if acc.Success? && example(batch[i]).Success? && example(batch[i + 1]).Success? {
      BatchRunAccumulates(example, weights, batch, i);
      BatchRunTwoMore(example, |weights|, batch, i);
      BatchRunTwoMore(example, |weights|, sw, i);
      CombineOrderIrrelevant(acc.value, example(batch[i]).value, example(batch[i + 1]).value, weights);
    }
  }

  /** `TrainBatch` runs its examples in parallel, so the aggregate may see them in any
    * order. For examples whose runs hold a delta exactly for every weighted layer, the
    * order does not matter: exchanging two neighbouring examples of a batch neither makes
    * it fail nor succeed, and when the examples train the aggregate is the same run, with
    * the same summed deltas, batch size and cost, or the same shape mismatch. */
  lemma {:induction false} BatchRunSwap(example: ExamplePass, weights: seq<bool>, batch: seq<Example>, i: nat, n: nat)
    requires forall e | example(e).Success? :: SlotsLike(example(e).value.deltas, weights)
    requires i + 1 < n <= |batch|
    ensures BatchRun(example, |weights|, Swapped(batch, i), n).Success? <==> BatchRun(example, |weights|, batch, n).Success?
    ensures (forall k | 0 <= k < n :: example(batch[k]).Success?) ==>
      BatchRun(example, |weights|, Swapped(batch, i), n) == BatchRun(example, |weights|, batch, n)
    decreases n
  {
    if n > i + 2 {
      BatchRunSwap(example, weights, batch, i, n - 1);
      assert Swapped(batch, i)[n - 1] == batch[n - 1];
      BatchRunAccumulates(example, weights, batch, n - 1);
    } else {
      SwapLast(example, weights, batch, i);
    }
  }

  /** Exchanging two neighbouring examples keeps every example of the batch. */
  lemma AllTrainSwapped(example: ExamplePass, batch: seq<Example>, i: nat)
    requires i + 1 < |batch| && AllTrain(example, batch)
    ensures AllTrain(example, Swapped(batch, i))
  {
    var sw := Swapped(batch, i);
    forall k | 0 <= k < |sw| ensures example(sw[k]).Success? {
      if k == i {
        assert sw[k] == batch[i + 1];
      } else if k == i + 1 {
        assert sw[k] == batch[i];
      } else {
        assert sw[k] == batch[k];
      }
    }
  }

  /** Moving example `j` of a batch to its end changes nothing, by a run of exchanges. */
  lemma {:induction false} MoveToEnd(example: ExamplePass, weights: seq<bool>, batch: seq<Example>, j: nat)
    requires forall e | example(e).Success? :: SlotsLike(example(e).value.deltas, weights)
    requires j < |batch|
    ensures var moved := batch[..j] + batch[j + 1..] + [batch[j]];
      BatchRun(example, |weights|, moved, |moved|).Success? <==> BatchRun(example, |weights|, batch, |batch|).Success?
    ensures var moved := batch[..j] + batch[j + 1..] + [batch[j]];
      AllTrain(example, batch) ==> BatchRun(example, |weights|, moved, |moved|) == BatchRun(example, |weights|, batch, |batch|)
    decreases |batch| - j
  {
    if j == |batch| - 1 {
      assert batch[..j] + batch[j + 1..] + [batch[j]] == batch;
    } else {
      var sw := Swapped(batch, j);
      BatchRunSwap(example, weights, batch, j, |batch|);
      MoveToEnd(example, weights, sw, j + 1);
      if AllTrain(example, batch) {
        AllTrainSwapped(example, batch, j);
      }
      assert sw[..j + 1] + sw[j + 2..] + [sw[j + 1]] == batch[..j] + batch[j + 1..] + [batch[j]];
    }
  }

  /** Taking one example out of each of two rearrangements of a batch, the last of the
    * second and an equal one of the first, leaves rearrangements. */
  lemma RemoveMatching(batch: seq<Example>, other: seq<Example>, j: nat)
    requires multiset(batch) == multiset(other) && |other| > 0
    requires j < |batch| && batch[j] == other[|other| - 1]
    ensures multiset(batch[..j] + batch[j + 1..]) == multiset(other[..|other| - 1])
  {
    var x := batch[j];
    assert batch == batch[..j] + [x] + batch[j + 1..];
    assert multiset(batch) == multiset(batch[..j]) + multiset{x} + multiset(batch[j + 1..]);
    assert other == other[..|other| - 1] + [x];
    assert multiset(other) == multiset(other[..|other| - 1]) + multiset{x};
    assert multiset(batch[..j] + batch[j + 1..]) == multiset(batch[..j]) + multiset(batch[j + 1..]);
    var mine, theirs := multiset(batch[..j] + batch[j + 1..]), multiset(other[..|other| - 1]);
    assert mine + multiset{x} == theirs + multiset{x};
    forall y ensures mine[y] == theirs[y] {
      assert (mine + multiset{x})[y] == (theirs + multiset{x})[y];
    }
    assert mine == theirs;
  }

  /** Taking an example out keeps the others training. */
  lemma AllTrainRemoved(example: ExamplePass, batch: seq<Example>, j: nat)
    requires j < |batch| && AllTrain(example, batch)
    ensures AllTrain(example, batch[..j] + batch[j + 1..])
  {
    var rest := batch[..j] + batch[j + 1..];
    forall k | 0 <= k < |rest| ensures example(rest[k]).Success? {
      if k < j {
        assert rest[k] == batch[k];
      } else {
        assert rest[k] == batch[k + 1];
      }
    }
  }

  /** Two batches that end in the same example aggregate alike when their other examples
    * do. */
  lemma SameLast(example: ExamplePass, layerCount: nat, batch: seq<Example>, other: seq<Example>)
    requires |batch| == |other| > 0 && batch[|batch| - 1] == other[|other| - 1]
    requires BatchRun(example, layerCount, other, |other| - 1).Success? <==>
      BatchRun(example, layerCount, batch, |batch| - 1).Success?
    requires BatchRun(example, layerCount, batch, |batch| - 1).Success? ==>
      BatchRun(example, layerCount, other, |other| - 1) == BatchRun(example, layerCount, batch, |batch| - 1)
    ensures BatchRun(example, layerCount, other, |other|).Success? <==> BatchRun(example, layerCount, batch, |batch|).Success?
  {
  }

  /** The aggregate of a batch does not depend on the order of its examples. For examples
    * whose runs hold a delta exactly for every weighted layer, any rearrangement of a
    * batch succeeds exactly when the batch does, and when its examples train, the
    * rearrangement aggregates to the same run: the same summed deltas, batch size and
    * cost, or the same shape mismatch. */
  lemma {:induction false} BatchRunPermutation(example: ExamplePass, weights: seq<bool>,
                                               batch: seq<Example>, other: seq<Example>)
    requires forall e | example(e).Success? :: SlotsLike(example(e).value.deltas, weights)
    requires multiset(batch) == multiset(other)
    ensures BatchRun(example, |weights|, other, |other|).Success? <==> BatchRun(example, |weights|, batch, |batch|).Success?
    ensures AllTrain(example, batch) ==>
      BatchRun(example, |weights|, other, |other|) == BatchRun(example, |weights|, batch, |batch|)
    decreases |batch|
  {
    assert |batch| == |multiset(batch)| == |multiset(other)| == |other|;
    if |batch| > 0 {
      var m := |batch|;
      assert other[m - 1] in multiset(other);
      var j :| 0 <= j < m && batch[j] == other[m - 1];
      var rest := batch[..j] + batch[j + 1..];
      var moved := rest + [batch[j]];
      MoveToEnd(example, weights, batch, j);
      RemoveMatching(batch, other, j);
      BatchRunPermutation(example, weights, rest, other[..m - 1]);
      BatchRunOfPrefix(example, |weights|, moved, rest, m - 1);
      BatchRunOfPrefix(example, |weights|, other, other[..m - 1], m - 1);
      BatchRunAccumulates(example, weights, rest, m - 1);
      SameLast(example, |weights|, moved, other);
      if AllTrain(example, batch) {
        AllTrainRemoved(example, batch, j);
        assert moved[m - 1] == other[m - 1];
      }
    }
  }

  /** A sum of costs none of which is negative is not negative. */
  lemma {:induction false} TotalCostNonNegative(cost: Example -> real, batch: seq<Example>, n: nat)
    requires forall e: Example :: cost(e) >= 0.0
    requires n <= |batch|
    ensures TotalCost(cost, batch, n) >= 0.0
    decreases n
  {
    if n > 0 {
      TotalCostNonNegative(cost, batch, n - 1);
    }
  }

  /** An example's quadratic cost is never negative. */
  lemma QuadraticCosts(forward: ForwardPass, vs: seq<LayerValue>, log: real -> real)
    ensures forall e: Example :: Costs(forward, vs, QuadraticCost, log)(e) >= 0.0
  {
    forall e: Example ensures Costs(forward, vs, QuadraticCost, log)(e) >= 0.0 {
      var h := ForwardFold(forward, vs, e.0);
      if h.Success? && |h.value.value| == |e.1.value| {
        QuadraticTotalCost(h.value.value, e.1.value);
      }
    }
  }

  /** The outcome of one batch: the aggregated run and the layers after its training. */
  datatype Batched = Batched(run: RunView, layers: seq<LayerValue>)

  /** `TrainBatch`: the batch aggregated, then its deltas applied to the net's layers. */
  function BatchStep(forward: ForwardPass, backward: BackwardPass, vs: seq<LayerValue>, cf: CostFunction,
                     log: real -> real, learningRate: real, batch: seq<Example>): Result<Batched>
  {
    var run :- BatchRun(Trainee(forward, backward, vs, cf, log), |vs|, batch, |batch|);
    var ws :- Applied(vs, run, learningRate, |vs|);
    Success(Batched(run, ws))
  }

  /** One batch as the epochs see it. */
  type LayerStep = seq<LayerValue> -> Result<Batched>

  /** `TrainBatch` on whatever layers the net has when it runs. */
  function Stepper(forward: ForwardPass, backward: BackwardPass, cf: CostFunction, log: real -> real,
                   learningRate: real, batch: seq<Example>): LayerStep
  {
    (vs: seq<LayerValue>) => BatchStep(forward, backward, vs, cf, log, learningRate, batch)
  }

  /** A trained batch counts its examples and costs their summed costs. */
  lemma BatchStepTotals(forward: ForwardPass, backward: BackwardPass, vs: seq<LayerValue>, cf: CostFunction,
                        log: real -> real, learningRate: real, batch: seq<Example>)
    requires forall l, u | backward(l, u).Success? :: BackwardEffect(l, u, backward(l, u).value)
    requires BatchStep(forward, backward, vs, cf, log, learningRate, batch).Success?
    ensures var b := BatchStep(forward, backward, vs, cf, log, learningRate, batch).value;
      b.run.batchSize == |batch| && b.run.cost == TotalCost(Costs(forward, vs, cf, log), batch, |batch|)
  {
    TraineeShaped(forward, backward, vs, cf, log);
    BatchRunTotals(Trainee(forward, backward, vs, cf, log), Costs(forward, vs, cf, log), Weights(vs), batch, |batch|);
  }

  /** `TrainBatch` does not depend on the order in which the parallel query hands the
    * examples to the aggregate: any rearrangement of the batch trains exactly when the
    * batch does, and when every example trains, it gives the same aggregated run and the
    * same layers. */
  lemma BatchStepOrderIrrelevant(forward: ForwardPass, backward: BackwardPass, vs: seq<LayerValue>, cf: CostFunction,
                                 log: real -> real, learningRate: real, batch: seq<Example>, other: seq<Example>)
    requires forall l, u | backward(l, u).Success? :: BackwardEffect(l, u, backward(l, u).value)
    requires multiset(batch) == multiset(other)
    ensures BatchStep(forward, backward, vs, cf, log, learningRate, other).Success? <==>
      BatchStep(forward, backward, vs, cf, log, learningRate, batch).Success?
    ensures AllTrain(Trainee(forward, backward, vs, cf, log), batch) ==>
      BatchStep(forward, backward, vs, cf, log, learningRate, other) ==
      BatchStep(forward, backward, vs, cf, log, learningRate, batch)
  {
    var example := Trainee(forward, backward, vs, cf, log);
    TraineeShaped(forward, backward, vs, cf, log);
    assert forall e | example(e).Success? :: SlotsLike(example(e).value.deltas, Weights(vs));
    BatchRunPermutation(example, Weights(vs), batch, other);
    BatchRunAccumulates(example, Weights(vs), batch, |batch|);
  }

  /** At learning rate 0 a batch leaves the layers as they were. */
  lemma BatchStepAtRateZero(forward: ForwardPass, backward: BackwardPass, cf: CostFunction, log: real -> real,
                            batch: seq<Example>)
    ensures forall vs | Stepper(forward, backward, cf, log, 0.0, batch)(vs).Success? ::
      Stepper(forward, backward, cf, log, 0.0, batch)(vs).value.layers == vs
  {
    forall vs | Stepper(forward, backward, cf, log, 0.0, batch)(vs).Success?
      ensures Stepper(forward, backward, cf, log, 0.0, batch)(vs).value.layers == vs
    {
      AppliedAtRateZero(vs, BatchRun(Trainee(forward, backward, vs, cf, log), |vs|, batch, |batch|).value);
    }
  }

  /** An empty batch trains only a net without weighted layers, which it leaves as it was,
    * with no example counted and no cost. */
  lemma EmptyBatch(forward: ForwardPass, backward: BackwardPass, vs: seq<LayerValue>, cf: CostFunction,
                   log: real -> real, learningRate: real)
    requires BatchStep(forward, backward, vs, cf, log, learningRate, []).Success?
    ensures forall k | 0 <= k < |vs| :: vs[k].ActivationValue?
    ensures var b := BatchStep(forward, backward, vs, cf, log, learningRate, []).value;
      b.layers == vs && b.run.batchSize == 0 && b.run.cost == 0.0
  {
    var run := FreshView(|vs|);
    var ws := Applied(vs, run, learningRate, |vs|).value;
    forall k | 0 <= k < |vs| ensures vs[k].ActivationValue? && ws[k] == vs[k] {
      assert UpdatedLayer(vs[k], run, learningRate, k) == Success(ws[k]);
    }
  }

  // ---------------------------------------------------------------- epochs

  /** `cost / batchSize` as the single-precision division computes it, on reals: a finite
    * quotient, or for a zero batch size not a number (from 0) or an infinity. */
  datatype Ratio = Finite(value: real) | NotANumber | PositiveInfinity | NegativeInfinity

  function Quotient(cost: real, batchSize: int): (q: Ratio)
    ensures batchSize != 0 ==> q == Finite(cost / batchSize as real)
    ensures batchSize == 0 ==> !q.Finite?
    ensures batchSize == 0 ==> (q.NotANumber? <==> cost == 0.0)
  {
    if batchSize != 0 then Finite(cost / batchSize as real)
    else if cost == 0.0 then NotANumber
    else if cost > 0.0 then PositiveInfinity
    else NegativeInfinity
  }

  /** What the training observable reports: the cost per example after every epoch, then
    * the error that ended the training, or its completion. */
  datatype Event = CostEvent(ratio: Ratio) | ErrorEvent(error: Error) | Completed

  /** The reports of a training and the layers it leaves. */
  datatype Training = Training(events: seq<Event>, layers: seq<LayerValue>)

  /** `Trainer.Train(epochSize, batch, token)` from epoch `i` on: before every epoch the
    * cancellation is asked and stops the training; otherwise the batch is trained and its
    * cost per example reported, and the first failure is reported and ends the training.
    * After the last epoch, or a cancellation, the completion is reported. */
  function Epochs(step: LayerStep, vs: seq<LayerValue>, epochSize: int, cancelled: nat -> bool, i: nat): Training
    decreases epochSize - i
  {
    if i >= epochSize || cancelled(i) then Training([Completed], vs)
    else
      match step(vs)
      case Failure(e) => Training([ErrorEvent(e)], vs)
      case Success(b) =>
        var rest := Epochs(step, b.layers, epochSize, cancelled, i + 1);
        Training([CostEvent(Quotient(b.run.cost, b.run.batchSize))] + rest.events, rest.layers)
  }

  /** Cost reports, then exactly one report that ends the sequence. */
  predicate WellFormed(es: seq<Event>)
  {
    |es| >= 1 && !es[|es| - 1].CostEvent? && forall k | 0 <= k < |es| - 1 :: es[k].CostEvent?
  }

  /** A training reports costs, then its end; at most one cost per remaining epoch; and
    * none from the first cancelled epoch on. */
  lemma {:induction false} EpochsWellFormed(step: LayerStep, vs: seq<LayerValue>, epochSize: int,
                                            cancelled: nat -> bool, i: nat)
    ensures WellFormed(Epochs(step, vs, epochSize, cancelled, i).events)
    ensures |Epochs(step, vs, epochSize, cancelled, i).events| - 1 <= if epochSize - i > 0 then epochSize - i else 0
    ensures forall j | i <= j && cancelled(j) :: |Epochs(step, vs, epochSize, cancelled, i).events| - 1 <= j - i
    decreases epochSize - i
  {
    if !(i >= epochSize || cancelled(i)) && step(vs).Success? {
      var b := step(vs).value;
      EpochsWellFormed(step, b.layers, epochSize, cancelled, i + 1);
      var rest := Epochs(step, b.layers, epochSize, cancelled, i + 1);
      forall j | i <= j && cancelled(j) ensures |rest.events| <= j - i {
        assert j != i;
      }
    }
  }

  /** When every batch counts `n > 0` examples at no negative cost, every reported cost is
    * a finite quotient that is never negative. */
  lemma {:induction false} CostReports(step: LayerStep, n: nat, vs: seq<LayerValue>, epochSize: int,
                                       cancelled: nat -> bool, i: nat)
    requires n > 0
    requires forall ws | step(ws).Success? :: step(ws).value.run.batchSize == n && step(ws).value.run.cost >= 0.0
    ensures var es := Epochs(step, vs, epochSize, cancelled, i).events;
      forall k | 0 <= k < |es| && es[k].CostEvent? :: es[k].ratio.Finite? && es[k].ratio.value >= 0.0
    decreases epochSize - i
  {
    if !(i >= epochSize || cancelled(i)) && step(vs).Success? {
      var b := step(vs).value;
      CostReports(step, n, b.layers, epochSize, cancelled, i + 1);
      NonNegativeQuotient(b.run.cost, n as real);
      assert var rest := Epochs(step, b.layers, epochSize, cancelled, i + 1).events;
        forall k | 0 <= k < |rest| && rest[k].CostEvent? :: rest[k].ratio.Finite? && rest[k].ratio.value >= 0.0;
      var es, rest := Epochs(step, vs, epochSize, cancelled, i).events, Epochs(step, b.layers, epochSize, cancelled, i + 1).events;
      forall k | 0 < k < |es| ensures es[k] == rest[k - 1] {
      }
    }
  }

  /** A quotient of a non-negative number by a positive one is not negative. */
  lemma NonNegativeQuotient(a: real, b: real)
    requires a >= 0.0 && b > 0.0
    ensures a / b >= 0.0
  {
  }

  /** With the quadratic cost and a non-empty batch, every batch counts its examples at a
    * cost that is never negative. */
  lemma QuadraticBatches(forward: ForwardPass, backward: BackwardPass, log: real -> real, learningRate: real,
                         batch: seq<Example>)
    requires forall l, u | backward(l, u).Success? :: BackwardEffect(l, u, backward(l, u).value)
    ensures var step := Stepper(forward, backward, QuadraticCost, log, learningRate, batch);
      forall ws | step(ws).Success? :: step(ws).value.run.batchSize == |batch| && step(ws).value.run.cost >= 0.0
  {
    var step := Stepper(forward, backward, QuadraticCost, log, learningRate, batch);
    forall ws | step(ws).Success?
      ensures step(ws).value.run.batchSize == |batch| && step(ws).value.run.cost >= 0.0
    {
      BatchStepTotals(forward, backward, ws, QuadraticCost, log, learningRate, batch);
      QuadraticCosts(forward, ws, log);
      TotalCostNonNegative(Costs(forward, ws, QuadraticCost, log), batch, |batch|);
    }
  }

  /** When no batch changes the layers, every epoch trains the same layers: all reported
    * costs are equal and the layers are left as they were. */
  lemma {:induction false} EpochsWithoutChange(step: LayerStep, vs: seq<LayerValue>, epochSize: int,
                                               cancelled: nat -> bool, i: nat)
    requires forall ws | step(ws).Success? :: step(ws).value.layers == ws
    ensures var t := Epochs(step, vs, epochSize, cancelled, i);
      t.layers == vs && forall k | 0 <= k < |t.events| && t.events[k].CostEvent? :: t.events[k] == t.events[0]
    decreases epochSize - i
  {
    if !(i >= epochSize || cancelled(i)) && step(vs).Success? {
      var b := step(vs).value;
      EpochsWithoutChange(step, vs, epochSize, cancelled, i + 1);
      EpochsWellFormed(step, vs, epochSize, cancelled, i + 1);
    }
  }

  // ---------------------------------------------------------------- the returned Task

  /** `TrainAsync`'s task from the reports: the last cost reported, starting from
    * `latest`, once the training completes; the error, once it fails; no result while
    * neither has been reported. */
  function Settled(es: seq<Event>, latest: Ratio): Option<Result<Ratio>>
    decreases |es|
  {
    if es == [] then None
    else
      match es[0]
      case CostEvent(q) => Settled(es[1..], q)
      case ErrorEvent(e) => Some(Failure(e))
      case Completed => Some(Success(latest))
  }

  /** A well-formed report sequence settles the returned `Task`: with the error that ended it, or
    * with the last cost reported, or with `latest` when there was none. */
  lemma {:induction false} SettledOfWellFormed(es: seq<Event>, latest: Ratio)
    requires WellFormed(es)
    ensures Settled(es, latest).Some?
    ensures es[|es| - 1].ErrorEvent? ==> Settled(es, latest).value == Failure(es[|es| - 1].error)
    ensures es[|es| - 1].Completed? ==>
      Settled(es, latest).value == Success(if |es| == 1 then latest else es[|es| - 2].ratio)
    decreases |es|
  {
    if |es| > 1 {
      var rest := es[1..];
      assert WellFormed(rest) by {
        forall k | 0 <= k < |rest| - 1 ensures rest[k].CostEvent? {
          assert rest[k] == es[k + 1];
        }
      }
      SettledOfWellFormed(rest, es[0].ratio);
    }
  }

  // ---------------------------------------------------------------- the trainer

  /** The part of `Train(input, output)` between the passes: the cost of the run's output,
    * summed, stored as the run's cost; then the cost gradient as the output error. */
  method Score(run: TrainingRun, cf: CostFunction, log: real -> real, y: Tensor) returns (o: Outcome)
    requires run.Valid()
    modifies run, run.errors
    ensures run.Valid()
    ensures o.Pass? <==> Scored(old(run.View()), cf, log, y).Success?
    ensures o.Pass? ==> run.View() == Scored(old(run.View()), cf, log, y).value
    ensures o.Fail? ==> o.error == Scored(old(run.View()), cf, log, y).error
  {
    var h := run.Output();
    if h.Failure? {
      return Fail(h.error);
    }
    if h.value.None? {
      return Fail(NullReference);
    }
    var c := CalcCost(cf, h.value.value.value, y.value, log);
    if c.Failure? {
      return Fail(c.error);
    }
    run.cost := Sum(c.value);
    CostAndGradientAgree(cf, h.value.value.value, y.value, log);
    var g := CalcCostGradient(cf, h.value.value.value, y.value).value;
    o := run.SetOutputError(Some(FromVector(g)));
  }

  /** The first part of `Train(input, output)`: the net's forward pass recorded, then the
    * cost and its gradient stored in a new run. */
  method ForwardAndScore(net: Net, input: Tensor, cf: CostFunction, log: real -> real, y: Tensor)
    returns (r: Result<TrainingRun>)
    ensures Viewed(r) == Forwarded(Layers.FeedForwards, net.Values(), cf, log, input, y)
    ensures r.Success? ==> r.value.Valid()
    ensures r.Success? ==> fresh(r.value) && fresh(r.value.errors) && fresh(r.value.weightsDeltas)
  {
    net.WeightedAllocated();
    ghost var vs := net.Values();
    var created := net.FeedForwardsTraining(input);
    assert net.Values() == vs;
    if created.Failure? {
      return Failure(created.error);
    }
    var run := created.value;
    var scored := Score(run, cf, log, y);
    assert net.Values() == vs;
    if scored.Fail? {
      return Failure(scored.error);
    }
    r := Success(run);
  }

  /** The epochs that remain from epoch `i`, on the layers the net has then, complete the
    * reports made so far to the whole training's. */
  ghost predicate Following(step: LayerStep, vs: seq<LayerValue>, epochSize: int, cancelled: nat -> bool, i: nat,
                            events: seq<Event>, whole: Training)
  {
    events + Epochs(step, vs, epochSize, cancelled, i).events == whole.events &&
    Epochs(step, vs, epochSize, cancelled, i).layers == whole.layers &&
    forall k | 0 <= k < |events| :: events[k].CostEvent?
  }

  /** Before the first epoch no event has been reported and the whole training lies ahead. */
  lemma EpochsStart(step: LayerStep, vs: seq<LayerValue>, epochSize: int, cancelled: nat -> bool)
    ensures Following(step, vs, epochSize, cancelled, 0, [], Epochs(step, vs, epochSize, cancelled, 0))
  {
    assert [] + Epochs(step, vs, epochSize, cancelled, 0).events == Epochs(step, vs, epochSize, cancelled, 0).events;
  }

  /** One epoch of `Train`'s loop: a failed step reports its error and ends the events; a
    * step that succeeds reports its cost and the epochs go on from the layers it left. */
  lemma EpochFollows(step: LayerStep, vs: seq<LayerValue>, epochSize: int, cancelled: nat -> bool, i: nat,
                     events: seq<Event>, whole: Training)
    requires Following(step, vs, epochSize, cancelled, i, events, whole) && i < epochSize && !cancelled(i)
    ensures step(vs).Failure? ==> events + [ErrorEvent(step(vs).error)] == whole.events
    ensures step(vs).Success? ==>
      Following(step, step(vs).value.layers, epochSize, cancelled, i + 1,
                events + [CostEvent(Quotient(step(vs).value.run.cost, step(vs).value.run.batchSize))], whole)
  {
    if step(vs).Success? {
      var b := step(vs).value;
      var rest := Epochs(step, b.layers, epochSize, cancelled, i + 1);
      assert Epochs(step, vs, epochSize, cancelled, i).events == [CostEvent(Quotient(b.run.cost, b.run.batchSize))] + rest.events;
      assert events + [CostEvent(Quotient(b.run.cost, b.run.batchSize))] + rest.events == whole.events;
    }
  }

  /** When `Train`'s loop stops, at the epoch count or at a cancelled epoch, the events end
    * with the completion and the layers are the training's. */
  lemma EpochsFinish(step: LayerStep, vs: seq<LayerValue>, epochSize: int, cancelled: nat -> bool, i: nat,
                     events: seq<Event>, whole: Training)
    requires Following(step, vs, epochSize, cancelled, i, events, whole) && (i >= epochSize || cancelled(i))
    ensures events + [Completed] == whole.events && vs == whole.layers
  {
  }

  /** `Trainer`: a net, the learning rate and the cost function it trains the net with. */
  class Trainer {
    const net: Net
    const learningRate: real
    var costFunction: CostFunction
    /** The natural logarithm the cross-entropy cost is computed with. */
    const log: real -> real

    ghost predicate Valid()
      reads this, net
    {
      net.Valid()
    }

    /** `new Trainer(net, learningRate)`: the quadratic cost until another is chosen. */
    constructor (net: Net, learningRate: real, log: real -> real)
      ensures this.net == net && this.learningRate == learningRate && this.log == log
      ensures costFunction == QuadraticCost
    {
      this.net := net;
      this.learningRate := learningRate;
      this.log := log;
      costFunction := QuadraticCost;
    }

    method SetCostFunction(cf: CostFunction)
      modifies this
      ensures costFunction == cf
    {
      costFunction := cf;
    }

    /** `Train(input, output)`: the net's forward pass recorded, the cost and its gradient
      * stored, then the backward pass. The net itself is not changed. */
    method TrainExample(input: Tensor, output: Tensor) returns (r: Result<TrainingRun>)
      ensures Viewed(r) == ExampleRun(Layers.FeedForwards, Layers.Backward, net.Values(), costFunction, log, input, output)
      ensures net.Values() == old(net.Values())
    {
      ghost var vs := net.Values();
      var scored := ForwardAndScore(net, input, costFunction, log, output);
      if scored.Failure? {
        return Failure(scored.error);
      }
      var run := scored.value;
      var o := net.BackPropagate(run);
      if o.Fail? {
        return Failure(o.error);
      }
      r := Success(run);
    }

    /** The aggregation in `TrainBatch`: every example trained and combined, in turn, into
      * a fresh run for the net's layers. */
    method Aggregate(batch: seq<Example>) returns (r: Result<TrainingRun>)
      ensures Viewed(r) == BatchRun(Trainee(Layers.FeedForwards, Layers.Backward, net.Values(), costFunction, log),
                                    |net.layers|, batch, |batch|)
    {
      var acc := new TrainingRun(|net.layers|);
      ghost var example := Trainee(Layers.FeedForwards, Layers.Backward, net.Values(), costFunction, log);
      var i := 0;
      while i < |batch|
        invariant 0 <= i <= |batch| && fresh(acc.weightsDeltas)
        invariant example == Trainee(Layers.FeedForwards, Layers.Backward, net.Values(), costFunction, log)
        invariant BatchRun(example, |net.layers|, batch, i) == Success(acc.View())
      {
        var failed := CombineExample(this, acc, batch, i, example);
        if failed.Some? {
          return Failure(failed.value);
        }
        i := i + 1;
      }
      r := Success(acc);
    }

    /** `TrainBatch`: the batch aggregated, then its deltas applied to the net. */
    method TrainBatch(batch: seq<Example>) returns (r: Result<TrainingRun>)
      requires Valid()
      modifies net.Weighted()
      ensures var target := BatchStep(Layers.FeedForwards, Layers.Backward, old(net.Values()), costFunction, log,
                                      learningRate, batch);
        (r.Success? <==> target.Success?) && (r.Failure? ==> r.error == target.error) &&
        (r.Success? ==> r.value.View() == target.value.run && net.Values() == target.value.layers)
    {
      var batchRun := Aggregate(batch);
      if batchRun.Failure? {
        return batchRun;
      }
      var o := net.ApplyTraining(batchRun.value, learningRate);
      if o.Fail? {
        return Failure(o.error);
      }
      r := batchRun;
    }

    /** `Train(epochSize, batch, token)`: the reports of the observable, in order. After a
      * failure the net keeps whatever the failing batch had already changed. */
    method Train(epochSize: int, batch: seq<Example>, cancelled: nat -> bool) returns (events: seq<Event>)
      requires Valid()
      modifies net.Weighted()
      ensures var t := Epochs(Stepper(Layers.FeedForwards, Layers.Backward, costFunction, log, learningRate, batch),
                              old(net.Values()), epochSize, cancelled, 0);
        events == t.events && (Completed in events ==> net.Values() == t.layers)
    {
      ghost var step := Stepper(Layers.FeedForwards, Layers.Backward, costFunction, log, learningRate, batch);
      ghost var whole := Epochs(step, net.Values(), epochSize, cancelled, 0);
      EpochsStart(step, net.Values(), epochSize, cancelled);
      events := [];
      var i: nat := 0;
      while i < epochSize && !cancelled(i)
        invariant Valid()
        invariant step == Stepper(Layers.FeedForwards, Layers.Backward, costFunction, log, learningRate, batch)
        invariant Following(step, net.Values(), epochSize, cancelled, i, events, whole)
        decreases epochSize - i
      {
        var event := RunEpoch(this, batch, epochSize, cancelled, i, events, step, whole);
        events := events + [event];
        if event.ErrorEvent? {
          return;
        }
        i := i + 1;
      }
      EpochsFinish(step, net.Values(), epochSize, cancelled, i, events, whole);
      events := events + [Completed];
    }

    /** `TrainAsync`: the outcome of the returned `Task`, the last cost reported (0 when there was none)
      * or the error that ended the training. */
    method TrainAsync(epochSize: int, batch: seq<Example>, cancelled: nat -> bool) returns (r: Result<Ratio>)
      requires Valid()
      modifies net.Weighted()
      ensures Some(r) == Settled(Epochs(Stepper(Layers.FeedForwards, Layers.Backward, costFunction, log, learningRate, batch),
                                        old(net.Values()), epochSize, cancelled, 0).events, Finite(0.0))
    {
      ghost var step := Stepper(Layers.FeedForwards, Layers.Backward, costFunction, log, learningRate, batch);
      ghost var vs := net.Values();
      var events := Train(epochSize, batch, cancelled);
      EpochsWellFormed(step, vs, epochSize, cancelled, 0);
      SettledOfWellFormed(events, Finite(0.0));
      r := Settled(events, Finite(0.0)).value;
    }
  }

  /** The body of `Train`'s loop: epoch `i` trained on the batch, and the event it reports,
    * its cost or the error that ends the training. */
  method RunEpoch(trainer: Trainer, batch: seq<Example>, epochSize: int, cancelled: nat -> bool, i: nat,
                  events: seq<Event>, ghost step: LayerStep, ghost whole: Training) returns (event: Event)
    requires trainer.Valid() && i < epochSize && !cancelled(i)
    requires step == Stepper(Layers.FeedForwards, Layers.Backward, trainer.costFunction, trainer.log, trainer.learningRate, batch)
    requires Following(step, trainer.net.Values(), epochSize, cancelled, i, events, whole)
    modifies trainer.net.Weighted()
    ensures trainer.Valid()
    ensures step == Stepper(Layers.FeedForwards, Layers.Backward, trainer.costFunction, trainer.log, trainer.learningRate, batch)
    ensures event.ErrorEvent? || event.CostEvent?
    ensures event.ErrorEvent? ==> events + [event] == whole.events
    ensures event.CostEvent? ==> Following(step, trainer.net.Values(), epochSize, cancelled, i + 1, events + [event], whole)
  {
    ghost var vs := trainer.net.Values();
    EpochFollows(step, vs, epochSize, cancelled, i, events, whole);
    var trained := trainer.TrainBatch(batch);
    assert step(vs) == BatchStep(Layers.FeedForwards, Layers.Backward, vs, trainer.costFunction, trainer.log,
                                 trainer.learningRate, batch);
    if trained.Failure? {
      return ErrorEvent(trained.error);
    }
    event := CostEvent(Quotient(trained.value.cost, trained.value.batchSize));
  }

  /** The body of the loop of `TrainBatch`'s aggregation: example `i` trained and combined
    * into the runs of the examples before it, or the error that stops the batch. */
  method CombineExample(trainer: Trainer, acc: TrainingRun, batch: seq<Example>, i: nat, ghost example: ExamplePass)
    returns (failed: Option<Error>)
    requires i < |batch|
    requires example == Trainee(Layers.FeedForwards, Layers.Backward, trainer.net.Values(), trainer.costFunction, trainer.log)
    requires BatchRun(example, |trainer.net.layers|, batch, i) == Success(acc.View())
    modifies acc, acc.weightsDeltas
    ensures failed.None? ==> BatchRun(example, |trainer.net.layers|, batch, i + 1) == Success(acc.View())
    ensures failed.Some? ==> BatchRun(example, |trainer.net.layers|, batch, |batch|) == Failure(failed.value)
    ensures example == Trainee(Layers.FeedForwards, Layers.Backward, trainer.net.Values(), trainer.costFunction, trainer.log)
  {
    var trained := trainer.TrainExample(batch[i].0, batch[i].1);
    failed := CombineInto(trainer.net, acc, trained, batch, i, |trainer.net.layers|, example);
  }

  /** The body of the loop of `TrainBatch`'s aggregation once example `i` is trained: its
    * run combined into the runs of the examples before it, or the error that stops the
    * batch. */
  method CombineInto(net: Net, acc: TrainingRun, trained: Result<TrainingRun>, batch: seq<Example>, i: nat, n: nat,
                     ghost example: ExamplePass) returns (failed: Option<Error>)
    requires i < |batch| && Viewed(trained) == example(batch[i])
    requires BatchRun(example, n, batch, i) == Success(acc.View())
    modifies acc, acc.weightsDeltas
    ensures net.Values() == old(net.Values())
    ensures failed.None? ==> BatchRun(example, n, batch, i + 1) == Success(acc.View())
    ensures failed.Some? ==> BatchRun(example, n, batch, |batch|) == Failure(failed.value)
  {
    net.WeightedAllocated();
    if trained.Failure? {
      BatchRunFailurePersists(example, n, batch, i + 1, |batch|);
      return Some(trained.error);
    }
    var o := acc.Combine(trained.value);
    if o.Fail? {
      BatchRunFailurePersists(example, n, batch, i + 1, |batch|);
      return Some(o.error);
    }
    failed := None;
  }

  /** `trainer.UseQuadraticCost()`. */
  method UseQuadraticCost(trainer: Trainer)
    modifies trainer
    ensures trainer.costFunction == QuadraticCost
  {
    trainer.SetCostFunction(QuadraticCost);
  }

  /** `trainer.UseCrossEntropyCost()`. */
  method UseCrossEntropyCost(trainer: Trainer)
    modifies trainer
    ensures trainer.costFunction == CrossEntropyCost
  {
    trainer.SetCostFunction(CrossEntropyCost);
  }
}
