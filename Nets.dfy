/** `Net`: an append-only list of layers run as one layer, with the training passes that
  * record every value and push every error back, and the weight update that follows. */
module Nets {
  import opened Wrappers
  import opened Sizes
  import opened Matrices
  import opened Tensors
  import opened TrainingRuns
  import opened LayerBase
  import opened Layers

  // ---------------------------------------------------------------- forward passes

  /** A layer's forward pass as the net calls it. The net's own passes only chain its
    * layers' passes together, so they are stated for any such function; the net runs
    * them with `Layers.FeedForwards`. */
  type ForwardPass = (LayerValue, Option<Tensor>) -> Result<Tensor>

  /** `Net.FeedForwardsInternal`: the layers applied in list order, each to the output of
    * the one before; the first failure stops the fold. */
  function ForwardFold(forward: ForwardPass, ls: seq<LayerValue>, x: Tensor): (r: Result<Tensor>)
    ensures ls == [] ==> r == Success(x)
    decreases |ls|
  {
    if ls == [] then Success(x)
    else
      var y :- ForwardFold(forward, ls[..|ls| - 1], x);
      forward(ls[|ls| - 1], Some(y))
  }

  /** The values a training pass records after the first `n` layers: the input, then each
    * layer's output from the value before it. */
  function Trace(forward: ForwardPass, ls: seq<LayerValue>, x: Tensor, n: nat): (r: Result<seq<Tensor>>)
    requires n <= |ls|
    ensures r.Success? ==> |r.value| == n + 1 && r.value[0] == x
    ensures r.Success? ==> forall i {:trigger ls[i]} | 0 <= i < n :: forward(ls[i], Some(r.value[i])) == Success(r.value[i + 1])
    decreases n
  {
    if n == 0 then Success([x])
    else
      var t :- Trace(forward, ls, x, n - 1);
      var y :- forward(ls[n - 1], Some(t[n - 1]));
      Success(t + [y])
  }

  /** The recorded pass agrees with the plain one: it succeeds on the same layers, and its
    * last value is the plain pass's result. */
  lemma {:induction false} TraceEndsInForwardFold(forward: ForwardPass, ls: seq<LayerValue>, x: Tensor, n: nat)
    requires n <= |ls|
    ensures Trace(forward, ls, x, n).Success? <==> ForwardFold(forward, ls[..n], x).Success?
    ensures Trace(forward, ls, x, n).Success? ==> Trace(forward, ls, x, n).value[n] == ForwardFold(forward, ls[..n], x).value
    ensures Trace(forward, ls, x, n).Failure? ==> Trace(forward, ls, x, n).error == ForwardFold(forward, ls[..n], x).error
    decreases n
  {
    if n > 0 {
      TraceEndsInForwardFold(forward, ls, x, n - 1);
      assert ls[..n][..n - 1] == ls[..n - 1];
      assert ls[..n][n - 1] == ls[n - 1];
    }
  }

  /** One more layer of the recorded pass: its failure, or its output after the values so
    * far. */
  lemma TraceStep(forward: ForwardPass, ls: seq<LayerValue>, x: Tensor, i: nat, y: Result<Tensor>)
    requires i < |ls| && Trace(forward, ls, x, i).Success?
    requires y == forward(ls[i], Some(Trace(forward, ls, x, i).value[i]))
    ensures y.Failure? ==> Trace(forward, ls, x, i + 1) == Failure(y.error)
    ensures y.Success? ==> Trace(forward, ls, x, i + 1) == Success(Trace(forward, ls, x, i).value + [y.value])
  {
  }

  /** Once a recorded pass fails at a layer, it fails there for every longer prefix. */
  lemma {:induction false} TraceFailurePersists(forward: ForwardPass, ls: seq<LayerValue>, x: Tensor, i: nat, n: nat)
    requires i <= n <= |ls| && Trace(forward, ls, x, i).Failure?
    ensures Trace(forward, ls, x, n).Failure? && Trace(forward, ls, x, n).error == Trace(forward, ls, x, i).error
    decreases n
  {
    if n > i {
      TraceFailurePersists(forward, ls, x, i, n - 1);
    }
  }

  /** With the layers' own forward pass, a successful pass of a non-empty net ends in the
    * output shape of its last layer. */
  lemma ForwardFoldShape(ls: seq<LayerValue>, x: Tensor)
    requires ls != [] && ForwardFold(Layers.FeedForwards, ls, x).Success?
    ensures SizeEquals(ForwardFold(Layers.FeedForwards, ls, x).value.size, Some(ls[|ls| - 1].OutputSize()))
  {
  }

  /** The run after the first `i` layers of `FeedForwardsTraining` over a net of `n`
    * layers: the recorded values, nothing else yet, a batch of one and the cursor on the
    * last layer that ran. */
  function TrainingView(n: nat, t: seq<Tensor>, i: nat): (v: RunView)
    requires i <= n && |t| == i + 1
    ensures |v.values| == |v.errors| == n + 1 && |v.deltas| == n
    ensures forall k | 0 <= k <= n :: v.values[k] == (if k <= i then Some(t[k]) else None) && v.errors[k].None?
    ensures forall k | 0 <= k < n :: v.deltas[k].None?
    ensures v.batchSize == 1 && v.cost == 0.0 && v.counter == (if i == 0 then 0 else i - 1)
  {
    RunView(seq(n + 1, k requires 0 <= k <= n => if k <= i then Some(t[k]) else None),
            seq(n + 1, _ => None), seq(n, _ => None), if i == 0 then 0 else i - 1, 1, 0.0)
  }

  /** A fresh run with the input stored and a batch of one is the view before any layer. */
  lemma TrainingViewStart(n: nat, x: Tensor)
    ensures WithInput(FreshView(n), Some(x)).Success?
    ensures WithInput(FreshView(n), Some(x)).value.(batchSize := 1) == TrainingView(n, [x], 0)
  {
    var v := WithInput(FreshView(n), Some(x)).value.(batchSize := 1);
    var w := TrainingView(n, [x], 0);
    assert v.values == w.values;
  }

  /** With the cursor on layer `i`, the run's input is the last recorded value. */
  lemma TrainingViewInput(n: nat, t: seq<Tensor>, i: nat)
    requires i < n && |t| == i + 1
    ensures InputOf(TrainingView(n, t, i).(counter := i)) == Success(Some(t[i]))
  {
  }

  /** With the cursor on layer `i`, storing that layer's output records one more value. */
  lemma TrainingViewStep(n: nat, t: seq<Tensor>, i: nat, y: Tensor)
    requires i < n && |t| == i + 1
    ensures WithOutput(TrainingView(n, t, i).(counter := i), Some(y)).Success?
    ensures WithOutput(TrainingView(n, t, i).(counter := i), Some(y)).value == TrainingView(n, t + [y], i + 1)
  {
    var v := WithOutput(TrainingView(n, t, i).(counter := i), Some(y)).value;
    var w := TrainingView(n, t + [y], i + 1);
    assert v.values == w.values;
  }

  // ---------------------------------------------------------------- backward pass

  /** A layer's backward pass as the net calls it; the net runs it with `Layers.Backward`. */
  type BackwardPass = (LayerValue, RunView) -> Result<RunView>

  /** `Net.BackPropagate` from layer `i - 1` down to layer 0: the cursor is set to each
    * layer in turn before it runs; the first failure stops the pass. */
  function BackwardFrom(backward: BackwardPass, ls: seq<LayerValue>, v: RunView, i: nat): (r: Result<RunView>)
    requires i <= |ls|
    ensures i == 0 ==> r == Success(v)
    decreases i
  {
    if i == 0 then Success(v)
    else
      var w :- backward(ls[i - 1], v.(counter := i - 1));
      BackwardFrom(backward, ls, w, i - 1)
  }

  /** One layer of the backward pass: its failure, or the rest of the pass from its
    * result. */
  lemma BackwardFromStep(backward: BackwardPass, ls: seq<LayerValue>, v: RunView, i: nat, w: Result<RunView>)
    requires 0 < i <= |ls| && w == backward(ls[i - 1], v.(counter := i - 1))
    ensures w.Failure? ==> BackwardFrom(backward, ls, v, i) == Failure(w.error)
    ensures w.Success? ==> BackwardFrom(backward, ls, v, i) == BackwardFrom(backward, ls, w.value, i - 1)
  {
  }

  /** What one layer's backward pass may do to a run: store the current layer's input
    * error and, for a weighted layer, its delta, and nothing else. */
  predicate BackwardEffect(l: LayerValue, v: RunView, w: RunView)
  {
    KeepsAllButCurrent(v, w) && w.errors[v.counter].Some? &&
    (l.ActivationValue? ==> w.deltas == v.deltas) &&
    (l.WeightedValue? ==> v.counter < |v.deltas| && w.deltas[v.counter].Some?)
  }

  /** The layers' own backward pass has that effect. */
  lemma LayersBackwardEffect()
    ensures forall l, v | Layers.Backward(l, v).Success? :: BackwardEffect(l, v, Layers.Backward(l, v).value)
  {
  }

  /** For a backward pass with that effect, a successful pass below layer `i` keeps the
    * recorded values, the batch size, the cost and every slot from `i` up; it stores an
    * input error for every layer below `i` and a delta for every weighted one, keeps the
    * delta of every other layer, and leaves the cursor on layer 0. */
  lemma {:induction false} BackwardFromEffect(backward: BackwardPass, ls: seq<LayerValue>, v: RunView, i: nat)
    requires forall l, u | backward(l, u).Success? :: BackwardEffect(l, u, backward(l, u).value)
    requires i <= |ls| && i <= |v.errors| && BackwardFrom(backward, ls, v, i).Success?
    ensures var r := BackwardFrom(backward, ls, v, i).value;
      r.values == v.values && r.batchSize == v.batchSize && r.cost == v.cost &&
      |r.errors| == |v.errors| && |r.deltas| == |v.deltas|
    ensures var r := BackwardFrom(backward, ls, v, i).value;
      forall k | i <= k < |v.errors| :: r.errors[k] == v.errors[k]
    ensures var r := BackwardFrom(backward, ls, v, i).value;
      forall k | i <= k < |v.deltas| :: r.deltas[k] == v.deltas[k]
    ensures var r := BackwardFrom(backward, ls, v, i).value;
      forall k | 0 <= k < i :: r.errors[k].Some?
    ensures var r := BackwardFrom(backward, ls, v, i).value;
      forall k | 0 <= k < i && ls[k].WeightedValue? :: k < |r.deltas| && r.deltas[k].Some?
    ensures var r := BackwardFrom(backward, ls, v, i).value;
      forall k | 0 <= k < i && k < |v.deltas| && ls[k].ActivationValue? :: r.deltas[k] == v.deltas[k]
    ensures BackwardFrom(backward, ls, v, i).value.counter == if i == 0 then v.counter else 0
    decreases i
  {
    if i > 0 {
      var u := v.(counter := i - 1);
      var w := backward(ls[i - 1], u);
      BackwardFromStep(backward, ls, v, i, w);
      assert BackwardEffect(ls[i - 1], u, w.value);
      BackwardFromEffect(backward, ls, w.value, i - 1);
    }
  }

  // ---------------------------------------------------------------- weight update

  /** Layer `i`'s part of `ApplyTraining`: a weighted layer's weights less its delta times
    * `learningRate / batchSize`; a layer without weights is kept. A missing delta is
    * dereferenced, and a delta of another shape is refused by the subtraction. */
  function UpdatedLayer(l: LayerValue, v: RunView, learningRate: real, i: int): (r: Result<LayerValue>)
    ensures l.ActivationValue? ==> r == Success(l)
    ensures l.WeightedValue? && Slot(v.deltas, i).Failure? ==> r == Failure(IndexOutOfRange)
    ensures l.WeightedValue? && Slot(v.deltas, i) == Success(None) ==> r == Failure(NullReference)
    ensures r.Success? && l.WeightedValue? ==>
      0 <= i < |v.deltas| && v.deltas[i].Some? && v.batchSize != 0 &&
      var d, k := v.deltas[i].value, learningRate / v.batchSize as real;
      SameShape(d, l.weights) &&
      r.value.WeightedValue? && r.value == l.(weights := r.value.weights) && SameShape(r.value.weights, l.weights) &&
      forall p, q | 0 <= p < l.weights.rows && 0 <= q < l.weights.cols ::
        r.value.weights.data[p][q] == l.weights.data[p][q] - d.data[p][q] * k
  {
    if l.ActivationValue? then Success(l)
    else
      var delta :- Slot(v.deltas, i);
      if delta.None? then Failure(NullReference)
      else if v.batchSize == 0 then Failure(DivideByZero)
      else
        var w :- Subtract(l.weights, Scale(delta.value, learningRate / v.batchSize as real));
        Success(l.(weights := w))
  }

  /** `ApplyTraining` over the first `n` layers, in layer order. */
  function Applied(ls: seq<LayerValue>, v: RunView, learningRate: real, n: nat): (r: Result<seq<LayerValue>>)
    requires n <= |ls|
    ensures r.Success? ==> |r.value| == |ls|
    ensures r.Success? ==> forall k | n <= k < |ls| :: r.value[k] == ls[k]
    ensures r.Success? ==> forall k | 0 <= k < n :: UpdatedLayer(ls[k], v, learningRate, k) == Success(r.value[k])
    decreases n
  {
    if n == 0 then Success(ls)
    else
      var prev :- Applied(ls, v, learningRate, n - 1);
      var l :- UpdatedLayer(ls[n - 1], v, learningRate, n - 1);
      Success(prev[n - 1 := l])
  }

  /** Once a layer's update fails, the whole update fails with its error. */
  lemma {:induction false} AppliedFailurePersists(ls: seq<LayerValue>, v: RunView, learningRate: real, i: nat, n: nat)
    requires i <= n <= |ls| && Applied(ls, v, learningRate, i).Failure?
    ensures Applied(ls, v, learningRate, n) == Applied(ls, v, learningRate, i)
    decreases n
  {
    if n > i {
      AppliedFailurePersists(ls, v, learningRate, i, n - 1);
    }
  }

  /** A learning rate of 0 keeps every weight. */
  lemma AppliedAtRateZero(ls: seq<LayerValue>, v: RunView)
    requires Applied(ls, v, 0.0, |ls|).Success?
    ensures Applied(ls, v, 0.0, |ls|).value == ls
  {
    var r := Applied(ls, v, 0.0, |ls|).value;
    forall k | 0 <= k < |ls| ensures r[k] == ls[k] {
      if ls[k].WeightedValue? {
        var w := r[k].weights;
        forall p, q | 0 <= p < w.rows && 0 <= q < w.cols ensures w.data[p][q] == ls[k].weights.data[p][q] {
          assert v.deltas[k].value.data[p][q] * (0.0 / v.batchSize as real) == 0.0;
        }
        Extensionality(w, ls[k].weights);
      }
    }
  }

  // ---------------------------------------------------------------- the net as an object

  /** The weights layer objects of a list, in list order: `OfType<IHaveWeights>()`. */
  function WeightedOf(ls: seq<Layer>): (ws: seq<WeightsLayer>)
    ensures forall w :: w in ws ==> exists k | 0 <= k < |ls| :: ls[k].Weighted? && ls[k].layer == w
    ensures forall i | 0 <= i < |ws| :: ws[i] in WeightedSet(ls)
    ensures forall k | 0 <= k < |ls| && ls[k].Weighted? :: ls[k].layer in ws
    decreases |ls|
  {
    if ls == [] then []
    else WeightedOf(ls[..|ls| - 1]) + (if ls[|ls| - 1].Weighted? then [ls[|ls| - 1].layer] else [])
  }

  /** The weights layer objects of a list, as a set. */
  function WeightedSet(ls: seq<Layer>): set<WeightsLayer>
  {
    set k | 0 <= k < |ls| && ls[k].Weighted? :: ls[k].layer
  }

  /** No weights layer object appears twice in the list. */
  predicate Distinct(ls: seq<Layer>)
  {
    forall p, q | 0 <= p < |ls| && 0 <= q < |ls| && p != q && ls[p].Weighted? && ls[q].Weighted? ::
      ls[p].layer != ls[q].layer
  }

  /** The weights layers of a list without repetitions are themselves without repetitions. */
  lemma {:induction false} WeightedOfDistinct(ls: seq<Layer>)
    requires Distinct(ls)
    ensures forall p, q | 0 <= p < q < |WeightedOf(ls)| :: WeightedOf(ls)[p] != WeightedOf(ls)[q]
    decreases |ls|
  {
    if ls != [] {
      var init := ls[..|ls| - 1];
      assert Distinct(init);
      WeightedOfDistinct(init);
      var last := ls[|ls| - 1];
    }
  }

  class Net {
    const inputSize: Size
    var outputSize: Size
    var layers: seq<Layer>

    /** The weights layer objects of the net. */
    function Weighted(): set<WeightsLayer>
      reads this
    {
      WeightedSet(layers)
    }

    /** Every weights layer the net holds already exists, so a method that changes only new
      * objects leaves them alone. */
    lemma WeightedAllocated()
      ensures forall w | w in Weighted() :: allocated(w)
    {
      forall w | w in Weighted() ensures allocated(w) {
        var j :| 0 <= j < |layers| && layers[j].Weighted? && layers[j].layer == w;
        assert allocated(layers[j]);
      }
    }

    /** A weights layer is held at one position of the net only. */
    ghost predicate Valid()
      reads this
    {
      Distinct(layers)
    }

    /** The layers with their current weights. */
    function Values(): (vs: seq<LayerValue>)
      reads this, Weighted()
      ensures |vs| == |layers|
    {
      seq(|layers|, k requires 0 <= k < |layers| reads this, Weighted() => ValueOf(layers[k]))
    }

    /** `new Net(inputSize)`: no layers, and the output size is the input size. */
    constructor (inputSize: Size)
      ensures Valid() && this.inputSize == inputSize && outputSize == inputSize && layers == []
    {
      this.inputSize := inputSize;
      outputSize := inputSize;
      layers := [];
    }

    /** `Add`: the layer goes at the end and its output size becomes the net's; nothing
      * checks that its input fits the net's output. */
    method Add(l: Layer)
      requires Valid() && (l.Weighted? ==> l.layer !in Weighted())
      modifies this
      ensures Valid() && layers == old(layers) + [l] && outputSize == l.OutputSize()
      ensures Values() == old(Values()) + [ValueOf(l)]
    {
      outputSize := l.OutputSize();
      layers := layers + [l];
    }

    /** `GetWeights`: the weights of the weighted layers, in layer order. */
    function GetWeights(): (ws: seq<Matrix>)
      reads this, Weighted()
      ensures |ws| == |WeightedOf(layers)|
      ensures forall i | 0 <= i < |ws| :: ws[i] == WeightedOf(layers)[i].weights
    {
      var wl := WeightedOf(layers);
      seq(|wl|, i requires 0 <= i < |wl| reads wl => wl[i].weights)
    }

    /** `SetWeights`: the weighted layers take the given weights in order; a list too short
      * is a range error once the layers it covers are set, and a longer one has its tail
      * ignored. */
    method SetWeights(ws: seq<Matrix>) returns (o: Outcome)
      requires Valid()
      modifies Weighted()
      ensures o.Pass? <==> |ws| >= |WeightedOf(layers)|
      ensures o.Fail? ==> o.error == IndexOutOfRange
      ensures o.Pass? ==> GetWeights() == ws[..|WeightedOf(layers)|]
    {
      var wl := WeightedOf(layers);
      WeightedOfDistinct(layers);
      forall k | 0 <= k < |wl| ensures allocated(wl[k]) {
        assert wl[k] in wl;
        var j :| 0 <= j < |layers| && layers[j].Weighted? && layers[j].layer == wl[k];
        assert allocated(layers[j]);
      }
      var i := 0;
      while i < |wl|
        invariant 0 <= i <= |wl| && i <= |ws|
        invariant forall k | 0 <= k < i :: wl[k].weights == ws[k]
      {
        if i >= |ws| {
          return Fail(IndexOutOfRange);
        }
        label before:
        wl[i].SetWeights(ws[i]);
        forall k | 0 <= k < i ensures wl[k].weights == ws[k] {
          assert wl[k] != wl[i];
        }
        i := i + 1;
      }
      assert GetWeights() == ws[..|wl|];
      o := Pass;
    }

    /** `FeedForwards` of the net as a layer: the input and output shape checks around
      * the left fold of its layers. */
    function FeedForwards(input: Option<Tensor>): (r: Result<Tensor>)
      reads this, Weighted()
      ensures input.None? ==> r == Failure(ArgumentNull)
      ensures input.Some? && !SizeEquals(input.value.size, Some(inputSize)) ==> r == Failure(Argument)
      ensures r.Success? ==> input.Some? && ForwardFold(Layers.FeedForwards, Values(), input.value) == Success(r.value)
      ensures r.Success? ==> SizeEquals(r.value.size, Some(outputSize))
    {
      var vs := Values();
      GuardedForward(inputSize, outputSize, input, t => Lift(ForwardFold(Layers.FeedForwards, vs, t)))
    }

    /** `FeedForwardsTraining`: a fresh run, the input in value slot 0 and a batch of one;
      * then every layer in order, with the cursor on it, stores its output after its
      * input. */
    method FeedForwardsTraining(input: Tensor) returns (r: Result<TrainingRun>)
      ensures r.Success? <==> Trace(Layers.FeedForwards, old(Values()), input, |layers|).Success?
      ensures r.Failure? ==> r.error == Trace(Layers.FeedForwards, old(Values()), input, |layers|).error
      ensures r.Success? ==> fresh(r.value) && fresh(r.value.values) && fresh(r.value.errors) && fresh(r.value.weightsDeltas)
      ensures r.Success? ==> r.value.Valid()
      ensures r.Success? ==> r.value.View() == TrainingView(|layers|, Trace(Layers.FeedForwards, old(Values()), input, |layers|).value, |layers|)
    {
      var n := |layers|;
      var vs := Values();
      var run := new TrainingRun(n);
      var stored := run.SetInput(Some(input));
      run.batchSize := 1;
      TrainingViewStart(n, input);
      var failed := RecordLayers(run, vs, input);
      if failed.Some? {
        return Failure(failed.value);
      }
      r := Success(run);
    }

    /** `BackPropagate`: every layer from the last to the first, with the cursor on it. */
    method BackPropagate(run: TrainingRun) returns (o: Outcome)
      requires run.Valid()
      modifies run, run.errors, run.weightsDeltas
      ensures o.Pass? <==> BackwardFrom(Layers.Backward, old(Values()), old(run.View()), |layers|).Success?
      ensures o.Pass? ==> run.View() == BackwardFrom(Layers.Backward, old(Values()), old(run.View()), |layers|).value
      ensures o.Fail? ==> o.error == BackwardFrom(Layers.Backward, old(Values()), old(run.View()), |layers|).error
      ensures Values() == old(Values())
    {
      WeightedAllocated();
      var vs := Values();
      ghost var target := BackwardFrom(Layers.Backward, vs, run.View(), |layers|);
      o := BackPropagateLayers(run, layers, vs, target);
    }

    /** `ApplyTraining`: every weighted layer in turn has its delta times
      * `learningRate / batchSize` taken off its weights. */
    method ApplyTraining(run: TrainingRun, learningRate: real) returns (o: Outcome)
      requires Valid()
      modifies Weighted()
      ensures o.Pass? <==> Applied(old(Values()), run.View(), learningRate, |layers|).Success?
      ensures o.Pass? ==> Values() == Applied(old(Values()), run.View(), learningRate, |layers|).value
      ensures o.Fail? ==> o.error == Applied(old(Values()), run.View(), learningRate, |layers|).error
    {
      var vs, v := Values(), run.View();
      var i := 0;
      while i < |layers|
        invariant 0 <= i <= |layers| && Valid()
        invariant Applied(vs, v, learningRate, i).Success? && Values() == Applied(vs, v, learningRate, i).value
      {
        var failed := ApplyLayer(this, run, learningRate, vs, v, i);
        if failed.Some? {
          AppliedFailurePersists(vs, v, learningRate, i + 1, |layers|);
          return Fail(failed.value);
        }
        i := i + 1;
      }
      o := Pass;
    }
  }

  /** The body of the loop of `ApplyTraining`: layer `i`'s weights less its scaled delta,
    * or the error that stops the update. */
  method ApplyLayer(net: Net, run: TrainingRun, learningRate: real, ghost vs: seq<LayerValue>, ghost v: RunView, i: nat)
    returns (failed: Option<Error>)
    requires net.Valid() && i < |net.layers| == |vs| && v == run.View()
    requires Applied(vs, v, learningRate, i).Success? && net.Values() == Applied(vs, v, learningRate, i).value
    modifies net.Weighted()
    ensures failed.Some? ==> Applied(vs, v, learningRate, i + 1) == Failure(failed.value)
    ensures failed.None? ==> Applied(vs, v, learningRate, i + 1).Success?
    ensures failed.None? ==> net.Values() == Applied(vs, v, learningRate, i + 1).value
  {
    ghost var before := net.Values();
    assert before[i] == vs[i];
    if net.layers[i].Weighted? {
      var layer := net.layers[i].layer;
      assert layer in net.Weighted();
      var slot := Slot(run.weightsDeltas[..], i);
      if slot.Failure? {
        return Some(slot.error);
      }
      var delta := slot.value;
      if delta.None? {
        return Some(NullReference);
      }
      if run.batchSize == 0 {
        return Some(DivideByZero);
      }
      var scaled := Scale(delta.value, learningRate / run.batchSize as real);
      if !SameShape(layer.weights, scaled) {
        return Some(DimensionMismatch);
      }
      layer.UpdateWeights(w requires SameShape(w, scaled) => Subtract(w, scaled).value);
      forall k | 0 <= k < |net.layers| && k != i ensures net.Values()[k] == before[k] {
        if net.layers[k].Weighted? {
          assert net.layers[k].layer != layer;
        }
      }
      assert net.Values() == before[i := layer.Value()];
    }
    failed := None;
  }

  /** `target` is what the backward pass below layer `i` gives from `v`. */
  ghost predicate Remaining(vs: seq<LayerValue>, v: RunView, i: nat, target: Result<RunView>)
  {
    i <= |vs| && target == BackwardFrom(Layers.Backward, vs, v, i)
  }

  /** The loop of `BackPropagate` over layers `ls` whose values are `vs`: `target` is
    * what the whole pass is to give. */
  method BackPropagateLayers(run: TrainingRun, ls: seq<Layer>, ghost vs: seq<LayerValue>, ghost target: Result<RunView>)
    returns (o: Outcome)
    requires run.Valid() && |ls| == |vs| && forall k | 0 <= k < |ls| :: vs[k] == ValueOf(ls[k])
    requires Remaining(vs, run.View(), |ls|, target)
    modifies run, run.errors, run.weightsDeltas
    ensures o.Fail? ==> target == Failure(o.error)
    ensures o.Pass? ==> target == Success(run.View())
  {
    var i: nat := |ls|;
    while i > 0
      invariant i <= |ls| && run.Valid()
      invariant forall k | 0 <= k < |ls| :: vs[k] == ValueOf(ls[k])
      invariant Remaining(vs, run.View(), i, target)
    {
      o := BackPropagateStep(run, ls, vs, i, target);
      if o.Fail? {
        return;
      }
      i := i - 1;
    }
    o := Pass;
  }

  /** The body of the loop of `BackPropagate`: the cursor on layer `i - 1`, then that
    * layer's backward pass; `target` is what the rest of the pass is to give. */
  method BackPropagateStep(run: TrainingRun, ls: seq<Layer>, ghost vs: seq<LayerValue>, i: nat, ghost target: Result<RunView>)
    returns (o: Outcome)
    requires run.Valid() && 0 < i <= |ls| == |vs| && forall k | 0 <= k < |ls| :: vs[k] == ValueOf(ls[k])
    requires Remaining(vs, run.View(), i, target)
    modifies run, run.errors, run.weightsDeltas
    ensures run.Valid() && forall k | 0 <= k < |ls| :: vs[k] == ValueOf(ls[k])
    ensures o.Fail? ==> target == Failure(o.error)
    ensures o.Pass? ==> Remaining(vs, run.View(), i - 1, target)
  {
    ghost var v := run.View();
    run.counter := i - 1;
    assert run.View() == v.(counter := i - 1);
    o := BackPropagateLayer(ls[i - 1], run);
    BackwardFromStep(Layers.Backward, vs, v, i, Layers.Backward(vs[i - 1], v.(counter := i - 1)));
  }

  /** The run holds the recorded pass through the first `i` layers of `vs` from `input`. */
  ghost predicate Recorded(vs: seq<LayerValue>, input: Tensor, v: RunView, i: nat)
  {
    i <= |vs| && Trace(Layers.FeedForwards, vs, input, i).Success? &&
    v == TrainingView(|vs|, Trace(Layers.FeedForwards, vs, input, i).value, i)
  }

  /** The loop of `FeedForwardsTraining` over layers whose values are `vs`: every layer in
    * order stores its output, or the first failure is returned. */
  method RecordLayers(run: TrainingRun, vs: seq<LayerValue>, ghost input: Tensor) returns (failed: Option<Error>)
    requires run.Valid() && Recorded(vs, input, run.View(), 0)
    modifies run, run.values
    ensures run.Valid()
    ensures failed.Some? ==> Trace(Layers.FeedForwards, vs, input, |vs|) == Failure(failed.value)
    ensures failed.None? ==> Recorded(vs, input, run.View(), |vs|)
  {
    var i := 0;
    while i < |vs|
      invariant i <= |vs| && run.Valid()
      invariant Recorded(vs, input, run.View(), i)
    {
      failed := RecordLayer(run, vs, input, i);
      if failed.Some? {
        TraceFailurePersists(Layers.FeedForwards, vs, input, i + 1, |vs|);
        return;
      }
      i := i + 1;
    }
    failed := None;
  }

  /** The body of the loop of `FeedForwardsTraining`: the cursor on layer `i`, its output
    * from the run's input, stored after it. On failure the run is left with the cursor
    * moved and the error is returned. */
  method RecordLayer(run: TrainingRun, vs: seq<LayerValue>, ghost input: Tensor, i: nat) returns (failed: Option<Error>)
    requires run.Valid() && i < |vs| && Recorded(vs, input, run.View(), i)
    modifies run, run.values
    ensures run.Valid()
    ensures failed.Some? ==> Trace(Layers.FeedForwards, vs, input, i + 1) == Failure(failed.value)
    ensures failed.None? ==> Recorded(vs, input, run.View(), i + 1)
  {
    ghost var t := Trace(Layers.FeedForwards, vs, input, i).value;
    run.counter := i;
    TrainingViewInput(|vs|, t, i);
    var x := run.Input();
    var y := Layers.FeedForwards(vs[i], x.value);
    TraceStep(Layers.FeedForwards, vs, input, i, y);
    if y.Failure? {
      return Some(y.error);
    }
    TrainingViewStep(|vs|, t, i, y.value);
    var stored := run.SetOutput(Some(y.value));
    failed := None;
  }


}
