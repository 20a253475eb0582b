/** The piecewise-linear activation functions and their gradients. Values are reals; the
  * library's single-precision rounding is not modelled. */
module ActivationFns {

  /** The gradient of `Relu`: 1 on the positive side, 0 elsewhere. */
  function ReluGrad(x: real): (g: real)
    ensures g == 1.0 || g == 0.0
    ensures g == 1.0 <==> x > 0.0
  {
    if x > 0.0 then 1.0 else 0.0
  }

  /** `Relu(x) = ReluGrad(x) * x`, which is `max(0, x)`. */
  function Relu(x: real): (y: real)
    ensures y >= 0.0 && y >= x
    ensures y == x || y == 0.0
  {
    ReluGrad(x) * x
  }

  function LeakyReluGrad(x: real): (g: real)
    ensures g == 1.0 || g == 0.1
    ensures g == 1.0 <==> x > 0.0
  {
    if x > 0.0 then 1.0 else 0.1
  }

  /** `LeakyRelu(x) = LeakyReluGrad(x) * x`: the identity on the positive side, a tenth
    * of the input elsewhere. */
  function LeakyRelu(x: real): (y: real)
    ensures x > 0.0 ==> y == x
    ensures x <= 0.0 ==> y == 0.1 * x
  {
    LeakyReluGrad(x) * x
  }

  /** The slope of `ReluSig`: 0.075 on the open interval (-4, 4), 0.01 outside it. */
  function ReluSigGrad(x: real): (g: real)
    ensures -4.0 < x < 4.0 ==> g == 0.075
    ensures (x <= -4.0 || x >= 4.0) ==> g == 0.01
  {
    if (if x < 0.0 then -x else x) < 4.0 then 0.075 else 0.01
  }

  /** The intercept of `ReluSig`: 0.24 below 4, 0.76 above 4 and 0.5 at 4 itself, the
    * default case of the switch. */
  function JaggedSigYIntercept(x: real): (b: real)
    ensures x < 4.0 ==> b == 0.24
    ensures x > 4.0 ==> b == 0.76
    ensures x == 4.0 ==> b == 0.5
  {
    if x < 4.0 then 0.24 else if x > 4.0 then 0.76 else 0.5
  }

  /** `ReluSig(x) = ReluSigGrad(x) * x + JaggedSigYIntercept(x)`: a jagged, piecewise-linear
    * stand-in for the sigmoid. */
  function ReluSig(x: real): (y: real)
    ensures -4.0 < x < 4.0 ==> y == 0.075 * x + 0.24
    ensures x < -4.0 || x == -4.0 ==> y == 0.01 * x + 0.24
    ensures x > 4.0 ==> y == 0.01 * x + 0.76
    ensures x == 4.0 ==> y == 0.54
  {
    ReluSigGrad(x) * x + JaggedSigYIntercept(x)
  }

  /** The activations the layers bind, each with its gradient. */
  datatype Activation = Activation(fn: real -> real, grad: real -> real)

  function ReluActivation(): (a: Activation)
    ensures a.fn == Relu && a.grad == ReluGrad
  {
    Activation(Relu, ReluGrad)
  }

  function ReluSigActivation(): (a: Activation)
    ensures a.fn == ReluSig && a.grad == ReluSigGrad
  {
    Activation(ReluSig, ReluSigGrad)
  }

  // ---------------------------------------------------------------- gradients are slopes

  /** Away from the kink at 0, `ReluGrad` is the slope of `Relu`: a step that stays on one
    * side changes `Relu` by the gradient times the step. */
  lemma ReluGradIsSlope(x: real, d: real)
    requires (x > 0.0 && x + d > 0.0) || (x <= 0.0 && x + d <= 0.0)
    ensures Relu(x + d) - Relu(x) == ReluGrad(x) * d
  {
  }

  lemma LeakyReluGradIsSlope(x: real, d: real)
    requires (x > 0.0 && x + d > 0.0) || (x <= 0.0 && x + d <= 0.0)
    ensures LeakyRelu(x + d) - LeakyRelu(x) == LeakyReluGrad(x) * d
  {
  }

  /** On each of the three open pieces `ReluSigGrad` is the slope of `ReluSig`. */
  lemma ReluSigGradIsSlope(x: real, d: real)
    requires (-4.0 < x < 4.0 && -4.0 < x + d < 4.0) || (x > 4.0 && x + d > 4.0) || (x < -4.0 && x + d < -4.0)
    ensures ReluSig(x + d) - ReluSig(x) == ReluSigGrad(x) * d
  {
  }

  /** `ReluSig` jumps at 4: just below it tends to 0.54, just above to 0.80. */
  lemma ReluSigJumpsAtFour()
    ensures ReluSig(4.0) == 0.54
    ensures forall x | 4.0 < x :: ReluSig(x) > 0.8
    ensures forall x | 0.0 <= x < 4.0 :: ReluSig(x) < 0.54
  {
  }

  lemma ActivationRegression()
    ensures Relu(-10.0) == 0.0 && Relu(0.0) == 0.0 && Relu(10.0) == 10.0
    ensures ReluGrad(-10.0) == 0.0 && ReluGrad(-0.00001) == 0.0 && ReluGrad(0.00001) == 1.0 && ReluGrad(10.0) == 1.0
  {
  }
}
