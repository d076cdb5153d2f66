/**
 * Activation functions of a dense layer (neural_network/layer.py) and the
 * handling of activation names. The exponential is a parameter `exp`, about
 * which the model assumes only that it is positive.
 */
module Activations {
  import opened Common
  import opened Vectors

  /** The activations applied one component at a time through np.vectorize. */
  datatype Elementwise = Relu | Sigmoid

  /** The exponential is positive everywhere. */
  ghost predicate PositiveExp(exp: real -> real) {
    forall t :: exp(t) > 0.0
  }

  // ---------------------------------------------------------------------------
  // Names
  // ---------------------------------------------------------------------------

  function LowerChar(c: char): char {
    if 'A' <= c <= 'Z' then ((c as int) + 32) as char else c
  }

  /** str.lower() on the ASCII letters. */
  function Lower(s: string): (r: string)
    ensures |r| == |s|
  {
    seq(|s|, i requires 0 <= i < |s| => LowerChar(s[i]))
  }

  /** A name as __init__ stores it: non-empty, with no upper-case ASCII letter. */
  predicate Canonical(name: string) {
    name != [] && forall i :: 0 <= i < |name| ==> !('A' <= name[i] <= 'Z')
  }

  /** `activation.lower() if activation else "linear"`: None and "" both become "linear". */
  function ActivationName(activation: Option<string>): (name: string)
    ensures Canonical(name)
    ensures activation.Some? && activation.value != [] ==> name == Lower(activation.value)
    ensures activation.None? || activation.value == [] ==> name == "linear"
  {
    match activation
    case None => "linear"
    case Some(s) => if s == "" then "linear" else Lower(s)
  }

  /** A stored name read back as an activation is kept as it is. */
  lemma CanonicalNameKept(name: string)
    requires Canonical(name)
    ensures ActivationName(Some(name)) == name
  {
    assert forall i :: 0 <= i < |name| ==> LowerChar(name[i]) == name[i];
  }

  /** Normalising a name twice gives the same name. */
  lemma ActivationNameIdempotent(activation: Option<string>)
    ensures ActivationName(Some(ActivationName(activation))) == ActivationName(activation)
  {
    CanonicalNameKept(ActivationName(activation));
  }

  /**
   * The elementwise function __init__ installs for a name: relu and sigmoid
   * install their own; any other name keeps whatever the object had before.
   */
  function SelectElementwise(name: string, previous: Option<Elementwise>): (r: Option<Elementwise>)
    ensures name == "relu" ==> r == Some(Relu)
    ensures name == "sigmoid" ==> r == Some(Sigmoid)
    ensures name != "relu" && name != "sigmoid" ==> r == previous
  {
    if name == "relu" then Some(Relu)
    else if name == "sigmoid" then Some(Sigmoid)
    else previous
  }

  // ---------------------------------------------------------------------------
  // Scalar activations and their derivatives at the activated value
  // ---------------------------------------------------------------------------

  /** activation_relu: max(0, num). */
  function ActivationRelu(x: real): (r: real)
    ensures r >= 0.0 && r >= x
    ensures r == x || r == 0.0
  {
    if x > 0.0 then x else 0.0
  }

  /** activation_sigmoid: 1 / (1 + exp(-num)). */
  function ActivationSigmoid(x: real, exp: real -> real): (r: real)
    requires PositiveExp(exp)
    ensures 0.0 < r < 1.0
  {
    assert exp(-x) > 0.0;
    1.0 / (1.0 + exp(-x))
  }

  /** activation_derivative_relu, taken at the activated value. */
  function DerivativeRelu(a: real): (r: real)
    ensures r == 0.0 || r == 1.0
  {
    if a > 0.0 then 1.0 else 0.0
  }

  /** activation_derivative_sigmoid, taken at the activated value. */
  function DerivativeSigmoid(a: real): real {
    a * (1.0 - a)
  }

  /**
   * Taking relu's derivative at the activated value agrees with taking it at
   * the raw value: both are 1 exactly for a positive raw value.
   */
  lemma ReluDerivativeAtActivated(x: real)
    ensures DerivativeRelu(ActivationRelu(x)) == (if x > 0.0 then 1.0 else 0.0)
  {
  }

  /** At an activated sigmoid value, the derivative lies in (0, 1/4]. */
  lemma SigmoidDerivativeBounds(x: real, exp: real -> real)
    requires PositiveExp(exp)
    ensures 0.0 < DerivativeSigmoid(ActivationSigmoid(x, exp)) <= 0.25
  {
    var a := ActivationSigmoid(x, exp);
    assert DerivativeSigmoid(a) == 0.25 - (a - 0.5) * (a - 0.5);
    assert a * (1.0 - a) > 0.0;
  }

  function Apply(f: Elementwise, x: real, exp: real -> real): real
    requires PositiveExp(exp)
  {
    match f
    case Relu => ActivationRelu(x)
    case Sigmoid => ActivationSigmoid(x, exp)
  }

  function Derivative(f: Elementwise, a: real): real {
    match f
    case Relu => DerivativeRelu(a)
    case Sigmoid => DerivativeSigmoid(a)
  }

  /** np.vectorize(activation): the function applied to every component. */
  function ApplyAll(f: Elementwise, v: Vector, exp: real -> real): (r: Vector)
    requires PositiveExp(exp)
    ensures |r| == |v|
  {
    seq(|v|, i requires 0 <= i < |v| => Apply(f, v[i], exp))
  }

  // ---------------------------------------------------------------------------
  // Softmax
  // ---------------------------------------------------------------------------

  /** np.max: the largest component. */
  function Max(v: Vector): (r: real)
    requires v != []
    ensures forall i :: 0 <= i < |v| ==> v[i] <= r
    ensures exists i :: 0 <= i < |v| && v[i] == r
  {
    if |v| == 1 then v[0]
    else
      var m := Max(v[1..]);
      assert forall i :: 1 <= i < |v| ==> v[i] == v[1..][i - 1];
      if v[0] >= m then v[0] else m
  }

  /** exp(v - max(v)), the numerically stable exponentials. */
  function ShiftedExps(v: Vector, exp: real -> real): (r: Vector)
    requires v != []
    ensures |r| == |v|
  {
    var m := Max(v);
    seq(|v|, i requires 0 <= i < |v| => exp(v[i] - m))
  }

  lemma DivideBounds(x: real, s: real)
    requires 0.0 < x <= s
    ensures 0.0 < x / s <= 1.0
  {
  }

  lemma DivideAsScale(x: real, s: real)
    requires s != 0.0
    ensures x / s == (1.0 / s) * x
  {
  }

  /** The shifted exponentials are positive, and so is their sum. */
  lemma ShiftedExpsPositive(v: Vector, exp: real -> real)
    requires v != [] && PositiveExp(exp)
    ensures forall i :: 0 <= i < |v| ==> ShiftedExps(v, exp)[i] > 0.0
    ensures Sum(ShiftedExps(v, exp)) > 0.0
  {
    var e := ShiftedExps(v, exp);
    assert forall i :: 0 <= i < |e| ==> e[i] > 0.0;
    SumPositive(e);
  }

  /** Softmax as step computes it: exps / sum(exps). */
  function Softmax(v: Vector, exp: real -> real): (r: Vector)
    requires v != [] && PositiveExp(exp)
    ensures |r| == |v|
  {
    var e := ShiftedExps(v, exp);
    ShiftedExpsPositive(v, exp);
    var s := Sum(e);
    seq(|e|, i requires 0 <= i < |e| => e[i] / s)
  }

  lemma InverseTimes(s: real)
    requires s > 0.0
    ensures (1.0 / s) * s == 1.0
  {
  }

  /** Softmax is the shifted exponentials scaled by the inverse of their sum. */
  lemma SoftmaxIsScaled(v: Vector, exp: real -> real)
    requires v != [] && PositiveExp(exp)
    ensures Sum(ShiftedExps(v, exp)) > 0.0
    ensures Softmax(v, exp) == Scale(1.0 / Sum(ShiftedExps(v, exp)), ShiftedExps(v, exp))
  {
    var e := ShiftedExps(v, exp);
    ShiftedExpsPositive(v, exp);
    var s := Sum(e);
    forall i | 0 <= i < |e| ensures Softmax(v, exp)[i] == Scale(1.0 / s, e)[i] {
      DivideAsScale(e[i], s);
    }
  }

  /** Each component of softmax lies in (0, 1]. */
  lemma SoftmaxBounds(v: Vector, exp: real -> real)
    requires v != [] && PositiveExp(exp)
    ensures forall i :: 0 <= i < |v| ==> 0.0 < Softmax(v, exp)[i] <= 1.0
  {
    var e := ShiftedExps(v, exp);
    ShiftedExpsPositive(v, exp);
    forall i | 0 <= i < |e| ensures 0.0 < Softmax(v, exp)[i] <= 1.0 {
      SumBoundsTerm(e, i);
      DivideBounds(e[i], Sum(e));
    }
  }

  /**
   * Given a positive exponential, every component of softmax lies in (0, 1]
   * and the components sum to 1.
   */
  lemma SoftmaxIsDistribution(v: Vector, exp: real -> real)
    requires v != [] && PositiveExp(exp)
    ensures forall i :: 0 <= i < |v| ==> 0.0 < Softmax(v, exp)[i] <= 1.0
    ensures Sum(Softmax(v, exp)) == 1.0
  {
    SoftmaxBounds(v, exp);
    SoftmaxIsScaled(v, exp);
    var e := ShiftedExps(v, exp);
    SumScale(1.0 / Sum(e), e);
    InverseTimes(Sum(e));
  }
}
