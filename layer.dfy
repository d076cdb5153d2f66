/**
 * One dense layer (neural_network/layer.py): an affine map `matrix @ x + bias`
 * followed by an activation, gradient accumulators `dmatrix`/`dbias` that
 * backpropagation adds to and `modify` applies and clears, and the caches of
 * the last forward pass.
 *
 * `LayerVal` is the state of one Layer object as a value; the functions on it
 * (StepVal, BpropagVal, ModifyVal, SetLayerVal) specify the methods of the
 * class `Layer` at the end of the module, and the lemmas state what those
 * operations promise.
 */
module Layers {
  import opened Common
  import opened Vectors
  import opened Activations

  datatype LayerVal = LayerVal(
    dimin: nat,                      // matrix.shape[1]
    dimout: nat,                     // matrix.shape[0]
    matrix: Matrix,
    bias: Vector,
    dmatrix: Matrix,
    dbias: Vector,
    activation: string,              // activation_fun
    elementwise: Option<Elementwise>,  // vec_activation / vec_activation_derivative, once set
    lastRaw: Option<Vector>,         // last_raw_data, absent before the first step
    lastNeuron: Option<Vector>)      // last_neuron_data, absent before the first step

  /** The dictionary get_layer returns and set_layer reads: "Matrix", "Bias", "Activation". */
  datatype LayerRecord = LayerRecord(matrix: Matrix, bias: Vector, activation: string)

  /**
   * The shapes every Layer keeps, a name as __init__ stores it, and the
   * elementwise function that name installs.
   */
  predicate WellShaped(m: LayerVal) {
    && IsMatrix(m.matrix, m.dimout, m.dimin) && |m.bias| == m.dimout
    && IsMatrix(m.dmatrix, m.dimout, m.dimin) && |m.dbias| == m.dimout
    && Canonical(m.activation)
    && (m.activation == "relu" ==> m.elementwise == Some(Relu))
    && (m.activation == "sigmoid" ==> m.elementwise == Some(Sigmoid))
  }

  /** Both accumulators hold only zeros. */
  predicate Cleared(m: LayerVal) {
    IsZeroMatrix(m.dmatrix) && IsZero(m.dbias)
  }

  /** `a` and `b` have the same trainable parameters and the same activation. */
  predicate SameParams(a: LayerVal, b: LayerVal) {
    && a.dimin == b.dimin && a.dimout == b.dimout
    && a.matrix == b.matrix && a.bias == b.bias
    && a.activation == b.activation && a.elementwise == b.elementwise
  }

  /**
   * `a` and `b` behave alike in step and layer_bpropag: same shape,
   * parameters and activation, and the same elementwise function wherever the
   * activation uses one.
   */
  predicate Equivalent(a: LayerVal, b: LayerVal) {
    && a.dimin == b.dimin && a.dimout == b.dimout
    && a.matrix == b.matrix && a.bias == b.bias && a.activation == b.activation
    && (a.activation != "softmax" && a.activation != "linear" ==> a.elementwise == b.elementwise)
  }

  /** `a` is `b` with at most the two caches changed. */
  predicate SameExceptCaches(a: LayerVal, b: LayerVal) {
    a.(lastRaw := b.lastRaw, lastNeuron := b.lastNeuron) == b
  }

  /** The values np.random.rand draws: every one in [0, 1). */
  ghost predicate UnitDraws(u: (nat, nat) -> real, ub: nat -> real) {
    (forall i, j :: 0.0 <= u(i, j) < 1.0) && (forall i :: 0.0 <= ub(i) < 1.0)
  }

  // ---------------------------------------------------------------------------
  // __init__
  // ---------------------------------------------------------------------------

  /**
   * Layer(dimin, dimout, activation) on a new object: `2 * rand - 1` entries,
   * zero accumulators, the activation name normalised, and the elementwise
   * function installed for relu and sigmoid only.
   */
  function Fresh(dimin: nat, dimout: nat, activation: Option<string>, u: (nat, nat) -> real, ub: nat -> real): (r: LayerVal)
    requires UnitDraws(u, ub)
    ensures WellShaped(r) && Cleared(r)
    ensures r.dimin == dimin && r.dimout == dimout
    ensures forall i, j :: 0 <= i < dimout && 0 <= j < dimin ==> -1.0 <= r.matrix[i][j] < 1.0
    ensures forall i :: 0 <= i < dimout ==> -1.0 <= r.bias[i] < 1.0
    ensures r.activation == ActivationName(activation)
    ensures r.elementwise == SelectElementwise(r.activation, None)
    ensures r.lastRaw.None? && r.lastNeuron.None?
  {
    var name := ActivationName(activation);
    LayerVal(
      dimin, dimout,
      seq(dimout, i requires 0 <= i < dimout => seq(dimin, j requires 0 <= j < dimin => 2.0 * u(i, j) - 1.0)),
      seq(dimout, i requires 0 <= i < dimout => 2.0 * ub(i) - 1.0),
      ZeroMatrix(dimout, dimin), Zeros(dimout),
      name, SelectElementwise(name, None), None, None)
  }

  // ---------------------------------------------------------------------------
  // step
  // ---------------------------------------------------------------------------

  /**
   * step can finish: the activation is linear, softmax over at least one
   * output (np.max of an empty vector raises), or another name for which an
   * elementwise function was installed (otherwise the attribute is missing).
   */
  predicate Runs(m: LayerVal) {
    if m.activation == "softmax" then m.dimout > 0
    else m.activation == "linear" || m.elementwise.Some?
  }

  /** `matrix @ x + bias`. */
  function Raw(m: LayerVal, x: Vector): (r: Vector)
    requires WellShaped(m) && |x| == m.dimin
    ensures |r| == m.dimout
  {
    Add(MatVec(m.matrix, x), m.bias)
  }

  function Activate(m: LayerVal, raw: Vector, exp: real -> real): (r: Vector)
    requires Runs(m) && |raw| == m.dimout && PositiveExp(exp)
    ensures |r| == |raw|
  {
    if m.activation == "softmax" then Softmax(raw, exp)
    else if m.activation == "linear" then raw
    else ApplyAll(m.elementwise.value, raw, exp)
  }

  datatype Stepped = Stepped(layer: LayerVal, out: Vector)

  /**
   * step on a layer that can run it: the output has length dimout, the raw sum
   * and the output are cached, nothing else changes; a linear layer returns
   * the raw sum.
   */
  function StepVal(m: LayerVal, x: Vector, exp: real -> real): (r: Stepped)
    requires WellShaped(m) && Runs(m) && |x| == m.dimin && PositiveExp(exp)
    ensures |r.out| == m.dimout
    ensures r.layer == m.(lastRaw := Some(Raw(m, x)), lastNeuron := Some(r.out))
    ensures m.activation == "linear" ==> r.out == Raw(m, x)
  {
    var raw := Raw(m, x);
    var out := Activate(m, raw, exp);
    Stepped(m.(lastRaw := Some(raw), lastNeuron := Some(out)), out)
  }

  /**
   * The range of step's output: a softmax layer gives a distribution, relu
   * never a negative value, sigmoid values strictly between 0 and 1.
   */
  lemma StepOutputRange(m: LayerVal, x: Vector, exp: real -> real)
    requires WellShaped(m) && Runs(m) && |x| == m.dimin && PositiveExp(exp)
    ensures var out := StepVal(m, x, exp).out;
      && (m.activation == "softmax" ==> Sum(out) == 1.0 && forall i :: 0 <= i < |out| ==> 0.0 < out[i] <= 1.0)
      && (m.activation == "relu" ==> forall i :: 0 <= i < |out| ==> out[i] >= 0.0)
      && (m.activation == "sigmoid" ==> forall i :: 0 <= i < |out| ==> 0.0 < out[i] < 1.0)
  {
    if m.activation == "softmax" {
      SoftmaxIsDistribution(Raw(m, x), exp);
    }
  }

  /**
   * The output of step depends only on the parameters and the activation, not
   * on the caches or the accumulators.
   */
  lemma StepDependsOnParamsOnly(a: LayerVal, b: LayerVal, x: Vector, exp: real -> real)
    requires WellShaped(a) && |x| == a.dimin && PositiveExp(exp)
    requires WellShaped(b) && Equivalent(a, b)
    ensures Runs(a) <==> Runs(b)
    ensures Runs(a) ==> StepVal(a, x, exp).out == StepVal(b, x, exp).out
  {
  }

  datatype Outcome = Outcome(layer: LayerVal, out: Result<Vector>)

  /** Whether step raises, and what it returns, depends only on the parameters and the activation. */
  lemma StepOutcomeDependsOnParamsOnly(a: LayerVal, b: LayerVal, x: Vector, exp: real -> real)
    requires WellShaped(a) && WellShaped(b) && Equivalent(a, b) && PositiveExp(exp)
    ensures StepOutcome(a, x, exp).out == StepOutcome(b, x, exp).out
  {
    if |x| == a.dimin {
      StepDependsOnParamsOnly(a, b, x, exp);
    }
  }

  /**
   * step including the ways it raises: a wrong input length fails in `@`
   * before anything changes; a layer that cannot run fails after
   * last_raw_data was cached, with EmptyReduction for softmax and
   * MissingActivation otherwise.
   */
  function StepOutcome(m: LayerVal, x: Vector, exp: real -> real): (r: Outcome)
    requires WellShaped(m) && PositiveExp(exp)
    ensures WellShaped(r.layer) && SameExceptCaches(r.layer, m)
    ensures r.out.Ok? <==> |x| == m.dimin && Runs(m)
    ensures r.out.Ok? ==> r.layer == StepVal(m, x, exp).layer && r.out.value == StepVal(m, x, exp).out
    ensures |x| != m.dimin ==> r == Outcome(m, Err(ShapeMismatch))
    ensures |x| == m.dimin && !Runs(m) ==>
      r.layer == m.(lastRaw := Some(Raw(m, x)))
      && r.out == Err(if m.activation == "softmax" then EmptyReduction else MissingActivation)
  {
    if |x| != m.dimin then Outcome(m, Err(ShapeMismatch))
    else if !Runs(m) then
      Outcome(m.(lastRaw := Some(Raw(m, x))), Err(if m.activation == "softmax" then EmptyReduction else MissingActivation))
    else
      var s := StepVal(m, x, exp);
      Outcome(s.layer, Ok(s.out))
  }

  // ---------------------------------------------------------------------------
  // layer_bpropag
  // ---------------------------------------------------------------------------

  /**
   * The incoming signal scaled by the derivative at the cached activated
   * output can be formed (always, for softmax and linear): the cache and the
   * signal have equal lengths, or one of them has length 1 and is broadcast.
   */
  predicate DeltaDefined(m: LayerVal, neurondeltas: Vector) {
    m.activation == "softmax" || m.activation == "linear"
    || (m.elementwise.Some? && m.lastNeuron.Some?
        && (BroadcastsTo(|m.lastNeuron.value|, |neurondeltas|) || BroadcastsTo(|neurondeltas|, |m.lastNeuron.value|)))
  }

  /** delta: the signal itself for softmax and linear, else derivative(last_neuron_data) * signal. */
  function Delta(m: LayerVal, neurondeltas: Vector): (r: Vector)
    requires DeltaDefined(m, neurondeltas)
    ensures |r| == if m.activation == "softmax" || m.activation == "linear" || |m.lastNeuron.value| == 1
                   then |neurondeltas| else |m.lastNeuron.value|
  {
    if m.activation == "softmax" || m.activation == "linear" then neurondeltas
    else
      var a := m.lastNeuron.value;
      var n := if |a| == 1 then |neurondeltas| else |a|;
      seq(n, i requires 0 <= i < n => Derivative(m.elementwise.value, At(a, i)) * At(neurondeltas, i))
  }

  /**
   * layer_bpropag can finish: delta exists with one entry per neuron, and the
   * previous output fits dimin (a length-1 one is broadcast by np.outer's
   * in-place addition).
   */
  predicate CanBpropag(m: LayerVal, neurondeltas: Vector, previous: Vector) {
    DeltaDefined(m, neurondeltas) && |Delta(m, neurondeltas)| == m.dimout && BroadcastsTo(|previous|, m.dimin)
  }

  datatype Backed = Backed(layer: LayerVal, out: Vector)

  /**
   * layer_bpropag: add delta to dbias and outer(delta, previous) to dmatrix,
   * return transpose(matrix) @ delta (length dimin); parameters, activation
   * and caches are untouched.
   */
  function BpropagVal(m: LayerVal, neurondeltas: Vector, previous: Vector): (r: Backed)
    requires WellShaped(m) && CanBpropag(m, neurondeltas, previous)
    ensures WellShaped(r.layer) && SameParams(r.layer, m)
    ensures r.layer.lastRaw == m.lastRaw && r.layer.lastNeuron == m.lastNeuron
    ensures |r.out| == m.dimin
    ensures r.layer.dbias == Add(m.dbias, Delta(m, neurondeltas))
    ensures r.layer.dmatrix == AddOuterInto(m.dmatrix, Delta(m, neurondeltas), previous, m.dimout, m.dimin)
    ensures |previous| == m.dimin ==> r.layer.dmatrix == MatAdd(m.dmatrix, Outer(Delta(m, neurondeltas), previous))
    ensures forall v :: |v| == m.dimin ==> Dot(r.out, v) == Dot(Delta(m, neurondeltas), MatVec(m.matrix, v))
  {
    var delta := Delta(m, neurondeltas);
    var out := TransposeMatVec(m.matrix, delta, m.dimin);
    forall v | |v| == m.dimin ensures Dot(out, v) == Dot(delta, MatVec(m.matrix, v)) {
      TransposeIsAdjoint(m.matrix, delta, m.dimin, v);
    }
    var g := AddOuterInto(m.dmatrix, delta, previous, m.dimout, m.dimin);
    assert |previous| == m.dimin ==> g == MatAdd(m.dmatrix, Outer(delta, previous)) by {
      if |previous| == m.dimin {
        AddOuterIntoExact(m.dmatrix, delta, previous);
      }
    }
    Backed(m.(dbias := Add(m.dbias, delta), dmatrix := g), out)
  }

  /**
   * layer_bpropag including the ways it raises, in the order numpy meets them:
   * a missing derivative or cache, or a signal that does not broadcast against
   * the cache, fails before anything changes; the in-place `dbias += delta`
   * needs delta to fit dbias; `dmatrix += np.outer(delta, previous)` needs the
   * previous output to fit dimin; only the final `np.transpose(matrix) @ delta`
   * needs exactly dimout entries, so a length-1 delta on a wider layer has
   * updated both accumulators by the time it raises.
   */
  function BpropagOutcome(m: LayerVal, neurondeltas: Vector, previous: Vector): (r: Outcome)
    requires WellShaped(m)
    ensures WellShaped(r.layer) && SameParams(r.layer, m)
    ensures r.layer.lastRaw == m.lastRaw && r.layer.lastNeuron == m.lastNeuron
    ensures r.out.Ok? <==> CanBpropag(m, neurondeltas, previous)
    ensures r.out.Ok? ==> r.layer == BpropagVal(m, neurondeltas, previous).layer
                          && r.out.value == BpropagVal(m, neurondeltas, previous).out
    ensures !DeltaDefined(m, neurondeltas) ==>
      r == Outcome(m, Err(if m.elementwise.None? then MissingActivation
                          else if m.lastNeuron.None? then MissingCache else ShapeMismatch))
    ensures DeltaDefined(m, neurondeltas) && r.out.Err? ==>
      var delta := Delta(m, neurondeltas);
      && r.out == Err(ShapeMismatch)
      && r.layer.dbias == (if BroadcastsTo(|delta|, m.dimout) then AddInto(m.dbias, delta) else m.dbias)
      && r.layer.dmatrix == (if BroadcastsTo(|delta|, m.dimout) && BroadcastsTo(|previous|, m.dimin)
                             then AddOuterInto(m.dmatrix, delta, previous, m.dimout, m.dimin) else m.dmatrix)
  {
    if !DeltaDefined(m, neurondeltas) then
      Outcome(m, Err(if m.elementwise.None? then MissingActivation
                     else if m.lastNeuron.None? then MissingCache else ShapeMismatch))
    else
      var delta := Delta(m, neurondeltas);
      if !BroadcastsTo(|delta|, m.dimout) then Outcome(m, Err(ShapeMismatch))
      else
        var withBias := m.(dbias := AddInto(m.dbias, delta));
        if !BroadcastsTo(|previous|, m.dimin) then Outcome(withBias, Err(ShapeMismatch))
        else
          var withBoth := withBias.(dmatrix := AddOuterInto(m.dmatrix, delta, previous, m.dimout, m.dimin));
          if |delta| != m.dimout then Outcome(withBoth, Err(ShapeMismatch))
          else Outcome(withBoth, Ok(TransposeMatVec(m.matrix, delta, m.dimin)))
  }

  /**
   * A one-entry signal reaches every neuron of an elementwise layer: each
   * bias gradient gains the derivative at that neuron times the one entry.
   */
  lemma OneEntrySignalBroadcasts(m: LayerVal, d: real, previous: Vector)
    requires WellShaped(m) && m.activation != "softmax" && m.activation != "linear"
    requires m.elementwise.Some? && m.lastNeuron.Some? && |m.lastNeuron.value| == m.dimout && m.dimout > 0
    requires |previous| == m.dimin
    ensures BpropagOutcome(m, [d], previous).out.Ok?
    ensures forall i :: 0 <= i < m.dimout ==>
      BpropagOutcome(m, [d], previous).layer.dbias[i]
        == m.dbias[i] + Derivative(m.elementwise.value, m.lastNeuron.value[i]) * d
  {
    var delta := Delta(m, [d]);
    assert |delta| == m.dimout;
    forall i | 0 <= i < m.dimout ensures delta[i] == Derivative(m.elementwise.value, m.lastNeuron.value[i]) * d {
    }
  }

  /**
   * A one-entry signal on a softmax or linear layer of several neurons is
   * added to every bias gradient and every matrix-gradient row before the
   * final product raises: the layer keeps those updates.
   */
  lemma OneEntrySignalFailsLate(m: LayerVal, d: real, previous: Vector)
    requires WellShaped(m) && (m.activation == "softmax" || m.activation == "linear") && m.dimout != 1
    requires BroadcastsTo(|previous|, m.dimin)
    ensures BpropagOutcome(m, [d], previous).out == Err(ShapeMismatch)
    ensures forall i :: 0 <= i < m.dimout ==> BpropagOutcome(m, [d], previous).layer.dbias[i] == m.dbias[i] + d
    ensures forall i, j :: 0 <= i < m.dimout && 0 <= j < m.dimin ==>
      BpropagOutcome(m, [d], previous).layer.dmatrix[i][j] == m.dmatrix[i][j] + d * At(previous, j)
  {
    PassThroughDelta(m, [d]);
    forall i, j | 0 <= i < m.dimout && 0 <= j < m.dimin
      ensures BpropagOutcome(m, [d], previous).layer.dmatrix[i][j] == m.dmatrix[i][j] + d * At(previous, j)
    {
      AddOuterIntoAt(m.dmatrix, [d], previous, m.dimout, m.dimin, i, j);
    }
  }

  /** For softmax and linear layers the delta is the incoming signal unchanged. */
  lemma PassThroughDelta(m: LayerVal, neurondeltas: Vector)
    requires m.activation == "softmax" || m.activation == "linear"
    ensures Delta(m, neurondeltas) == neurondeltas
  {
  }

  // ---------------------------------------------------------------------------
  // modify
  // ---------------------------------------------------------------------------

  /**
   * modify(deltat, n): every parameter moves by minus its accumulated gradient
   * times deltat / n, and both accumulators are zeroed.
   */
  function ModifyVal(m: LayerVal, deltat: real, n: int): (r: LayerVal)
    requires WellShaped(m) && n != 0
    ensures WellShaped(r) && Cleared(r)
    ensures r.dimin == m.dimin && r.dimout == m.dimout && r.activation == m.activation
    ensures r.elementwise == m.elementwise && r.lastRaw == m.lastRaw && r.lastNeuron == m.lastNeuron
    ensures forall i, j :: 0 <= i < m.dimout && 0 <= j < m.dimin ==>
      r.matrix[i][j] == m.matrix[i][j] - m.dmatrix[i][j] * deltat / (n as real)
    ensures forall i :: 0 <= i < m.dimout ==> r.bias[i] == m.bias[i] - m.dbias[i] * deltat / (n as real)
  {
    m.(matrix := MatDescend(m.matrix, m.dmatrix, deltat, n), bias := Descend(m.bias, m.dbias, deltat, n),
       dmatrix := ZeroMatrix(m.dimout, m.dimin), dbias := Zeros(m.dimout))
  }

  /** With deltat = 0 the parameters are unchanged (only the accumulators are cleared). */
  lemma ModifyZeroRate(m: LayerVal, n: int)
    requires WellShaped(m) && n != 0
    ensures SameParams(ModifyVal(m, 0.0, n), m)
  {
    var r := ModifyVal(m, 0.0, n);
    assert r.matrix == m.matrix by {
      forall i | 0 <= i < m.dimout ensures r.matrix[i] == m.matrix[i] {
        assert |r.matrix[i]| == |m.matrix[i]|;
      }
    }
    assert r.bias == m.bias;
  }

  /** With cleared accumulators modify changes nothing: a second modify in a row has no effect. */
  lemma ModifyCleared(m: LayerVal, deltat: real, n: int)
    requires WellShaped(m) && Cleared(m) && n != 0
    ensures ModifyVal(m, deltat, n) == m
  {
    var r := ModifyVal(m, deltat, n);
    assert r.matrix == m.matrix by {
      forall i | 0 <= i < m.dimout ensures r.matrix[i] == m.matrix[i] {
        assert |r.matrix[i]| == |m.matrix[i]|;
      }
    }
    assert r.bias == m.bias;
    assert r.dmatrix == m.dmatrix by {
      forall i | 0 <= i < m.dimout ensures r.dmatrix[i] == m.dmatrix[i] {
        assert |r.dmatrix[i]| == |m.dmatrix[i]|;
      }
    }
    assert r.dbias == m.dbias;
  }

  lemma ModifyTwice(m: LayerVal, deltat: real, n: int, deltat': real, n': int)
    requires WellShaped(m) && n != 0 && n' != 0
    ensures ModifyVal(ModifyVal(m, deltat, n), deltat', n') == ModifyVal(m, deltat, n)
  {
    ModifyCleared(ModifyVal(m, deltat, n), deltat', n');
  }

  // ---------------------------------------------------------------------------
  // get_layer / set_layer
  // ---------------------------------------------------------------------------

  function GetLayerVal(m: LayerVal): LayerRecord {
    LayerRecord(m.matrix, m.bias, m.activation)
  }

  /**
   * set_layer re-runs __init__ on the object with the record's matrix and bias:
   * dimout = len(Matrix), dimin = len(Matrix[0]), zero accumulators; the
   * elementwise function is replaced only for relu and sigmoid, and the caches
   * are kept. An empty Matrix raises IndexError, a ragged one ValueError, and a
   * Bias whose length differs from the row count is rejected.
   */
  function SetLayerVal(m: LayerVal, data: LayerRecord): (r: Result<LayerVal>)
    ensures r.Ok? ==> WellShaped(r.value) && Cleared(r.value)
    ensures r.Ok? <==> data.matrix != [] && IsMatrix(data.matrix, |data.matrix|, |data.matrix[0]|)
                        && |data.bias| == |data.matrix|
    ensures data.matrix == [] ==> r == Err(MissingIndex)
    ensures r.Ok? ==> r.value.matrix == data.matrix && r.value.bias == data.bias
                      && r.value.dimout == |data.matrix| && r.value.dimin == |data.matrix[0]|
                      && r.value.activation == ActivationName(Some(data.activation))
                      && r.value.elementwise == SelectElementwise(r.value.activation, m.elementwise)
                      && r.value.lastRaw == m.lastRaw && r.value.lastNeuron == m.lastNeuron
  {
    if data.matrix == [] then Err(MissingIndex)
    else if !IsMatrix(data.matrix, |data.matrix|, |data.matrix[0]|) then Err(RaggedMatrix)
    else if |data.bias| != |data.matrix| then Err(ShapeMismatch)
    else
      var dimin, dimout := |data.matrix[0]|, |data.matrix|;
      var name := ActivationName(Some(data.activation));
      Ok(m.(dimin := dimin, dimout := dimout, matrix := data.matrix, bias := data.bias,
            dmatrix := ZeroMatrix(dimout, dimin), dbias := Zeros(dimout),
            activation := name, elementwise := SelectElementwise(name, m.elementwise)))
  }

  /** Which names step handles itself or through an installed elementwise function. */
  predicate KnownActivation(name: string) {
    name == "relu" || name == "sigmoid" || name == "softmax" || name == "linear"
  }

  /**
   * set_layer(get_layer()) reproduces matrix, bias, shape and activation name,
   * for any layer with at least one output; a layer with none cannot be
   * reloaded (Matrix[0] does not exist).
   */
  lemma GetSetRoundTrip(a: LayerVal, b: LayerVal)
    requires WellShaped(a)
    ensures SetLayerVal(b, GetLayerVal(a)).Ok? <==> a.dimout > 0
    ensures a.dimout > 0 ==>
      var r := SetLayerVal(b, GetLayerVal(a)).value;
      r.matrix == a.matrix && r.bias == a.bias && r.dimin == a.dimin && r.dimout == a.dimout
      && r.activation == a.activation && Cleared(r)
      && (KnownActivation(a.activation) ==> Equivalent(r, a))
  {
    CanonicalNameKept(a.activation);
    if a.dimout > 0 {
      assert |a.matrix[0]| == a.dimin;
    }
  }

  /**
   * A layer with a known activation, saved and loaded into another object,
   * computes the same step output as the original.
   */
  lemma ReloadedStepsAlike(a: LayerVal, b: LayerVal, x: Vector, exp: real -> real)
    requires WellShaped(a) && a.dimout > 0 && Runs(a) && KnownActivation(a.activation)
    requires |x| == a.dimin && PositiveExp(exp)
    ensures SetLayerVal(b, GetLayerVal(a)).Ok?
    ensures var r := SetLayerVal(b, GetLayerVal(a)).value;
      Runs(r) && StepVal(r, x, exp).out == StepVal(a, x, exp).out
  {
    GetSetRoundTrip(a, b);
    StepDependsOnParamsOnly(a, SetLayerVal(b, GetLayerVal(a)).value, x, exp);
  }

  /**
   * A layer with an unknown activation name loaded into an object that already
   * had an elementwise function (Layer() installs sigmoid) keeps that
   * function, so it runs even when the original layer could not.
   */
  lemma ReloadedUnknownKeepsPrevious(a: LayerVal, b: LayerVal, x: Vector, exp: real -> real)
    requires WellShaped(a) && a.dimout > 0 && !KnownActivation(a.activation)
    requires b.elementwise.Some? && |x| == a.dimin && PositiveExp(exp)
    ensures SetLayerVal(b, GetLayerVal(a)).Ok?
    ensures var r := SetLayerVal(b, GetLayerVal(a)).value;
      Runs(r) && StepVal(r, x, exp).out == ApplyAll(b.elementwise.value, Raw(a, x), exp)
  {
    GetSetRoundTrip(a, b);
  }

  // ---------------------------------------------------------------------------
  // Transpose is the adjoint of the forward map
  // ---------------------------------------------------------------------------

  lemma {:induction false} DotAdd(a: Vector, b: Vector, x: Vector)
    requires |a| == |b| == |x|
    ensures Dot(Add(a, b), x) == Dot(a, x) + Dot(b, x)
    decreases |a|
  {
    if a != [] {
      assert Add(a, b)[1..] == Add(a[1..], b[1..]);
      DotAdd(a[1..], b[1..], x[1..]);
    }
  }

  lemma {:induction false} DotScale(c: real, a: Vector, x: Vector)
    requires |a| == |x|
    ensures Dot(Scale(c, a), x) == c * Dot(a, x)
    decreases |a|
  {
    if a != [] {
      var s, t := Scale(c, a)[1..], Scale(c, a[1..]);
      assert |s| == |t| && forall i :: 0 <= i < |s| ==> s[i] == t[i];
      assert s == t;
      DotScale(c, a[1..], x[1..]);
    }
  }

  lemma {:induction false} DotZeros(n: nat, x: Vector)
    requires |x| == n
    ensures Dot(Zeros(n), x) == 0.0
    decreases n
  {
    if n > 0 {
      assert Zeros(n)[1..] == Zeros(n - 1);
      DotZeros(n - 1, x[1..]);
    }
  }

  /** `<transpose(m) @ d, x> == <d, m @ x>`: the returned signal is the adjoint of the forward map applied to delta. */
  lemma {:induction false} TransposeIsAdjoint(m: Matrix, d: Vector, cols: nat, x: Vector)
    requires IsMatrix(m, |d|, cols) && |x| == cols
    ensures Dot(TransposeMatVec(m, d, cols), x) == Dot(d, MatVec(m, x))
    decreases |d|
  {
    if d == [] {
      assert TransposeMatVec(m, d, cols) == Zeros(cols);
      DotZeros(cols, x);
    } else {
      var m', d' := m[1..], d[1..];
      var t' := TransposeMatVec(m', d', cols);
      TransposeFirstRow(m, d, cols);
      DotAdd(Scale(d[0], m[0]), t', x);
      DotScale(d[0], m[0], x);
      TransposeIsAdjoint(m', d', cols, x);
      MatVecFirstRow(m, x);
    }
  }

  /** transpose(m) @ d splits into the first row scaled by d[0] and the rest. */
  lemma TransposeFirstRow(m: Matrix, d: Vector, cols: nat)
    requires IsMatrix(m, |d|, cols) && d != []
    ensures TransposeMatVec(m, d, cols) == Add(Scale(d[0], m[0]), TransposeMatVec(m[1..], d[1..], cols))
  {
    var t := TransposeMatVec(m, d, cols);
    var t' := TransposeMatVec(m[1..], d[1..], cols);
    forall j | 0 <= j < cols ensures t[j] == Scale(d[0], m[0])[j] + t'[j] {
      assert Column(m, j)[1..] == Column(m[1..], j);
    }
  }

  /** <d, m @ x> splits into d[0] times the first row's product and the rest. */
  lemma MatVecFirstRow(m: Matrix, x: Vector)
    requires m != [] && forall i :: 0 <= i < |m| ==> |m[i]| == |x|
    ensures MatVec(m, x)[0] == Dot(m[0], x) && MatVec(m, x)[1..] == MatVec(m[1..], x)
  {
    var r, r' := MatVec(m, x), MatVec(m[1..], x);
    forall i | 0 <= i < |r'| ensures r[1..][i] == r'[i] {
      MatVecTailAt(m, x, i);
    }
  }

  lemma MatVecTailAt(m: Matrix, x: Vector, i: nat)
    requires i + 1 < |m| && forall k :: 0 <= k < |m| ==> |m[k]| == |x|
    ensures MatVec(m, x)[i + 1] == MatVec(m[1..], x)[i]
  {
    assert m[1..][i] == m[i + 1];
  }

  // ---------------------------------------------------------------------------
  // The Layer object
  // ---------------------------------------------------------------------------

  class Layer {
    var dimin: nat
    var dimout: nat
    var matrix: Matrix
    var bias: Vector
    var dmatrix: Matrix
    var dbias: Vector
    var activationFun: string
    var vecActivation: Option<Elementwise>
    var lastRawData: Option<Vector>
    var lastNeuronData: Option<Vector>

    ghost function Model(): LayerVal
      reads this
    {
      LayerVal(dimin, dimout, matrix, bias, dmatrix, dbias, activationFun, vecActivation, lastRawData, lastNeuronData)
    }

    ghost predicate Valid()
      reads this
    {
      WellShaped(Model())
    }

    /** Layer(dimin, dimout, activation) with np.random.rand drawing `u` and `ub`. */
    constructor (dimin: nat, dimout: nat, activation: Option<string>, u: (nat, nat) -> real, ub: nat -> real)
      requires UnitDraws(u, ub)
      ensures Valid() && Model() == Fresh(dimin, dimout, activation, u, ub)
    {
      var f := Fresh(dimin, dimout, activation, u, ub);
      this.dimin, this.dimout := dimin, dimout;
      matrix, bias := f.matrix, f.bias;
      dmatrix, dbias := f.dmatrix, f.dbias;
      activationFun, vecActivation := f.activation, f.elementwise;
      lastRawData, lastNeuronData := None, None;
    }

    /** step: raises where StepOutcome says, after caching what the source caches. */
    method Step(vectorIn: Vector, exp: real -> real) returns (r: Result<Vector>)
      requires Valid() && PositiveExp(exp)
      modifies this
      ensures Valid()
      ensures Model() == StepOutcome(old(Model()), vectorIn, exp).layer
      ensures r == StepOutcome(old(Model()), vectorIn, exp).out
    {
      if |vectorIn| != dimin {
        return Err(ShapeMismatch);
      }
      var v := Add(MatVec(matrix, vectorIn), bias);
      lastRawData := Some(v);
      if activationFun == "softmax" {
        if v == [] {
          return Err(EmptyReduction);
        }
        v := Softmax(v, exp);
      } else if activationFun == "linear" {
      } else {
        if vecActivation.None? {
          return Err(MissingActivation);
        }
        v := ApplyAll(vecActivation.value, v, exp);
      }
      lastNeuronData := Some(v);
      return Ok(v);
    }

    /**
     * layer_bpropag, raising where BpropagOutcome says; a delta that fits the
     * accumulators but not the final product leaves them updated.
     */
    method LayerBpropag(neurondeltas: Vector, previousLayerData: Vector) returns (r: Result<Vector>)
      requires Valid()
      modifies this
      ensures Valid()
      ensures Model() == BpropagOutcome(old(Model()), neurondeltas, previousLayerData).layer
      ensures r == BpropagOutcome(old(Model()), neurondeltas, previousLayerData).out
    {
      var delta;
      if activationFun == "softmax" || activationFun == "linear" {
        delta := neurondeltas;
      } else {
        if vecActivation.None? {
          return Err(MissingActivation);
        }
        if lastNeuronData.None? {
          return Err(MissingCache);
        }
        var f, a := vecActivation.value, lastNeuronData.value;
        if !BroadcastsTo(|a|, |neurondeltas|) && !BroadcastsTo(|neurondeltas|, |a|) {
          return Err(ShapeMismatch);
        }
        var n := if |a| == 1 then |neurondeltas| else |a|;
        delta := seq(n, i requires 0 <= i < n => Derivative(f, At(a, i)) * At(neurondeltas, i));
      }
      assert delta == Delta(old(Model()), neurondeltas);
      if !BroadcastsTo(|delta|, dimout) {
        return Err(ShapeMismatch);
      }
      dbias := AddInto(dbias, delta);
      if !BroadcastsTo(|previousLayerData|, dimin) {
        return Err(ShapeMismatch);
      }
      dmatrix := AddOuterInto(dmatrix, delta, previousLayerData, dimout, dimin);
      if |delta| != dimout {
        return Err(ShapeMismatch);
      }
      return Ok(TransposeMatVec(matrix, delta, dimin));
    }

    /** modify(deltat, n); n is the batch size and is never 0 (numpy would produce NaN). */
    method Modify(deltat: real, n: int)
      requires Valid() && n != 0
      modifies this
      ensures Valid() && Model() == ModifyVal(old(Model()), deltat, n)
    {
      matrix := MatDescend(matrix, dmatrix, deltat, n);
      dmatrix := ZeroMatrix(dimout, dimin);
      bias := Descend(bias, dbias, deltat, n);
      dbias := Zeros(dimout);
    }

    method GetLayer() returns (data: LayerRecord)
      requires Valid()
      ensures data == GetLayerVal(Model())
    {
      data := LayerRecord(matrix, bias, activationFun);
    }

    /** set_layer: on an error nothing changes. */
    method SetLayer(data: LayerRecord) returns (r: Result<()>)
      requires Valid()
      modifies this
      ensures Valid()
      ensures SetLayerVal(old(Model()), data).Ok? ==> r.Ok? && Model() == SetLayerVal(old(Model()), data).value
      ensures SetLayerVal(old(Model()), data).Err? ==>
        r == Err(SetLayerVal(old(Model()), data).fault) && Model() == old(Model())
    {
      if data.matrix == [] {
        return Err(MissingIndex);
      }
      if !IsMatrix(data.matrix, |data.matrix|, |data.matrix[0]|) {
        return Err(RaggedMatrix);
      }
      if |data.bias| != |data.matrix| {
        return Err(ShapeMismatch);
      }
      dimin, dimout := |data.matrix[0]|, |data.matrix|;
      matrix, bias := data.matrix, data.bias;
      dmatrix, dbias := ZeroMatrix(dimout, dimin), Zeros(dimout);
      activationFun := ActivationName(Some(data.activation));
      vecActivation := SelectElementwise(activationFun, vecActivation);
      return Ok(());
    }
  }
}
