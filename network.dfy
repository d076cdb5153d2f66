/**
 * A chain of dense layers (neural_network/network.py): the constructor builds
 * one Layer per consecutive pair of spec entries, compute folds step over
 * them, learn runs mini-batch backpropagation (accumulate over the batch,
 * then apply once), and get_network / set_network convert to and from an
 * in-memory {"Meta", "Data", "Layers"} record.
 *
 * The functions on `seq<LayerVal>` specify the methods of the class `Network`
 * at the end of the module.
 */
module Networks {
  import opened Common
  import opened Vectors
  import opened Activations
  import opened Layers

  /** One entry of the spec list, {"neurons": n, "activation": a}; a missing activation reads as None. */
  datatype LayerSpec = LayerSpec(neurons: nat, activation: Option<string>)

  /** The dictionary get_network returns and set_network reads. */
  datatype NetworkRecord = NetworkRecord(meta: string, data: seq<LayerRecord>, layers: seq<LayerSpec>)

  /** Every layer keeps its shapes. */
  predicate AllWellShaped(ms: seq<LayerVal>) {
    forall k :: 0 <= k < |ms| ==> WellShaped(ms[k])
  }

  function DimIn(ms: seq<LayerVal>, k: nat): nat
    requires k < |ms|
  {
    ms[k].dimin
  }

  function DimOut(ms: seq<LayerVal>, k: nat): nat
    requires k < |ms|
  {
    ms[k].dimout
  }

  /** Each layer's input width is the previous layer's output width. */
  predicate Linked(ms: seq<LayerVal>, k: nat)
    requires k <= |ms|
  {
    forall i :: 0 < i < k ==> DimIn(ms, i) == DimOut(ms, i - 1)
  }

  /** The layers keep their shapes and each one's input width is the previous one's output width. */
  predicate Chained(ms: seq<LayerVal>) {
    AllWellShaped(ms) && Linked(ms, |ms|)
  }

  /** Every layer can step. */
  predicate AllRun(ms: seq<LayerVal>) {
    forall k :: 0 <= k < |ms| ==> Runs(ms[k])
  }

  /** Layers with the same shapes, parameters and activations as a chain form the same chain. */
  lemma SameParamsKeepChain(ms: seq<LayerVal>, ns: seq<LayerVal>)
    requires |ms| == |ns| && AllWellShaped(ns) && Chained(ms)
    requires forall i :: 0 <= i < |ms| ==> SameParams(ns[i], ms[i])
    ensures Chained(ns) && (AllRun(ms) ==> AllRun(ns))
  {
    forall i | 0 < i < |ns| ensures DimIn(ns, i) == DimOut(ns, i - 1) {
      assert SameParams(ns[i], ms[i]) && SameParams(ns[i - 1], ms[i - 1]);
      assert DimIn(ms, i) == DimOut(ms, i - 1);
    }
  }

  lemma CachesOnlyKeepParams(ms: seq<LayerVal>, ns: seq<LayerVal>)
    requires |ms| == |ns|
    requires forall i :: 0 <= i < |ms| ==> SameExceptCaches(ns[i], ms[i])
    ensures forall i :: 0 <= i < |ms| ==> SameParams(ns[i], ms[i])
  {
    forall i | 0 <= i < |ms| ensures SameParams(ns[i], ms[i]) {
      assert SameExceptCaches(ns[i], ms[i]);
    }
  }

  // ---------------------------------------------------------------------------
  // __init__
  // ---------------------------------------------------------------------------

  /** The values np.random.rand draws for the k-th layer: u(k, i, j) and ub(k, i), all in [0, 1). */
  ghost predicate NetworkDraws(u: (nat, nat, nat) -> real, ub: (nat, nat) -> real) {
    (forall k, i, j :: 0.0 <= u(k, i, j) < 1.0) && (forall k, i :: 0.0 <= ub(k, i) < 1.0)
  }

  function MatrixDraws(u: (nat, nat, nat) -> real, k: nat): (nat, nat) -> real {
    (i: nat, j: nat) => u(k, i, j)
  }

  function BiasDraws(ub: (nat, nat) -> real, k: nat): nat -> real {
    (i: nat) => ub(k, i)
  }

  lemma LayerDraws(u: (nat, nat, nat) -> real, ub: (nat, nat) -> real, k: nat)
    requires NetworkDraws(u, ub)
    ensures UnitDraws(MatrixDraws(u, k), BiasDraws(ub, k))
  {
    forall i, j ensures 0.0 <= MatrixDraws(u, k)(i, j) < 1.0 {
      assert MatrixDraws(u, k)(i, j) == u(k, i, j);
    }
    forall i ensures 0.0 <= BiasDraws(ub, k)(i) < 1.0 {
      assert BiasDraws(ub, k)(i) == ub(k, i);
    }
  }

  function BuiltLayer(spec: seq<LayerSpec>, u: (nat, nat, nat) -> real, ub: (nat, nat) -> real, k: nat): (r: LayerVal)
    requires NetworkDraws(u, ub) && k + 1 < |spec|
    ensures WellShaped(r) && Cleared(r) && r.lastNeuron.None?
    ensures r.dimin == spec[k].neurons && r.dimout == spec[k + 1].neurons
    ensures r.activation == ActivationName(spec[k + 1].activation)
  {
    LayerDraws(u, ub, k);
    Fresh(spec[k].neurons, spec[k + 1].neurons, spec[k + 1].activation, MatrixDraws(u, k), BiasDraws(ub, k))
  }

  /** Well-shaped layers that map spec[k].neurons to spec[k + 1].neurons form a chain. */
  lemma BuiltChain(spec: seq<LayerSpec>, r: seq<LayerVal>)
    requires |r| < |spec| || |r| == 0
    requires forall k :: 0 <= k < |r| ==> WellShaped(r[k]) && r[k].dimin == spec[k].neurons && r[k].dimout == spec[k + 1].neurons
    ensures Chained(r)
  {
    forall i | 0 < i < |r| ensures DimIn(r, i) == DimOut(r, i - 1) {
      assert r[i].dimin == spec[i].neurons && r[i - 1].dimout == spec[(i - 1) + 1].neurons;
    }
  }

  /**
   * The layers Network(spec) builds: len(spec) - 1 of them (none for a spec of
   * fewer than two entries); layer k maps spec[k].neurons to
   * spec[k + 1].neurons with spec[k + 1]'s activation, so the chain fits and
   * the first entry's activation is never used; all accumulators start at zero.
   */
  function Built(spec: seq<LayerSpec>, u: (nat, nat, nat) -> real, ub: (nat, nat) -> real): (r: seq<LayerVal>)
    requires NetworkDraws(u, ub)
    ensures |r| == if |spec| == 0 then 0 else |spec| - 1
    ensures Chained(r)
    ensures forall k :: 0 <= k < |r| ==>
      && r[k].dimin == spec[k].neurons && r[k].dimout == spec[k + 1].neurons
      && r[k].activation == ActivationName(spec[k + 1].activation)
      && Cleared(r[k]) && r[k].lastNeuron.None?
  {
    var n := if |spec| == 0 then 0 else |spec| - 1;
    var r := seq(n, k requires 0 <= k < n => BuiltLayer(spec, u, ub, k));
    forall k | 0 <= k < n
      ensures WellShaped(r[k]) && r[k].dimin == spec[k].neurons && r[k].dimout == spec[k + 1].neurons
      ensures r[k].activation == ActivationName(spec[k + 1].activation) && Cleared(r[k]) && r[k].lastNeuron.None?
    {
      assert r[k] == BuiltLayer(spec, u, ub, k);
    }
    BuiltChain(spec, r);
    r
  }

  // ---------------------------------------------------------------------------
  // compute
  // ---------------------------------------------------------------------------

  /** The first k steps of compute succeed on an input of length n. */
  predicate Feeds(ms: seq<LayerVal>, n: nat, k: nat)
    requires k <= |ms|
  {
    (forall i :: 0 <= i < k ==> Runs(ms[i])) && (k > 0 ==> ms[0].dimin == n) && Linked(ms, k)
  }

  /** The width of the value after k steps on an input of length n. */
  function Width(ms: seq<LayerVal>, n: nat, k: nat): nat
    requires k <= |ms|
  {
    if k == 0 then n else ms[k - 1].dimout
  }

  lemma FeedsStep(ms: seq<LayerVal>, n: nat, k: nat)
    requires 0 < k <= |ms|
    ensures Feeds(ms, n, k) <==> Feeds(ms, n, k - 1) && Runs(ms[k - 1]) && ms[k - 1].dimin == Width(ms, n, k - 1)
  {
    if k > 1 {
      assert DimIn(ms, k - 1) == ms[k - 1].dimin && Width(ms, n, k - 1) == DimOut(ms, k - 2);
    }
  }

  datatype Forwarded = Forwarded(layers: seq<LayerVal>, out: Result<Vector>)

  /**
   * The first k iterations of compute's loop: each layer's step on the
   * previous output, stopping at the first step that raises.
   */
  function Run(ms: seq<LayerVal>, x: Vector, k: nat, exp: real -> real): (r: Forwarded)
    requires k <= |ms| && AllWellShaped(ms) && PositiveExp(exp)
    ensures |r.layers| == |ms| && AllWellShaped(r.layers)
    decreases k
  {
    if k == 0 then Forwarded(ms, Ok(x))
    else
      var p := Run(ms, x, k - 1, exp);
      if p.out.Err? then p
      else
        var s := StepOutcome(p.layers[k - 1], p.out.value, exp);
        Forwarded(p.layers[k - 1 := s.layer], s.out)
  }

  /** One more iteration of compute's loop after k successful ones. */
  lemma RunNext(ms: seq<LayerVal>, x: Vector, k: nat, exp: real -> real)
    requires k < |ms| && AllWellShaped(ms) && PositiveExp(exp) && Run(ms, x, k, exp).out.Ok?
    ensures var p := Run(ms, x, k, exp);
      var s := StepOutcome(p.layers[k], p.out.value, exp);
      Run(ms, x, k + 1, exp) == Forwarded(p.layers[k := s.layer], s.out)
  {
  }

  /** compute changes only the caches of the layers it has stepped. */
  lemma {:induction false} RunFrame(ms: seq<LayerVal>, x: Vector, k: nat, exp: real -> real)
    requires k <= |ms| && AllWellShaped(ms) && PositiveExp(exp)
    ensures forall i :: 0 <= i < |ms| ==> SameExceptCaches(Run(ms, x, k, exp).layers[i], ms[i])
    ensures forall i :: k <= i < |ms| ==> Run(ms, x, k, exp).layers[i] == ms[i]
    decreases k
  {
    if k > 0 {
      RunFrame(ms, x, k - 1, exp);
    }
  }

  /** A layer that differs only in its caches has the same shape and runs alike. */
  lemma SameCachesShape(a: LayerVal, b: LayerVal)
    requires SameExceptCaches(a, b)
    ensures a.dimin == b.dimin && a.dimout == b.dimout && (Runs(a) <==> Runs(b))
  {
  }

  /** RunFrame for one layer. */
  lemma RunFrameAt(ms: seq<LayerVal>, x: Vector, k: nat, i: nat, exp: real -> real)
    requires k <= |ms| && i < |ms| && AllWellShaped(ms) && PositiveExp(exp)
    ensures SameExceptCaches(Run(ms, x, k, exp).layers[i], ms[i])
  {
    RunFrame(ms, x, k, exp);
  }

  /**
   * compute succeeds exactly when the input has the first layer's width, the
   * widths chain and every layer can run.
   */
  lemma {:induction false} RunSucceeds(ms: seq<LayerVal>, x: Vector, k: nat, exp: real -> real)
    requires k <= |ms| && AllWellShaped(ms) && PositiveExp(exp)
    ensures Run(ms, x, k, exp).out.Ok? <==> Feeds(ms, |x|, k)
    decreases k
  {
    if k > 0 {
      RunSucceeds(ms, x, k - 1, exp);
      RunWidth(ms, x, k - 1, exp);
      SucceedsStep(ms, x, k, exp);
    }
  }

  /** The inductive step of RunSucceeds, from the facts about step k - 1. */
  lemma SucceedsStep(ms: seq<LayerVal>, x: Vector, k: nat, exp: real -> real)
    requires 0 < k <= |ms| && AllWellShaped(ms) && PositiveExp(exp)
    requires Run(ms, x, k - 1, exp).out.Ok? <==> Feeds(ms, |x|, k - 1)
    requires Run(ms, x, k - 1, exp).out.Ok? ==> |Run(ms, x, k - 1, exp).out.value| == Width(ms, |x|, k - 1)
    ensures Run(ms, x, k, exp).out.Ok? <==> Feeds(ms, |x|, k)
  {
    RunOkStep(ms, x, k, exp);
    FeedsStep(ms, |x|, k);
  }

  /** Step k - 1 succeeds exactly when the steps before it did and layer k - 1 runs on their output. */
  lemma RunOkStep(ms: seq<LayerVal>, x: Vector, k: nat, exp: real -> real)
    requires 0 < k <= |ms| && AllWellShaped(ms) && PositiveExp(exp)
    ensures var p := Run(ms, x, k - 1, exp);
      Run(ms, x, k, exp).out.Ok? <==> p.out.Ok? && Runs(ms[k - 1]) && ms[k - 1].dimin == |p.out.value|
  {
    RunFrameAt(ms, x, k - 1, k - 1, exp);
    SameCachesShape(Run(ms, x, k - 1, exp).layers[k - 1], ms[k - 1]);
  }

  /** A successful compute's output has the last stepped layer's width. */
  lemma {:induction false} RunWidth(ms: seq<LayerVal>, x: Vector, k: nat, exp: real -> real)
    requires k <= |ms| && AllWellShaped(ms) && PositiveExp(exp)
    ensures Run(ms, x, k, exp).out.Ok? ==> |Run(ms, x, k, exp).out.value| == Width(ms, |x|, k)
    decreases k
  {
    if k > 0 {
      RunFrameAt(ms, x, k - 1, k - 1, exp);
    }
  }

  /** RunSucceeds and RunWidth together. */
  lemma RunResult(ms: seq<LayerVal>, x: Vector, k: nat, exp: real -> real)
    requires k <= |ms| && AllWellShaped(ms) && PositiveExp(exp)
    ensures Run(ms, x, k, exp).out.Ok? <==> Feeds(ms, |x|, k)
    ensures Run(ms, x, k, exp).out.Ok? ==> |Run(ms, x, k, exp).out.value| == Width(ms, |x|, k)
  {
    RunSucceeds(ms, x, k, exp);
    RunWidth(ms, x, k, exp);
  }

  /** After a successful compute, every stepped layer has cached an output of its width. */
  lemma {:induction false} RunCaches(ms: seq<LayerVal>, x: Vector, k: nat, exp: real -> real)
    requires k <= |ms| && AllWellShaped(ms) && PositiveExp(exp)
    ensures Run(ms, x, k, exp).out.Ok? ==> Cached(Run(ms, x, k, exp).layers, k)
    decreases k
  {
    if k > 0 {
      RunCaches(ms, x, k - 1, exp);
      CachesStep(ms, x, k, exp);
    }
  }

  /** The inductive step of RunCaches: step k - 1 caches its output and keeps the earlier caches. */
  lemma CachesStep(ms: seq<LayerVal>, x: Vector, k: nat, exp: real -> real)
    requires 0 < k <= |ms| && AllWellShaped(ms) && PositiveExp(exp)
    requires Run(ms, x, k - 1, exp).out.Ok? ==> Cached(Run(ms, x, k - 1, exp).layers, k - 1)
    ensures Run(ms, x, k, exp).out.Ok? ==> Cached(Run(ms, x, k, exp).layers, k)
  {
    var p := Run(ms, x, k - 1, exp);
    if Run(ms, x, k, exp).out.Ok? {
      assert p.out.Ok?;
      var s := StepOutcome(p.layers[k - 1], p.out.value, exp);
      StepCaches(p.layers[k - 1], p.out.value, exp);
      CachedExtend(p.layers, k, s.layer);
    }
  }

  /** A successful step caches its output, which has the layer's width. */
  lemma StepCaches(m: LayerVal, x: Vector, exp: real -> real)
    requires WellShaped(m) && PositiveExp(exp)
    ensures var s := StepOutcome(m, x, exp);
      s.out.Ok? ==> s.layer.lastNeuron == Some(s.out.value) && |s.out.value| == m.dimout == s.layer.dimout
  {
  }

  /** Replacing layer k - 1 by one holding a cache of its width extends the cached prefix by one. */
  lemma CachedExtend(ls: seq<LayerVal>, k: nat, l: LayerVal)
    requires 0 < k <= |ls| && Cached(ls, k - 1)
    requires l.lastNeuron.Some? && |l.lastNeuron.value| == l.dimout
    ensures Cached(ls[k - 1 := l], k)
  {
  }

  /** Once a step has raised, the remaining iterations never run. */
  lemma {:induction false} RunAfterError(ms: seq<LayerVal>, x: Vector, k: nat, n: nat, exp: real -> real)
    requires k <= n <= |ms| && AllWellShaped(ms) && PositiveExp(exp)
    requires Run(ms, x, k, exp).out.Err?
    ensures Run(ms, x, n, exp) == Run(ms, x, k, exp)
    decreases n
  {
    if n > k {
      RunAfterError(ms, x, k, n - 1, exp);
    }
  }

  /** Changing only the caches of two equivalent layers leaves them equivalent. */
  lemma CachesKeepEquivalence(a: LayerVal, a': LayerVal, b: LayerVal, b': LayerVal)
    requires Equivalent(a, b) && SameExceptCaches(a', a) && SameExceptCaches(b', b)
    ensures Equivalent(a', b')
  {
  }

  /** Layer i of two equivalent networks stays equivalent while compute runs. */
  lemma RunKeepsEquivalence(ms: seq<LayerVal>, ns: seq<LayerVal>, x: Vector, k: nat, i: nat, exp: real -> real)
    requires |ms| == |ns| && k <= |ms| && i < |ms| && AllWellShaped(ms) && AllWellShaped(ns) && PositiveExp(exp)
    requires Equivalent(ms[i], ns[i])
    ensures Equivalent(Run(ms, x, k, exp).layers[i], Run(ns, x, k, exp).layers[i])
  {
    RunFrameAt(ms, x, k, i, exp);
    RunFrameAt(ns, x, k, i, exp);
    CachesKeepEquivalence(ms[i], Run(ms, x, k, exp).layers[i], ns[i], Run(ns, x, k, exp).layers[i]);
  }

  /** Two runs that agree after k - 1 steps agree after k when layers k - 1 are equivalent. */
  lemma StepAgrees(ms: seq<LayerVal>, ns: seq<LayerVal>, x: Vector, k: nat, exp: real -> real)
    requires |ms| == |ns| && 0 < k <= |ms| && AllWellShaped(ms) && AllWellShaped(ns) && PositiveExp(exp)
    requires Run(ms, x, k - 1, exp).out == Run(ns, x, k - 1, exp).out
    requires Equivalent(ms[k - 1], ns[k - 1])
    ensures Run(ms, x, k, exp).out == Run(ns, x, k, exp).out
  {
    RunKeepsEquivalence(ms, ns, x, k - 1, k - 1, exp);
    var p, q := Run(ms, x, k - 1, exp), Run(ns, x, k - 1, exp);
    if p.out.Ok? {
      StepOutcomeDependsOnParamsOnly(p.layers[k - 1], q.layers[k - 1], p.out.value, exp);
    }
  }

  /**
   * What compute returns depends only on the parameters and activations
   * (up to Equivalent), never on caches or accumulators, so computing twice
   * gives the same output.
   */
  lemma {:induction false} RunDependsOnParamsOnly(ms: seq<LayerVal>, ns: seq<LayerVal>, x: Vector, k: nat, exp: real -> real)
    requires |ms| == |ns| && k <= |ms| && AllWellShaped(ms) && AllWellShaped(ns) && PositiveExp(exp)
    requires forall i :: 0 <= i < |ms| ==> Equivalent(ms[i], ns[i])
    ensures Run(ms, x, k, exp).out == Run(ns, x, k, exp).out
    decreases k
  {
    if k > 0 {
      RunDependsOnParamsOnly(ms, ns, x, k - 1, exp);
      StepAgrees(ms, ns, x, k, exp);
    }
  }

  // ---------------------------------------------------------------------------
  // learn
  // ---------------------------------------------------------------------------

  /** A network learn can train: at least one layer, chained, every layer able to step. */
  predicate Ready(ms: seq<LayerVal>) {
    |ms| > 0 && Chained(ms) && AllRun(ms)
  }

  /** Every example has the input width and every target the output width. */
  predicate Fits(ms: seq<LayerVal>, xs: seq<Vector>, ys: seq<Vector>) {
    |ms| > 0 && |xs| <= |ys|
    && forall i :: 0 <= i < |xs| ==> |xs[i]| == ms[0].dimin && |ys[i]| == ms[|ms| - 1].dimout
  }

  /** compute's output on a network that is Ready. */
  function Estimate(ms: seq<LayerVal>, x: Vector, exp: real -> real): (e: Vector)
    requires Ready(ms) && |x| == ms[0].dimin && PositiveExp(exp)
    ensures |e| == ms[|ms| - 1].dimout
  {
    RunResult(ms, x, |ms|, exp);
    Run(ms, x, |ms|, exp).out.value
  }

  /** The error signal at the output: estimate - target for softmax, 2 * (estimate - target) otherwise. */
  function Signal(softmax: bool, e: Vector, y: Vector): (d: Vector)
    requires |e| == |y|
    ensures |d| == |e|
  {
    if softmax then Sub(e, y) else Scale(2.0, Sub(e, y))
  }

  /** a * b, kept behind a function so that facts about a square carry over to where it is used. */
  function Product(a: real, b: real): real {
    a * b
  }

  lemma ProductPositive(a: real, b: real)
    requires (a > 0.0 && b > 0.0) || (a < 0.0 && b < 0.0)
    ensures Product(a, b) > 0.0
  {
  }

  /** (y - e) ** 2 for one component. */
  function Square(d: real): (r: real)
    ensures r >= 0.0
  {
    Product(d, d)
  }

  function SquaredErrors(e: Vector, y: Vector): (r: Vector)
    requires |e| == |y|
    ensures |r| == |e| && forall i :: 0 <= i < |r| ==> r[i] >= 0.0
  {
    seq(|e|, i requires 0 <= i < |e| => Square(y[i] - e[i]))
  }

  /** The per-example loss: cross-entropy with a 1e-9 guard for softmax, the sum of squared errors otherwise. */
  function Loss(softmax: bool, e: Vector, y: Vector, log: real -> real): real
    requires |e| == |y|
  {
    if softmax then -Sum(seq(|e|, i requires 0 <= i < |e| => y[i] * log(e[i] + 0.000000001)))
    else Sum(SquaredErrors(e, y))
  }

  /** The squared-error loss is never negative, and it is zero exactly when the estimate equals the target. */
  lemma SquaredLoss(e: Vector, y: Vector, log: real -> real)
    requires |e| == |y|
    ensures Loss(false, e, y, log) >= 0.0
    ensures Loss(false, e, y, log) == 0.0 <==> e == y
  {
    var s := SquaredErrors(e, y);
    SumNonNegative(s);
    if e == y {
      forall i | 0 <= i < |s| ensures s[i] == 0.0 {
        assert s[i] == Square(y[i] - e[i]);
      }
      SumZero(s);
    } else {
      var i :| 0 <= i < |e| && e[i] != y[i];
      SquaredErrorPositive(e, y, i);
      SumBoundsTerm(s, i);
    }
  }

  /**
   * Without softmax the output signal is the gradient of the squared-error
   * loss: moving component i of the estimate by t changes the loss by exactly
   * t * signal[i] + t * t.
   */
  lemma SquaredSignalIsGradient(e: Vector, y: Vector, i: nat, t: real, log: real -> real)
    requires |e| == |y| && i < |e|
    ensures Loss(false, e[i := e[i] + t], y, log) == Loss(false, e, y, log) + t * Signal(false, e, y)[i] + t * t
  {
    var s := SquaredErrors(e, y);
    var d := y[i] - e[i];
    SquaredErrorsUpdate(e, y, i, t);
    SumUpdate(s, i, Square(d - t));
    SquareShift(d, t);
    assert Signal(false, e, y)[i] == 2.0 * (e[i] - y[i]);
  }

  /** Moving one estimate component changes only that component's squared error. */
  lemma SquaredErrorsUpdate(e: Vector, y: Vector, i: nat, t: real)
    requires |e| == |y| && i < |e|
    ensures SquaredErrors(e[i := e[i] + t], y) == SquaredErrors(e, y)[i := Square(y[i] - e[i] - t)]
  {
    var a, b := SquaredErrors(e[i := e[i] + t], y), SquaredErrors(e, y)[i := Square(y[i] - e[i] - t)];
    forall k | 0 <= k < |a| ensures a[k] == b[k] {
      if k == i {
        assert y[k] - (e[i] + t) == y[i] - e[i] - t;
      }
    }
  }

  lemma SquareShift(d: real, t: real)
    ensures Square(d - t) == Square(d) + t * (2.0 * -d) + t * t
  {
    assert (d - t) * (d - t) == d * d - 2.0 * d * t + t * t;
  }

  /** Where the estimate misses the target, the squared error is positive. */
  lemma SquaredErrorPositive(e: Vector, y: Vector, i: nat)
    requires |e| == |y| && i < |e| && e[i] != y[i]
    ensures SquaredErrors(e, y)[i] > 0.0
  {
    var d := y[i] - e[i];
    ProductPositive(d, d);
    assert SquaredErrors(e, y)[i] == Square(d);
  }

  lemma {:induction false} SumZero(a: Vector)
    requires forall i :: 0 <= i < |a| ==> a[i] == 0.0
    ensures Sum(a) == 0.0
    decreases |a|
  {
    if a != [] {
      SumZero(a[1..]);
    }
  }

  /** Every layer below k has cached an output of its own width. */
  predicate Cached(ls: seq<LayerVal>, k: nat)
    requires k <= |ls|
  {
    forall i :: 0 <= i < k ==> ls[i].lastNeuron.Some? && |ls[i].lastNeuron.value| == ls[i].dimout
  }

  /**
   * The backward pass from layer k - 1 down to layer 0 with signal d entering
   * layer k - 1: layer j > 0 is given layer j - 1's cached output and layer 0
   * the raw input x. Only the accumulators change.
   */
  function Back(ls: seq<LayerVal>, k: nat, d: Vector, x: Vector): (r: seq<LayerVal>)
    requires k <= |ls| && Chained(ls) && AllRun(ls) && Cached(ls, k)
    requires k > 0 ==> |d| == ls[k - 1].dimout && |x| == ls[0].dimin
    ensures |r| == |ls|
    decreases k
  {
    if k == 0 then ls
    else
      assert k > 1 ==> DimIn(ls, k - 1) == DimOut(ls, k - 2);
      var prev := if k == 1 then x else ls[k - 2].lastNeuron.value;
      var b := BpropagVal(ls[k - 1], d, prev);
      UpdateKeepsChain(ls, k - 1, b.layer);
      Back(ls[k - 1 := b.layer], k - 1, b.out, x)
  }

  /**
   * `r` differs from `ls` at most in the accumulators, and only in those of
   * layers below k; every layer of `r` is well shaped.
   */
  predicate KeepsParams(r: seq<LayerVal>, ls: seq<LayerVal>, k: nat) {
    && |r| == |ls| && k <= |ls| && AllWellShaped(r)
    && (forall i :: 0 <= i < |ls| ==>
          SameParams(r[i], ls[i]) && r[i].lastRaw == ls[i].lastRaw && r[i].lastNeuron == ls[i].lastNeuron)
    && (forall i :: k <= i < |ls| ==> r[i] == ls[i])
  }

  /** Undoing one accumulator-only change of layer k - 1 extends KeepsParams from k - 1 to k. */
  lemma KeepsParamsStep(r: seq<LayerVal>, ls: seq<LayerVal>, k: nat, m: LayerVal)
    requires 0 < k <= |ls| && KeepsParams(r, ls[k - 1 := m], k - 1)
    requires SameParams(m, ls[k - 1]) && m.lastRaw == ls[k - 1].lastRaw && m.lastNeuron == ls[k - 1].lastNeuron
    ensures KeepsParams(r, ls, k)
  {
    forall i | 0 <= i < |ls|
      ensures SameParams(r[i], ls[i]) && r[i].lastRaw == ls[i].lastRaw && r[i].lastNeuron == ls[i].lastNeuron
    {
      assert SameParams(r[i], ls[k - 1 := m][i]);
    }
  }

  /**
   * The backward pass changes only accumulators, and only those of layers
   * below k; every layer stays well shaped.
   */
  lemma {:induction false} BackSpec(ls: seq<LayerVal>, k: nat, d: Vector, x: Vector)
    requires k <= |ls| && Chained(ls) && AllRun(ls) && Cached(ls, k)
    requires k > 0 ==> |d| == ls[k - 1].dimout && |x| == ls[0].dimin
    ensures KeepsParams(Back(ls, k, d, x), ls, k)
    decreases k
  {
    if k == 1 {
      BackFirst(ls, d, x);
      var m := BpropagVal(ls[0], d, x).layer;
      UpdateKeepsChain(ls, 0, m);
      KeepsParamsStep(ls[0 := m], ls, 1, m);
    } else if k > 1 {
      var prev := ls[k - 1 - 1].lastNeuron.value;
      BackNext(ls, k, d, prev, x);
      var b := BpropagVal(ls[k - 1], d, prev);
      BackSpec(ls[k - 1 := b.layer], k - 1, b.out, x);
      KeepsParamsStep(Back(ls, k, d, x), ls, k, b.layer);
    }
  }

  /** Back on the first layer alone: layer_bpropag with the raw input. */
  lemma BackFirst(ls: seq<LayerVal>, d: Vector, x: Vector)
    requires 1 <= |ls| && Chained(ls) && AllRun(ls) && Cached(ls, 1)
    requires |d| == ls[0].dimout && |x| == ls[0].dimin
    ensures CanBpropag(ls[0], d, x)
    ensures Back(ls, 1, d, x) == ls[0 := BpropagVal(ls[0], d, x).layer]
  {
  }

  /** Back from layer k - 1 for k > 1: layer_bpropag with layer k - 2's cached output `prev`, then the rest. */
  lemma BackNext(ls: seq<LayerVal>, k: nat, d: Vector, prev: Vector, x: Vector)
    requires 1 < k <= |ls| && Chained(ls) && AllRun(ls) && Cached(ls, k)
    requires |d| == ls[k - 1].dimout && |x| == ls[0].dimin && prev == ls[k - 1 - 1].lastNeuron.value
    ensures CanBpropag(ls[k - 1], d, prev)
    ensures var b := BpropagVal(ls[k - 1], d, prev);
      && Chained(ls[k - 1 := b.layer]) && AllRun(ls[k - 1 := b.layer]) && Cached(ls[k - 1 := b.layer], k - 1)
      && |b.out| == ls[k - 1 - 1].dimout
      && Back(ls, k, d, x) == Back(ls[k - 1 := b.layer], k - 1, b.out, x)
  {
    assert DimIn(ls, k - 1) == DimOut(ls, k - 1 - 1);
    var b := BpropagVal(ls[k - 1], d, prev);
    UpdateKeepsChain(ls, k - 1, b.layer);
  }

  /** The backward pass has reached layer k - 1 with signal d, and finishing it from there gives `target`. */
  ghost predicate Unwinding(ls: seq<LayerVal>, k: nat, d: Vector, x: Vector, target: seq<LayerVal>) {
    && 1 <= k <= |ls| && Chained(ls) && AllRun(ls) && Cached(ls, k)
    && |d| == ls[k - 1].dimout && |x| == ls[0].dimin
    && Back(ls, k, d, x) == target
  }

  /** Midway through the backward pass, layer k - 1 can run layer_bpropag on the cached output below it. */
  lemma UnwindCanBpropag(ls: seq<LayerVal>, k: nat, d: Vector, prev: Vector, x: Vector, target: seq<LayerVal>)
    requires 1 < k && Unwinding(ls, k, d, x, target) && prev == ls[k - 1 - 1].lastNeuron.value
    ensures CanBpropag(ls[k - 1], d, prev)
  {
    BackNext(ls, k, d, prev, x);
  }

  /** One more layer of the backward pass, giving `next` and the signal `out`, keeps it on course for `target`. */
  lemma UnwindNext(ls: seq<LayerVal>, k: nat, d: Vector, prev: Vector, x: Vector, target: seq<LayerVal>,
                   next: seq<LayerVal>, out: Vector)
    requires 1 < k && Unwinding(ls, k, d, x, target) && prev == ls[k - 1 - 1].lastNeuron.value
    requires CanBpropag(ls[k - 1], d, prev)
    requires next == ls[k - 1 := BpropagVal(ls[k - 1], d, prev).layer] && out == BpropagVal(ls[k - 1], d, prev).out
    ensures Unwinding(next, k - 1, out, x, target)
  {
    BackNext(ls, k, d, prev, x);
  }

  /** Replacing one layer by one with the same parameters keeps the chain. */
  lemma UpdateKeepsChain(ls: seq<LayerVal>, k: nat, m: LayerVal)
    requires k < |ls| && Chained(ls) && AllRun(ls) && WellShaped(m)
    requires SameParams(m, ls[k]) && m.lastNeuron == ls[k].lastNeuron
    ensures Chained(ls[k := m]) && AllRun(ls[k := m])
  {
    var ns := ls[k := m];
    forall i | 0 < i < |ns| ensures DimIn(ns, i) == DimOut(ns, i - 1) {
      assert DimIn(ls, i) == DimOut(ls, i - 1);
    }
  }

  datatype Trained = Trained(layers: seq<LayerVal>, err: real)

  /** One iteration of learn's batch loop: compute, the output signal and loss, then the backward pass. */
  function ExampleVal(ms: seq<LayerVal>, x: Vector, y: Vector, softmax: bool, exp: real -> real, log: real -> real): (r: Trained)
    requires Ready(ms) && |x| == ms[0].dimin && |y| == ms[|ms| - 1].dimout && PositiveExp(exp)
    ensures |r.layers| == |ms| && AllWellShaped(r.layers)
    ensures forall i :: 0 <= i < |ms| ==> SameParams(r.layers[i], ms[i])
  {
    RunResult(ms, x, |ms|, exp);
    RunCaches(ms, x, |ms|, exp);
    RunFrame(ms, x, |ms|, exp);
    var f := Run(ms, x, |ms|, exp);
    CachesOnlyKeepParams(ms, f.layers);
    SameParamsKeepChain(ms, f.layers);
    var e := f.out.value;
    BackSpec(f.layers, |ms|, Signal(softmax, e, y), x);
    Trained(Back(f.layers, |ms|, Signal(softmax, e, y), x), Loss(softmax, e, y, log))
  }

  /** The first n iterations of learn's batch loop: the layers, and the summed loss. */
  function BatchVal(ms: seq<LayerVal>, xs: seq<Vector>, ys: seq<Vector>, n: nat, softmax: bool,
                    exp: real -> real, log: real -> real): (r: Trained)
    requires n <= |xs| && Ready(ms) && Fits(ms, xs, ys) && PositiveExp(exp)
    ensures |r.layers| == |ms| && AllWellShaped(r.layers)
    ensures forall i :: 0 <= i < |ms| ==> SameParams(r.layers[i], ms[i])
    decreases n
  {
    if n == 0 then Trained(ms, 0.0)
    else
      var p := BatchVal(ms, xs, ys, n - 1, softmax, exp, log);
      SameParamsKeepChain(ms, p.layers);
      var e := ExampleVal(p.layers, xs[n - 1], ys[n - 1], softmax, exp, log);
      Trained(e.layers, p.err + e.err)
  }

  /**
   * The network after i examples is still Ready and fits example i, and
   * processing that example gives the state after i + 1 examples.
   */
  lemma BatchNext(ms: seq<LayerVal>, xs: seq<Vector>, ys: seq<Vector>, i: nat, softmax: bool,
                  exp: real -> real, log: real -> real, cur: seq<LayerVal>, err: real)
    requires i < |xs| && BatchState(ms, xs, ys, i, softmax, exp, log, cur, err)
    ensures Ready(cur) && |xs[i]| == cur[0].dimin && |ys[i]| == cur[|cur| - 1].dimout
    ensures var e := ExampleVal(cur, xs[i], ys[i], softmax, exp, log);
      BatchState(ms, xs, ys, i + 1, softmax, exp, log, e.layers, err + e.err)
  {
    SameParamsKeepChain(ms, cur);
    assert SameParams(cur[0], ms[0]) && SameParams(cur[|ms| - 1], ms[|ms| - 1]);
  }

  /** After i examples of the batch loop the layers are `cur` and the summed loss is `err`. */
  ghost predicate BatchState(ms: seq<LayerVal>, xs: seq<Vector>, ys: seq<Vector>, i: nat, softmax: bool,
                             exp: real -> real, log: real -> real, cur: seq<LayerVal>, err: real) {
    i <= |xs| && Ready(ms) && Fits(ms, xs, ys) && PositiveExp(exp)
    && BatchVal(ms, xs, ys, i, softmax, exp, log) == Trained(cur, err)
  }

  /** modify(deltat, n) on every layer, in order. */
  function ModifyAll(ms: seq<LayerVal>, deltat: real, n: int): (r: seq<LayerVal>)
    requires AllWellShaped(ms) && n != 0
    ensures |r| == |ms| && AllWellShaped(r)
    ensures forall k :: 0 <= k < |ms| ==> Cleared(r[k])
  {
    seq(|ms|, k requires 0 <= k < |ms| => ModifyVal(ms[k], deltat, n))
  }

  /**
   * learn on a non-empty batch: the batch loop with the softmax test taken on
   * the last layer before it starts, then one modify per layer with n the
   * batch size; the result is the summed loss over the batch size.
   */
  function LearnVal(ms: seq<LayerVal>, xs: seq<Vector>, ys: seq<Vector>, deltat: real,
                    exp: real -> real, log: real -> real): (r: Trained)
    requires Ready(ms) && Fits(ms, xs, ys) && |xs| > 0 && PositiveExp(exp)
    ensures |r.layers| == |ms| && AllWellShaped(r.layers)
    ensures forall k :: 0 <= k < |ms| ==> Cleared(r.layers[k])
    ensures forall k :: 0 <= k < |ms| ==>
      r.layers[k].dimin == ms[k].dimin && r.layers[k].dimout == ms[k].dimout
      && r.layers[k].activation == ms[k].activation && r.layers[k].elementwise == ms[k].elementwise
  {
    var softmax := ms[|ms| - 1].activation == "softmax";
    var b := BatchVal(ms, xs, ys, |xs|, softmax, exp, log);
    Trained(ModifyAll(b.layers, deltat, |xs|), b.err / (|xs| as real))
  }

  /** LearnVal with the softmax test already taken. */
  lemma LearnValUnfold(ms: seq<LayerVal>, xs: seq<Vector>, ys: seq<Vector>, deltat: real, softmax: bool,
                       exp: real -> real, log: real -> real)
    requires Ready(ms) && Fits(ms, xs, ys) && |xs| > 0 && PositiveExp(exp)
    requires softmax == (ms[|ms| - 1].activation == "softmax")
    ensures var b := BatchVal(ms, xs, ys, |xs|, softmax, exp, log);
      LearnVal(ms, xs, ys, deltat, exp, log) == Trained(ModifyAll(b.layers, deltat, |xs|), b.err / (|xs| as real))
  {
  }

  /** The summed loss of the first n examples under the parameters of `ms`. */
  function TotalLoss(ms: seq<LayerVal>, xs: seq<Vector>, ys: seq<Vector>, n: nat, softmax: bool,
                     exp: real -> real, log: real -> real): real
    requires n <= |xs| && Ready(ms) && Fits(ms, xs, ys) && PositiveExp(exp)
  {
    if n == 0 then 0.0
    else TotalLoss(ms, xs, ys, n - 1, softmax, exp, log) + Loss(softmax, Estimate(ms, xs[n - 1], exp), ys[n - 1], log)
  }

  /** The loss of one example depends only on the parameters. */
  lemma ExampleLoss(ms: seq<LayerVal>, ps: seq<LayerVal>, x: Vector, y: Vector, softmax: bool,
                    exp: real -> real, log: real -> real)
    requires Ready(ms) && Ready(ps) && |ps| == |ms| && PositiveExp(exp)
    requires forall i :: 0 <= i < |ms| ==> SameParams(ps[i], ms[i])
    requires |x| == ms[0].dimin && |y| == ms[|ms| - 1].dimout
    requires |x| == ps[0].dimin && |y| == ps[|ps| - 1].dimout
    ensures ExampleVal(ps, x, y, softmax, exp, log).err == Loss(softmax, Estimate(ms, x, exp), y, log)
  {
    forall i | 0 <= i < |ms| ensures Equivalent(ps[i], ms[i]) {
      assert SameParams(ps[i], ms[i]);
    }
    RunDependsOnParamsOnly(ps, ms, x, |ms|, exp);
  }

  /** One more example adds its loss under the parameters learn started with. */
  lemma BatchLossStep(ms: seq<LayerVal>, xs: seq<Vector>, ys: seq<Vector>, m: nat, softmax: bool,
                      exp: real -> real, log: real -> real)
    requires m < |xs| && Ready(ms) && Fits(ms, xs, ys) && PositiveExp(exp)
    ensures BatchVal(ms, xs, ys, m + 1, softmax, exp, log).err
      == BatchVal(ms, xs, ys, m, softmax, exp, log).err + Loss(softmax, Estimate(ms, xs[m], exp), ys[m], log)
  {
    var p := BatchVal(ms, xs, ys, m, softmax, exp, log);
    SameParamsKeepChain(ms, p.layers);
    assert SameParams(p.layers[0], ms[0]) && SameParams(p.layers[|ms| - 1], ms[|ms| - 1]);
    ExampleLoss(ms, p.layers, xs[m], ys[m], softmax, exp, log);
  }

  lemma {:induction false} BatchLoss(ms: seq<LayerVal>, xs: seq<Vector>, ys: seq<Vector>, n: nat, softmax: bool,
                                     exp: real -> real, log: real -> real)
    requires n <= |xs| && Ready(ms) && Fits(ms, xs, ys) && PositiveExp(exp)
    ensures BatchVal(ms, xs, ys, n, softmax, exp, log).err == TotalLoss(ms, xs, ys, n, softmax, exp, log)
    decreases n
  {
    if n > 0 {
      var m := n - 1;
      BatchLoss(ms, xs, ys, m, softmax, exp, log);
      BatchLossStep(ms, xs, ys, m, softmax, exp, log);
      assert TotalLoss(ms, xs, ys, n, softmax, exp, log)
        == TotalLoss(ms, xs, ys, m, softmax, exp, log) + Loss(softmax, Estimate(ms, xs[m], exp), ys[m], log);
    }
  }

  /**
   * Parameters are not touched inside the batch loop: learn returns the mean
   * loss of the network as it was before the call, whatever the learning rate.
   */
  lemma LearnReportsLossBeforeUpdate(ms: seq<LayerVal>, xs: seq<Vector>, ys: seq<Vector>, deltat: real,
                                     exp: real -> real, log: real -> real)
    requires Ready(ms) && Fits(ms, xs, ys) && |xs| > 0 && PositiveExp(exp)
    ensures LearnVal(ms, xs, ys, deltat, exp, log).err
      == TotalLoss(ms, xs, ys, |xs|, ms[|ms| - 1].activation == "softmax", exp, log) / (|xs| as real)
  {
    BatchLoss(ms, xs, ys, |xs|, ms[|ms| - 1].activation == "softmax", exp, log);
  }

  lemma {:induction false} TotalSquaredLossNonNegative(ms: seq<LayerVal>, xs: seq<Vector>, ys: seq<Vector>, n: nat,
                                                        exp: real -> real, log: real -> real)
    requires n <= |xs| && Ready(ms) && Fits(ms, xs, ys) && PositiveExp(exp)
    ensures TotalLoss(ms, xs, ys, n, false, exp, log) >= 0.0
    decreases n
  {
    if n > 0 {
      TotalSquaredLossNonNegative(ms, xs, ys, n - 1, exp, log);
      SquaredLoss(Estimate(ms, xs[n - 1], exp), ys[n - 1], log);
    }
  }

  /** Without a softmax output layer the loss learn returns is a mean of squared errors, so never negative. */
  lemma SquaredLearnLossNonNegative(ms: seq<LayerVal>, xs: seq<Vector>, ys: seq<Vector>, deltat: real,
                                    exp: real -> real, log: real -> real)
    requires Ready(ms) && Fits(ms, xs, ys) && |xs| > 0 && PositiveExp(exp)
    requires ms[|ms| - 1].activation != "softmax"
    ensures LearnVal(ms, xs, ys, deltat, exp, log).err >= 0.0
  {
    LearnReportsLossBeforeUpdate(ms, xs, ys, deltat, exp, log);
    TotalSquaredLossNonNegative(ms, xs, ys, |xs|, exp, log);
    QuotientNonNegative(TotalLoss(ms, xs, ys, |xs|, false, exp, log), |xs| as real);
  }

  lemma QuotientNonNegative(a: real, b: real)
    requires a >= 0.0 && b > 0.0
    ensures a / b >= 0.0
  {
  }

  /** With deltat = 0 learn leaves every parameter as it was. */
  lemma LearnZeroRate(ms: seq<LayerVal>, xs: seq<Vector>, ys: seq<Vector>, exp: real -> real, log: real -> real)
    requires Ready(ms) && Fits(ms, xs, ys) && |xs| > 0 && PositiveExp(exp)
    ensures forall k :: 0 <= k < |ms| ==> SameParams(LearnVal(ms, xs, ys, 0.0, exp, log).layers[k], ms[k])
  {
    var b := BatchVal(ms, xs, ys, |xs|, ms[|ms| - 1].activation == "softmax", exp, log);
    forall k | 0 <= k < |ms| ensures SameParams(LearnVal(ms, xs, ys, 0.0, exp, log).layers[k], ms[k]) {
      ModifyZeroRate(b.layers[k], |xs|);
    }
  }

  // ---------------------------------------------------------------------------
  // The parameter count of __repr__
  // ---------------------------------------------------------------------------

  /** matrix.size + bias.size summed over the first n layers. */
  function ParamCount(ms: seq<LayerVal>, n: nat): nat
    requires n <= |ms|
  {
    if n == 0 then 0 else ParamCount(ms, n - 1) + ms[n - 1].dimin * ms[n - 1].dimout + ms[n - 1].dimout
  }

  /** Σ (nᵢ · nᵢ₊₁ + nᵢ₊₁) over consecutive spec entries. */
  function SpecParams(spec: seq<LayerSpec>): nat {
    if |spec| < 2 then 0
    else
      var n := |spec|;
      SpecParams(spec[..n - 1]) + spec[n - 2].neurons * spec[n - 1].neurons + spec[n - 1].neurons
  }

  /**
   * Layers whose shapes follow the spec (those Network(spec) builds) have
   * Σ (nᵢ · nᵢ₊₁ + nᵢ₊₁) trainable parameters.
   */
  lemma {:induction false} ParameterCountOfSpec(ms: seq<LayerVal>, spec: seq<LayerSpec>)
    requires |spec| > 0 && |ms| == |spec| - 1
    requires forall k :: 0 <= k < |ms| ==> ms[k].dimin == spec[k].neurons && ms[k].dimout == spec[k + 1].neurons
    ensures ParamCount(ms, |ms|) == SpecParams(spec)
    decreases |ms|
  {
    if |ms| > 0 {
      var n := |ms|;
      var ms', spec' := ms[..n - 1], spec[..n];
      ParameterCountOfSpec(ms', spec');
      PrefixParamCount(ms, n - 1);
      assert ms[n - 1].dimin == spec[n - 1].neurons && ms[n - 1].dimout == spec[n].neurons;
    }
  }

  /** A network freshly built from `spec` has Σ (nᵢ · nᵢ₊₁ + nᵢ₊₁) trainable parameters. */
  lemma BuiltParameterCount(spec: seq<LayerSpec>, u: (nat, nat, nat) -> real, ub: (nat, nat) -> real)
    requires NetworkDraws(u, ub) && |spec| > 0
    ensures ParamCount(Built(spec, u, ub), |spec| - 1) == SpecParams(spec)
  {
    ParameterCountOfSpec(Built(spec, u, ub), spec);
  }

  lemma {:induction false} PrefixParamCount(ms: seq<LayerVal>, n: nat)
    requires n <= |ms|
    ensures ParamCount(ms[..n], n) == ParamCount(ms, n)
    decreases n
  {
    if n > 0 {
      assert ms[..n][..n - 1] == ms[..n - 1];
      PrefixParamCount(ms[..n], n - 1);
      PrefixParamCount(ms, n - 1);
    }
  }

  // ---------------------------------------------------------------------------
  // get_network / set_network
  // ---------------------------------------------------------------------------

  /** get_layer of every layer, in forward order. */
  function Records(ms: seq<LayerVal>): (r: seq<LayerRecord>)
    ensures |r| == |ms|
  {
    seq(|ms|, k requires 0 <= k < |ms| => GetLayerVal(ms[k]))
  }

  /** Layer() has no weights, so nothing is drawn for it. */
  const NoDraws: (nat, nat) -> real := (i: nat, j: nat) => 0.0
  const NoBiasDraws: nat -> real := (i: nat) => 0.0

  /** Layer() with its defaults: no rows, no columns, sigmoid. */
  function Blank(): (r: LayerVal)
    ensures WellShaped(r) && r.elementwise == Some(Sigmoid)
  {
    CanonicalNameKept("sigmoid");
    Fresh(0, 0, Some("sigmoid"), NoDraws, NoBiasDraws)
  }

  datatype Loaded = Loaded(layers: seq<LayerVal>, fault: Option<Fault>)

  /** `inst = Layer(); inst.set_layer(record)`: one record loaded into a new Layer(). */
  function LoadOne(rec: LayerRecord): Result<LayerVal> {
    SetLayerVal(Blank(), rec)
  }

  /**
   * set_network's loop over Data from record i on: each record is loaded
   * (by `load`, which is LoadOne in set_network) and appended, until the
   * first record that raises.
   */
  function LoadFrom(load: LayerRecord -> Result<LayerVal>, recs: seq<LayerRecord>, i: nat): Loaded
    requires i <= |recs|
    decreases |recs| - i
  {
    if i == |recs| then Loaded([], None)
    else
      match load(recs[i])
      case Err(f) => Loaded([], Some(f))
      case Ok(m) =>
        var rest := LoadFrom(load, recs, i + 1);
        Loaded([m] + rest.layers, rest.fault)
  }

  /** set_network's whole loop. */
  function LoadAll(recs: seq<LayerRecord>): Loaded {
    LoadFrom(LoadOne, recs, 0)
  }

  /** The k-th layer loaded from record i on is record i + k, loaded. */
  lemma {:induction false} LoadFromAt(load: LayerRecord -> Result<LayerVal>, recs: seq<LayerRecord>, i: nat, k: nat)
    requires i <= |recs| && k < |LoadFrom(load, recs, i).layers|
    ensures i + k < |recs| && load(recs[i + k]) == Ok(LoadFrom(load, recs, i).layers[k])
    decreases k
  {
    assert i < |recs| && load(recs[i]).Ok?;
    if k > 0 {
      LoadFromAt(load, recs, i + 1, k - 1);
      assert recs[i + k] == recs[(i + 1) + (k - 1)];
    }
  }

  /**
   * Loading from record i on stops at the first record that is rejected,
   * with that record's fault, or runs to the end without one.
   */
  lemma {:induction false} LoadFromStops(load: LayerRecord -> Result<LayerVal>, recs: seq<LayerRecord>, i: nat)
    requires i <= |recs|
    ensures var r := LoadFrom(load, recs, i);
      && |r.layers| <= |recs| - i
      && (r.fault.None? <==> |r.layers| == |recs| - i)
      && (r.fault.Some? ==> load(recs[i + |r.layers|]) == Err(r.fault.value))
    decreases |recs| - i
  {
    if i < |recs| && load(recs[i]).Ok? {
      LoadFromStops(load, recs, i + 1);
      assert i + |LoadFrom(load, recs, i).layers| == (i + 1) + |LoadFrom(load, recs, i + 1).layers|;
    }
  }

  /**
   * set_network loads exactly the successful prefix of the records, every
   * layer well shaped; a fault is that of the first record that failed.
   */
  lemma LoadAllSpec(recs: seq<LayerRecord>)
    ensures var r := LoadAll(recs);
      && |r.layers| <= |recs| && AllWellShaped(r.layers)
      && (forall k :: 0 <= k < |r.layers| ==> SetLayerVal(Blank(), recs[k]) == Ok(r.layers[k]))
      && (r.fault.None? <==> |r.layers| == |recs|)
      && (r.fault.Some? ==> SetLayerVal(Blank(), recs[|r.layers|]) == Err(r.fault.value))
  {
    LoadFromStops(LoadOne, recs, 0);
    var r := LoadAll(recs);
    forall k | 0 <= k < |r.layers| ensures SetLayerVal(Blank(), recs[k]) == Ok(r.layers[k]) && WellShaped(r.layers[k]) {
      LoadFromAt(LoadOne, recs, 0, k);
    }
  }

  /** The layers `acc` loaded from the first i records are the start of what LoadAll loads. */
  predicate LoadedSoFar(recs: seq<LayerRecord>, i: nat, acc: seq<LayerVal>) {
    i <= |recs| && LoadAll(recs) == Loaded(acc + LoadFrom(LoadOne, recs, i).layers, LoadFrom(LoadOne, recs, i).fault)
  }

  /** Record i loads as v: v joins what has been loaded. */
  lemma LoadNext(recs: seq<LayerRecord>, i: nat, acc: seq<LayerVal>, v: LayerVal)
    requires i < |recs| && LoadedSoFar(recs, i, acc)
    requires LoadFrom(LoadOne, recs, i) == Loaded([v] + LoadFrom(LoadOne, recs, i + 1).layers, LoadFrom(LoadOne, recs, i + 1).fault)
    ensures LoadedSoFar(recs, i + 1, acc + [v])
  {
    assert acc + ([v] + LoadFrom(LoadOne, recs, i + 1).layers) == (acc + [v]) + LoadFrom(LoadOne, recs, i + 1).layers;
  }

  /** Record i raises f: loading ends there with what has been loaded. */
  lemma LoadFails(recs: seq<LayerRecord>, i: nat, acc: seq<LayerVal>, f: Fault)
    requires i < |recs| && LoadedSoFar(recs, i, acc) && LoadFrom(LoadOne, recs, i) == Loaded([], Some(f))
    ensures LoadAll(recs) == Loaded(acc, Some(f))
  {
    assert acc + [] == acc;
  }

  /** Every record has loaded. */
  lemma LoadDone(recs: seq<LayerRecord>, acc: seq<LayerVal>)
    requires LoadedSoFar(recs, |recs|, acc)
    ensures LoadAll(recs) == Loaded(acc, None)
  {
    assert acc + [] == acc;
  }

  /**
   * Loading get_network's Data reproduces every layer: the same shapes,
   * matrix, bias and activation name, zero accumulators, and the same
   * behaviour for the four known activations; a layer with no outputs cannot
   * be reloaded.
   */
  lemma NetworkRoundTrip(ms: seq<LayerVal>)
    requires AllWellShaped(ms) && forall k :: 0 <= k < |ms| ==> ms[k].dimout > 0
    ensures LoadAll(Records(ms)).fault.None? && |LoadAll(Records(ms)).layers| == |ms|
    ensures forall k :: 0 <= k < |ms| ==>
      var r := LoadAll(Records(ms)).layers[k];
      r.matrix == ms[k].matrix && r.bias == ms[k].bias && r.dimin == ms[k].dimin && r.dimout == ms[k].dimout
      && r.activation == ms[k].activation && Cleared(r)
      && (KnownActivation(ms[k].activation) ==> Equivalent(r, ms[k]))
  {
    var l := LoadAll(Records(ms));
    LoadAllSpec(Records(ms));
    forall k | 0 <= k < |ms| ensures SetLayerVal(Blank(), Records(ms)[k]).Ok? {
      GetSetRoundTrip(ms[k], Blank());
    }
    forall k | 0 <= k < |ms|
      ensures var r := l.layers[k];
        r.matrix == ms[k].matrix && r.bias == ms[k].bias && r.dimin == ms[k].dimin && r.dimout == ms[k].dimout
        && r.activation == ms[k].activation && Cleared(r)
        && (KnownActivation(ms[k].activation) ==> Equivalent(r, ms[k]))
    {
      GetSetRoundTrip(ms[k], Blank());
    }
  }

  /** A network of known activations, saved and reloaded, computes the same outputs. */
  lemma ReloadedNetworkComputesAlike(ms: seq<LayerVal>, x: Vector, exp: real -> real)
    requires AllWellShaped(ms) && PositiveExp(exp)
    requires forall k :: 0 <= k < |ms| ==> ms[k].dimout > 0 && KnownActivation(ms[k].activation)
    ensures |LoadAll(Records(ms)).layers| == |ms| && AllWellShaped(LoadAll(Records(ms)).layers)
    ensures Run(LoadAll(Records(ms)).layers, x, |ms|, exp).out == Run(ms, x, |ms|, exp).out
  {
    NetworkRoundTrip(ms);
    LoadAllSpec(Records(ms));
    var l := LoadAll(Records(ms)).layers;
    RunDependsOnParamsOnly(ms, l, x, |ms|, exp);
  }

  // ---------------------------------------------------------------------------
  // The Network object
  // ---------------------------------------------------------------------------

  ghost function ModelsOf(ls: seq<Layer>): seq<LayerVal>
    reads ls
  {
    seq(|ls|, k requires 0 <= k < |ls| reads ls => ls[k].Model())
  }

  lemma ModelAt(ls: seq<Layer>, k: nat)
    requires k < |ls|
    ensures ModelsOf(ls)[k] == ls[k].Model()
  {
  }

  /** Distinct Layer objects, each keeping its shapes. */
  ghost predicate DistinctValid(ls: seq<Layer>)
    reads ls
  {
    (forall i, j :: 0 <= i < j < |ls| ==> ls[i] != ls[j])
    && AllWellShaped(ModelsOf(ls))
  }

  /** Appending a distinct, well-shaped layer keeps the list distinct and well shaped. */
  lemma AppendModel(ls: seq<Layer>, l: Layer)
    requires DistinctValid(ls) && l !in ls && l.Valid()
    ensures DistinctValid(ls + [l])
    ensures ModelsOf(ls + [l]) == ModelsOf(ls) + [l.Model()]
  {
    assert ModelsOf(ls + [l]) == ModelsOf(ls) + [l.Model()];
  }

  /** Appending a new, well-shaped layer whose value is the next one wanted keeps the list in step. */
  lemma ExtendModels(ls: seq<Layer>, l: Layer, want: seq<LayerVal>)
    requires |ls| < |want| && DistinctValid(ls) && ModelsOf(ls) == want[..|ls|]
    requires l !in ls && l.Valid() && l.Model() == want[|ls|]
    ensures DistinctValid(ls + [l]) && ModelsOf(ls + [l]) == want[..|ls| + 1]
  {
    AppendModel(ls, l);
    assert want[..|ls| + 1] == want[..|ls|] + [want[|ls|]];
  }

  /** `inst = Layer(); inst.set_layer(record)`, the body of set_network's loop. */
  method LoadLayer(recs: seq<LayerRecord>, i: nat) returns (inst: Layer, r: Result<()>)
    requires i < |recs|
    ensures fresh(inst) && inst.Valid()
    ensures r.Err? ==> LoadFrom(LoadOne, recs, i) == Loaded([], Some(r.fault))
    ensures r.Ok? ==> LoadFrom(LoadOne, recs, i) == Loaded([inst.Model()] + LoadFrom(LoadOne, recs, i + 1).layers, LoadFrom(LoadOne, recs, i + 1).fault)
  {
    inst := new Layer(0, 0, Some("sigmoid"), NoDraws, NoBiasDraws);
    assert inst.Model() == Blank();
    r := inst.SetLayer(recs[i]);
  }

  /** set_network after i records: `ls` holds the old layers and then the i loaded ones. */
  ghost predicate Loading(ls: seq<Layer>, want: seq<LayerVal>, recs: seq<LayerRecord>, i: nat, acc: seq<LayerVal>)
    reads ls
  {
    DistinctValid(ls) && ModelsOf(ls) == want + acc && LoadedSoFar(recs, i, acc)
  }

  /** One iteration of set_network's loop: load record i and append the new layer to `ls`. */
  method LoadInto(ls: seq<Layer>, recs: seq<LayerRecord>, i: nat, ghost want: seq<LayerVal>, ghost acc: seq<LayerVal>)
    returns (ls': seq<Layer>, r: Result<()>, ghost acc': seq<LayerVal>)
    requires i < |recs| && Loading(ls, want, recs, i, acc)
    ensures r.Err? ==> ls' == ls && DistinctValid(ls') && ModelsOf(ls') == want + acc && LoadAll(recs) == Loaded(acc, Some(r.fault))
    ensures r.Ok? ==> Loading(ls', want, recs, i + 1, acc')
  {
    var inst, s := LoadLayer(recs, i);
    if s.Err? {
      LoadFails(recs, i, acc, s.fault);
      return ls, s, acc;
    }
    LoadNext(recs, i, acc, inst.Model());
    AppendModel(ls, inst);
    assert want + acc + [inst.Model()] == want + (acc + [inst.Model()]);
    return ls + [inst], Ok(()), acc + [inst.Model()];
  }

  /**
   * set_network's loop: a fresh layer for each record, set_layer on it, and
   * append it; a record that raises stops the loop with the layers loaded
   * before it appended.
   */
  method LoadRecords(ls: seq<Layer>, recs: seq<LayerRecord>, ghost want: seq<LayerVal>) returns (ls': seq<Layer>, r: Result<()>)
    requires DistinctValid(ls) && ModelsOf(ls) == want
    ensures DistinctValid(ls') && ModelsOf(ls') == want + LoadAll(recs).layers
    ensures r == if LoadAll(recs).fault.Some? then Err(LoadAll(recs).fault.value) else Ok(())
  {
    ghost var acc: seq<LayerVal> := [];
    ls' := ls;
    var i := 0;
    while i < |recs|
      invariant Loading(ls', want, recs, i, acc)
    {
      ls', r, acc := LoadInto(ls', recs, i, want, acc);
      if r.Err? {
        return;
      }
      i := i + 1;
    }
    LoadDone(recs, acc);
    r := Ok(());
  }

  class Network {
    var layers: seq<LayerSpec>
    var layerslst: seq<Layer>

    ghost function Models(): seq<LayerVal>
      reads this, layerslst
    {
      ModelsOf(layerslst)
    }

    ghost predicate Valid()
      reads this, layerslst
    {
      DistinctValid(layerslst)
    }

    /** When only layer `at` has changed, only its value has. */
    twostate lemma OneLayerChanged(at: nat)
      requires unchanged(this) && at < |layerslst| && old(Valid()) && layerslst[at].Valid()
      requires forall i :: 0 <= i < |layerslst| && i != at ==> unchanged(layerslst[i])
      ensures Models() == old(Models())[at := layerslst[at].Model()]
      ensures Valid()
    {
    }

    /** Network(spec), with np.random.rand drawing u and ub for each layer. */
    constructor (spec: seq<LayerSpec>, u: (nat, nat, nat) -> real, ub: (nat, nat) -> real)
      requires NetworkDraws(u, ub)
      ensures Valid() && layers == spec && Models() == Built(spec, u, ub)
    {
      var built := Built(spec, u, ub);
      var ls: seq<Layer> := [];
      var i := 0;
      while i + 1 < |spec|
        invariant i == |ls| <= |built|
        invariant DistinctValid(ls) && ModelsOf(ls) == built[..i]
      {
        LayerDraws(u, ub, i);
        var l := new Layer(spec[i].neurons, spec[i + 1].neurons, spec[i + 1].activation, MatrixDraws(u, i), BiasDraws(ub, i));
        assert l.Model() == built[i];
        ExtendModels(ls, l, built);
        ls := ls + [l];
        i := i + 1;
      }
      layers := spec;
      layerslst := ls;
    }

    /** compute: each layer's step in order; the first step that raises ends it. */
    method Compute(inp: Vector, exp: real -> real) returns (r: Result<Vector>)
      requires Valid() && PositiveExp(exp)
      modifies layerslst
      ensures Valid()
      ensures Models() == Run(old(Models()), inp, |layerslst|, exp).layers
      ensures r == Run(old(Models()), inp, |layerslst|, exp).out
    {
      r := ForwardAll(inp, exp, Models());
    }

    /** compute's loop over the layers, which start out as ms. */
    method ForwardAll(inp: Vector, exp: real -> real, ghost ms: seq<LayerVal>) returns (r: Result<Vector>)
      requires Valid() && PositiveExp(exp) && Models() == ms
      modifies layerslst
      ensures Valid()
      ensures Run(ms, inp, |ms|, exp) == Forwarded(Models(), r)
    {
      var v := inp;
      var k := 0;
      while k < |layerslst|
        invariant k <= |layerslst| == |ms| && Valid()
        invariant Run(ms, inp, k, exp) == Forwarded(Models(), Ok(v))
      {
        var s := ForwardStep(k, v, inp, exp, ms);
        if s.Err? {
          return s;
        }
        v := s.value;
        k := k + 1;
      }
      return Ok(v);
    }

    /** One iteration of compute's loop: `inp = layer_.step(inp)` for the k-th layer. */
    method ForwardStep(k: nat, v: Vector, ghost inp: Vector, exp: real -> real, ghost ms: seq<LayerVal>) returns (s: Result<Vector>)
      requires k < |layerslst| == |ms| && Valid() && PositiveExp(exp) && AllWellShaped(ms)
      requires Run(ms, inp, k, exp) == Forwarded(Models(), Ok(v))
      modifies layerslst
      ensures Valid()
      ensures s.Ok? ==> Run(ms, inp, k + 1, exp) == Forwarded(Models(), s)
      ensures s.Err? ==> Run(ms, inp, |ms|, exp) == Forwarded(Models(), s)
    {
      RunNext(ms, inp, k, exp);
      s := StepAt(k, v, exp);
      if s.Err? {
        RunAfterError(ms, inp, k + 1, |ms|, exp);
      }
    }

    /** step on the k-th layer, which leaves every other layer as it was. */
    method StepAt(k: nat, v: Vector, exp: real -> real) returns (r: Result<Vector>)
      requires k < |layerslst| && Valid() && PositiveExp(exp)
      modifies layerslst
      ensures Valid()
      ensures Models() == old(Models())[k := StepOutcome(old(Models())[k], v, exp).layer]
      ensures r == StepOutcome(old(Models())[k], v, exp).out
    {
      ModelAt(layerslst, k);
      var l := layerslst[k];
      var s := l.Step(v, exp);
      OneLayerChanged(k);
      r := s;
    }

    /**
     * learn. An empty network raises IndexError before anything changes; an
     * empty batch raises ZeroDivisionError (the parameters are then not
     * stated); otherwise the network becomes LearnVal and the mean loss is
     * returned. Shapes that do not fit are excluded by the precondition.
     */
    method Learn(inputarr: seq<Vector>, outputarr: seq<Vector>, deltat: real, exp: real -> real, log: real -> real)
      returns (r: Result<real>)
      requires Valid() && PositiveExp(exp)
      requires |layerslst| > 0 ==> Ready(Models()) && Fits(Models(), inputarr, outputarr)
      modifies layerslst
      ensures Valid()
      ensures |layerslst| == 0 ==> r == Err(MissingIndex)
      ensures |layerslst| > 0 && |inputarr| == 0 ==> r == Err(ZeroDivision)
      ensures |layerslst| > 0 && |inputarr| > 0 ==>
        Models() == LearnVal(old(Models()), inputarr, outputarr, deltat, exp, log).layers
        && r == Ok(LearnVal(old(Models()), inputarr, outputarr, deltat, exp, log).err)
    {
      if |layerslst| == 0 {
        return Err(MissingIndex);
      }
      ModelAt(layerslst, |layerslst| - 1);
      var isSoftmax := layerslst[|layerslst| - 1].activationFun == "softmax";
      if |inputarr| == 0 {
        return Err(ZeroDivision);
      }
      var mean := Train(inputarr, outputarr, deltat, isSoftmax, exp, log);
      return Ok(mean);
    }

    /** learn on a non-empty batch: the batch loop, the update, and the mean loss. */
    method Train(inputarr: seq<Vector>, outputarr: seq<Vector>, deltat: real, isSoftmax: bool,
                 exp: real -> real, log: real -> real) returns (mean: real)
      requires Valid() && Ready(Models()) && Fits(Models(), inputarr, outputarr) && |inputarr| > 0 && PositiveExp(exp)
      requires isSoftmax == (Models()[|Models()| - 1].activation == "softmax")
      modifies layerslst
      ensures Valid()
      ensures Models() == LearnVal(old(Models()), inputarr, outputarr, deltat, exp, log).layers
      ensures mean == LearnVal(old(Models()), inputarr, outputarr, deltat, exp, log).err
    {
      ghost var ms := Models();
      LearnValUnfold(ms, inputarr, outputarr, deltat, isSoftmax, exp, log);
      var err := LearnBatch(inputarr, outputarr, isSoftmax, exp, log);
      ModifyLayers(deltat, |inputarr|);
      mean := err / (|inputarr| as real);
    }

    /** learn's batch loop: one LearnExample per example, summing the losses. */
    method LearnBatch(inputarr: seq<Vector>, outputarr: seq<Vector>, isSoftmax: bool, exp: real -> real, log: real -> real)
      returns (err: real)
      requires Valid() && Ready(Models()) && Fits(Models(), inputarr, outputarr) && PositiveExp(exp)
      modifies layerslst
      ensures Valid()
      ensures Models() == BatchVal(old(Models()), inputarr, outputarr, |inputarr|, isSoftmax, exp, log).layers
      ensures err == BatchVal(old(Models()), inputarr, outputarr, |inputarr|, isSoftmax, exp, log).err
    {
      ghost var ms := Models();
      ghost var cur := ms;
      err := 0.0;
      var i := 0;
      while i < |inputarr|
        invariant i <= |inputarr| && Valid() && Models() == cur
        invariant BatchState(ms, inputarr, outputarr, i, isSoftmax, exp, log, cur, err)
      {
        err, cur := BatchStep(ms, inputarr, outputarr, i, isSoftmax, exp, log, cur, err);
        i := i + 1;
      }
    }

    /** One iteration of the batch loop, from the state after i examples to the state after i + 1. */
    method BatchStep(ghost ms: seq<LayerVal>, inputarr: seq<Vector>, outputarr: seq<Vector>, i: nat, isSoftmax: bool,
                     exp: real -> real, log: real -> real, ghost cur: seq<LayerVal>, err: real)
      returns (err': real, ghost cur': seq<LayerVal>)
      requires i < |inputarr| && Valid() && Models() == cur
      requires BatchState(ms, inputarr, outputarr, i, isSoftmax, exp, log, cur, err)
      modifies layerslst
      ensures Valid() && Models() == cur'
      ensures BatchState(ms, inputarr, outputarr, i + 1, isSoftmax, exp, log, cur', err')
    {
      BatchNext(ms, inputarr, outputarr, i, isSoftmax, exp, log, cur, err);
      var loss := LearnExample(inputarr[i], outputarr[i], isSoftmax, exp, log);
      cur' := ExampleVal(cur, inputarr[i], outputarr[i], isSoftmax, exp, log).layers;
      err' := err + loss;
    }

    /** One pass of learn's batch loop: compute, the output signal and the loss, then the backward pass. */
    method LearnExample(x: Vector, y: Vector, isSoftmax: bool, exp: real -> real, log: real -> real)
      returns (loss: real)
      requires Valid() && Ready(Models()) && PositiveExp(exp)
      requires |x| == Models()[0].dimin && |y| == Models()[|Models()| - 1].dimout
      modifies layerslst
      ensures Valid()
      ensures Models() == ExampleVal(old(Models()), x, y, isSoftmax, exp, log).layers
      ensures loss == ExampleVal(old(Models()), x, y, isSoftmax, exp, log).err
    {
      ghost var ms := Models();
      RunResult(ms, x, |ms|, exp);
      RunCaches(ms, x, |ms|, exp);
      RunFrame(ms, x, |ms|, exp);
      var c := Compute(x, exp);
      CachesOnlyKeepParams(ms, Models());
      SameParamsKeepChain(ms, Models());
      var estimate := c.value;
      var neurondeltas := Signal(isSoftmax, estimate, y);
      loss := Loss(isSoftmax, estimate, y, log);
      Backward(neurondeltas, x);
    }

    /** learn's backpropagation: layer_bpropag from the last layer down to the first, which gets the input. */
    method Backward(d: Vector, x: Vector)
      requires Valid() && |layerslst| > 0 && Chained(Models()) && AllRun(Models()) && Cached(Models(), |layerslst|)
      requires |d| == Models()[|layerslst| - 1].dimout && |x| == Models()[0].dimin
      modifies layerslst
      ensures Valid() && Models() == Back(old(Models()), |layerslst|, d, x)
    {
      ghost var target := Back(Models(), |layerslst|, d, x);
      var neurondeltas, cur := BackwardUpper(d, x, target);
      BackFirst(cur, neurondeltas, x);
      var _ := BpropagAt(0, neurondeltas, x);
    }

    /**
     * The loop `for j in range(len(self.layerslst) - 1, 0, -1)`: every layer
     * but the first, each fed the last_neuron_data of the layer below it.
     */
    method BackwardUpper(d: Vector, x: Vector, ghost target: seq<LayerVal>) returns (neurondeltas: Vector, ghost cur: seq<LayerVal>)
      requires Valid() && Unwinding(Models(), |layerslst|, d, x, target)
      modifies layerslst
      ensures |cur| == |layerslst| && Valid() && Models() == cur
      ensures Unwinding(cur, 1, neurondeltas, x, target)
    {
      cur := Models();
      neurondeltas := d;
      var k: nat := |layerslst|;
      while k > 1
        invariant 1 <= k && |cur| == |layerslst| && Valid() && Models() == cur
        invariant Unwinding(cur, k, neurondeltas, x, target)
      {
        neurondeltas, cur := BackwardStep(k, neurondeltas, x, cur, target);
        k := k - 1;
      }
    }

    /**
     * One iteration of the backpropagation loop, for layer j = k - 1 > 0:
     * self.layerslst[j].layer_bpropag(neurondeltas, self.layerslst[j - 1].last_neuron_data).
     */
    method BackwardStep(k: nat, d: Vector, x: Vector, ghost cur: seq<LayerVal>, ghost target: seq<LayerVal>)
      returns (out: Vector, ghost next: seq<LayerVal>)
      requires 1 < k && |cur| == |layerslst| && Valid() && Models() == cur
      requires Unwinding(cur, k, d, x, target)
      modifies layerslst
      ensures |next| == |cur| && Valid() && Models() == next
      ensures Unwinding(next, k - 1, out, x, target)
    {
      ModelAt(layerslst, k - 1 - 1);
      var prev := layerslst[k - 1 - 1].lastNeuronData.value;
      UnwindCanBpropag(cur, k, d, prev, x, target);
      out := BpropagAt(k - 1, d, prev);
      next := Models();
      UnwindNext(cur, k, d, prev, x, target, next, out);
    }

    /** layer_bpropag on the j-th layer, which leaves every other layer as it was. */
    method BpropagAt(j: nat, d: Vector, prev: Vector) returns (out: Vector)
      requires j < |layerslst| && Valid() && CanBpropag(Models()[j], d, prev)
      modifies layerslst
      ensures Valid()
      ensures Models() == old(Models())[j := BpropagVal(old(Models())[j], d, prev).layer]
      ensures out == BpropagVal(old(Models())[j], d, prev).out
    {
      ModelAt(layerslst, j);
      var l := layerslst[j];
      var b := l.LayerBpropag(d, prev);
      OneLayerChanged(j);
      out := b.value;
    }

    /** learn's final loop: modify(deltat, n) on every layer in order. */
    method ModifyLayers(deltat: real, n: int)
      requires Valid() && n != 0
      modifies layerslst
      ensures Valid() && Models() == ModifyAll(old(Models()), deltat, n)
    {
      ghost var acc := Models();
      var k := 0;
      while k < |layerslst|
        invariant k <= |layerslst| && Valid()
        invariant |Models()| == |acc|
        invariant forall t :: 0 <= t < k ==> Models()[t] == ModifyVal(acc[t], deltat, n)
        invariant forall t :: k <= t < |acc| ==> Models()[t] == acc[t]
      {
        ghost var before := Models();
        assert layerslst[k].Model() == before[k];
        layerslst[k].Modify(deltat, n);
        assert Models() == before[k := layerslst[k].Model()];
        k := k + 1;
      }
      assert Models() == ModifyAll(acc, deltat, n);
    }

    /**
     * The trainable-parameter count of __repr__: for every spec entry after
     * the first, matrix.size + bias.size of the layer before it; a spec longer
     * than the layer list plus one raises IndexError.
     */
    method TrainableParameters() returns (r: Result<nat>)
      requires Valid()
      ensures r.Ok? <==> |layers| <= |layerslst| + 1
      ensures r.Ok? ==> r.value == ParamCount(Models(), if |layers| == 0 then 0 else |layers| - 1)
    {
      var parameters := 0;
      var i := 0;
      while i < |layers|
        invariant i <= |layers| && i <= |layerslst| + 1
        invariant parameters == ParamCount(Models(), if i == 0 then 0 else i - 1)
      {
        if i > 0 {
          if i - 1 >= |layerslst| {
            return Err(MissingIndex);
          }
          var l := layerslst[i - 1];
          parameters := parameters + l.dimin * l.dimout + l.dimout;
        }
        i := i + 1;
      }
      return Ok(parameters);
    }

    /** get_network: Meta "1.0", get_layer of every layer in order, and the spec list. */
    method GetNetwork() returns (rec: NetworkRecord)
      requires Valid()
      ensures rec == NetworkRecord("1.0", Records(Models()), layers)
    {
      var outlst: seq<LayerRecord> := [];
      for k := 0 to |layerslst|
        invariant outlst == Records(Models())[..k]
      {
        assert layerslst[k].Model() == Models()[k];
        var d := layerslst[k].GetLayer();
        outlst := outlst + [d];
      }
      return NetworkRecord("1.0", outlst, layers);
    }

    /**
     * set_network: a record whose Meta is not "1.0" is ignored. Otherwise the
     * spec list is replaced and the loaded layers are APPENDED to the existing
     * ones; a record that raises stops the loop, keeping what was appended.
     */
    method SetNetwork(data: NetworkRecord) returns (r: Result<()>)
      requires Valid()
      modifies this
      ensures Valid()
      ensures data.meta != "1.0" ==> r == Ok(()) && layers == old(layers) && layerslst == old(layerslst)
      ensures data.meta == "1.0" ==>
        layers == data.layers
        && Models() == old(Models()) + LoadAll(data.data).layers
        && r == (if LoadAll(data.data).fault.Some? then Err(LoadAll(data.data).fault.value) else Ok(()))
    {
      if data.meta != "1.0" {
        return Ok(());
      }
      layers := data.layers;
      var ls;
      ls, r := LoadRecords(layerslst, data.data, Models());
      layerslst := ls;
    }
  }

  /** Network() draws nothing: its spec list is empty. */
  const NoLayerDraws: (nat, nat, nat) -> real := (k: nat, i: nat, j: nat) => 0.0
  const NoLayerBiasDraws: (nat, nat) -> real := (k: nat, i: nat) => 0.0

  /**
   * get_network on `src`, then set_network of that record on a new Network():
   * the spec list comes back, and so does every layer's shape, matrix, bias
   * and activation, with zero accumulators; `src` itself is not changed.
   */
  method SaveAndReload(src: Network) returns (dst: Network, r: Result<()>)
    requires src.Valid() && forall k :: 0 <= k < |src.Models()| ==> src.Models()[k].dimout > 0
    ensures fresh(dst) && dst.Valid() && r == Ok(())
    ensures dst.layers == src.layers && |dst.Models()| == |src.Models()|
    ensures forall k :: 0 <= k < |src.Models()| ==>
      var a, b := src.Models()[k], dst.Models()[k];
      b.matrix == a.matrix && b.bias == a.bias && b.dimin == a.dimin && b.dimout == a.dimout
      && b.activation == a.activation && Cleared(b)
      && (KnownActivation(a.activation) ==> Equivalent(b, a))
  {
    var rec := src.GetNetwork();
    NetworkRoundTrip(src.Models());
    dst := new Network([], NoLayerDraws, NoLayerBiasDraws);
    r := dst.SetNetwork(rec);
  }
}
