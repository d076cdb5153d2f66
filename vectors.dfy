/**
 * The numpy vector and matrix operations the network uses, over `real`:
 * `@` (matrix times vector), `+`/`-` elementwise, `np.outer`, `np.transpose`,
 * `np.zeros` and `np.sum`, and numpy's broadcasting of a length-1 operand in
 * an in-place addition. Floating-point rounding is not modelled.
 */
module Vectors {

  type Vector = seq<real>
  type Matrix = seq<seq<real>>

  /** `m` has shape (rows, cols). */
  predicate IsMatrix(m: Matrix, rows: nat, cols: nat) {
    |m| == rows && forall i :: 0 <= i < |m| ==> |m[i]| == cols
  }

  function Sum(v: Vector): real {
    if v == [] then 0.0 else v[0] + Sum(v[1..])
  }

  function Dot(a: Vector, b: Vector): real
    requires |a| == |b|
  {
    if a == [] then 0.0 else a[0] * b[0] + Dot(a[1..], b[1..])
  }

  function Zeros(n: nat): (r: Vector)
    ensures |r| == n
  {
    seq(n, _ => 0.0)
  }

  function ZeroMatrix(rows: nat, cols: nat): (r: Matrix)
    ensures IsMatrix(r, rows, cols)
  {
    seq(rows, _ => Zeros(cols))
  }

  predicate IsZero(v: Vector) {
    forall i :: 0 <= i < |v| ==> v[i] == 0.0
  }

  predicate IsZeroMatrix(m: Matrix) {
    forall i, j :: 0 <= i < |m| && 0 <= j < |m[i]| ==> m[i][j] == 0.0
  }

  function Add(a: Vector, b: Vector): (r: Vector)
    requires |a| == |b|
    ensures |r| == |a|
  {
    seq(|a|, i requires 0 <= i < |a| => a[i] + b[i])
  }

  function Sub(a: Vector, b: Vector): (r: Vector)
    requires |a| == |b|
    ensures |r| == |a|
  {
    seq(|a|, i requires 0 <= i < |a| => a[i] - b[i])
  }

  function Scale(c: real, a: Vector): (r: Vector)
    ensures |r| == |a|
  {
    seq(|a|, i requires 0 <= i < |a| => c * a[i])
  }

  function MatAdd(m: Matrix, n: Matrix): (r: Matrix)
    requires |m| == |n| && forall i :: 0 <= i < |m| ==> |m[i]| == |n[i]|
    ensures |r| == |m| && forall i :: 0 <= i < |m| ==> |r[i]| == |m[i]|
  {
    seq(|m|, i requires 0 <= i < |m| => Add(m[i], n[i]))
  }

  /** `m @ x`. */
  function MatVec(m: Matrix, x: Vector): (r: Vector)
    requires forall i :: 0 <= i < |m| ==> |m[i]| == |x|
    ensures |r| == |m|
  {
    seq(|m|, i requires 0 <= i < |m| => Dot(m[i], x))
  }

  function Column(m: Matrix, j: nat): (r: Vector)
    requires forall i :: 0 <= i < |m| ==> j < |m[i]|
    ensures |r| == |m|
  {
    seq(|m|, i requires 0 <= i < |m| => m[i][j])
  }

  /** `np.transpose(m) @ d` for `m` of shape (|d|, cols). */
  function TransposeMatVec(m: Matrix, d: Vector, cols: nat): (r: Vector)
    requires IsMatrix(m, |d|, cols)
    ensures |r| == cols
  {
    seq(cols, j requires 0 <= j < cols => Dot(Column(m, j), d))
  }

  /** `np.outer(a, b)`. */
  function Outer(a: Vector, b: Vector): (r: Matrix)
    ensures IsMatrix(r, |a|, |b|)
  {
    seq(|a|, i requires 0 <= i < |a| => seq(|b|, j requires 0 <= j < |b| => a[i] * b[j]))
  }

  /**
   * numpy's broadcasting rule on one axis: an operand of length k can be
   * combined with an axis of length n when k == n or k == 1.
   */
  predicate BroadcastsTo(k: nat, n: nat) {
    k == n || k == 1
  }

  /** Entry i of `v` as numpy broadcasts it: a length-1 vector repeats its one entry. */
  function At(v: Vector, i: nat): real
    requires i < |v| || |v| == 1
  {
    if |v| == 1 then v[0] else v[i]
  }

  /** The in-place `acc += v`: the result keeps the shape of `acc`. */
  function AddInto(acc: Vector, v: Vector): (r: Vector)
    requires BroadcastsTo(|v|, |acc|)
    ensures |r| == |acc|
    ensures |v| == |acc| ==> r == Add(acc, v)
    ensures |v| == 1 ==> forall i :: 0 <= i < |acc| ==> r[i] == acc[i] + v[0]
  {
    seq(|acc|, i requires 0 <= i < |acc| => acc[i] + At(v, i))
  }

  /**
   * The in-place `g += np.outer(a, b)` on a (rows, cols) matrix: entry (i, j)
   * gains a[i] * b[j], a length-1 operand repeating along its axis.
   */
  function AddOuterInto(g: Matrix, a: Vector, b: Vector, rows: nat, cols: nat): (r: Matrix)
    requires IsMatrix(g, rows, cols) && BroadcastsTo(|a|, rows) && BroadcastsTo(|b|, cols)
    ensures IsMatrix(r, rows, cols)
  {
    seq(rows, i requires 0 <= i < rows => seq(cols, j requires 0 <= j < cols => g[i][j] + At(a, i) * At(b, j)))
  }

  /** Entry (i, j) of the in-place outer-product update gains a[i] * b[j], broadcast where an operand has length 1. */
  lemma AddOuterIntoAt(g: Matrix, a: Vector, b: Vector, rows: nat, cols: nat, i: nat, j: nat)
    requires IsMatrix(g, rows, cols) && BroadcastsTo(|a|, rows) && BroadcastsTo(|b|, cols)
    requires i < rows && j < cols
    ensures AddOuterInto(g, a, b, rows, cols)[i][j] == g[i][j] + At(a, i) * At(b, j)
  {
  }

  /** Without broadcasting, the in-place update is `MatAdd(g, Outer(a, b))`. */
  lemma AddOuterIntoExact(g: Matrix, a: Vector, b: Vector)
    requires IsMatrix(g, |a|, |b|)
    ensures AddOuterInto(g, a, b, |a|, |b|) == MatAdd(g, Outer(a, b))
  {
    var r := AddOuterInto(g, a, b, |a|, |b|);
    var s := MatAdd(g, Outer(a, b));
    forall i | 0 <= i < |a| ensures r[i] == s[i] {
      var o := Outer(a, b);
      assert s[i] == Add(g[i], o[i]);
      assert |r[i]| == |s[i]| == |b|;
      forall j | 0 <= j < |b| ensures r[i][j] == s[i][j] {
        assert o[i][j] == a[i] * b[j];
        AddOuterIntoAt(g, a, b, |a|, |b|, i, j);
      }
    }
  }

  /** `p - g * rate / n`, elementwise. */
  function Descend(p: Vector, g: Vector, rate: real, n: int): (r: Vector)
    requires |p| == |g| && n != 0
    ensures |r| == |p|
  {
    seq(|p|, i requires 0 <= i < |p| => p[i] - g[i] * rate / (n as real))
  }

  function MatDescend(m: Matrix, g: Matrix, rate: real, n: int): (r: Matrix)
    requires |m| == |g| && n != 0 && forall i :: 0 <= i < |m| ==> |m[i]| == |g[i]|
    ensures |r| == |m| && forall i :: 0 <= i < |m| ==> |r[i]| == |m[i]|
  {
    seq(|m|, i requires 0 <= i < |m| => Descend(m[i], g[i], rate, n))
  }

  /** Summing a scaled vector scales the sum. */
  lemma {:induction false} SumScale(c: real, a: Vector)
    ensures Sum(Scale(c, a)) == c * Sum(a)
    decreases |a|
  {
    if a != [] {
      var s, t := Scale(c, a)[1..], Scale(c, a[1..]);
      assert |s| == |t|;
      assert forall i :: 0 <= i < |s| ==> s[i] == c * a[i + 1] == t[i];
      assert s == t;
      SumScale(c, a[1..]);
    }
  }

  /** Replacing one term changes the sum by the difference. */
  lemma {:induction false} SumUpdate(a: Vector, i: nat, v: real)
    requires i < |a|
    ensures Sum(a[i := v]) == Sum(a) - a[i] + v
    decreases |a|
  {
    if i == 0 {
      assert a[i := v][1..] == a[1..];
    } else {
      assert a[i := v][1..] == a[1..][i - 1 := v];
      SumUpdate(a[1..], i - 1, v);
    }
  }

  /** A sum of non-negative terms is non-negative. */
  lemma {:induction false} SumNonNegative(a: Vector)
    requires forall i :: 0 <= i < |a| ==> a[i] >= 0.0
    ensures Sum(a) >= 0.0
    decreases |a|
  {
    if a != [] {
      SumNonNegative(a[1..]);
    }
  }

  /** Each term of a sum of non-negative terms is at most the sum. */
  lemma {:induction false} SumBoundsTerm(a: Vector, k: nat)
    requires k < |a| && forall i :: 0 <= i < |a| ==> a[i] >= 0.0
    ensures a[k] <= Sum(a)
    decreases |a|
  {
    SumNonNegative(a[1..]);
    if k > 0 {
      SumBoundsTerm(a[1..], k - 1);
    }
  }

  /** A sum of positive terms over a non-empty vector is positive. */
  lemma {:induction false} SumPositive(a: Vector)
    requires a != [] && forall i :: 0 <= i < |a| ==> a[i] > 0.0
    ensures Sum(a) > 0.0
    decreases |a|
  {
    if |a| > 1 {
      SumPositive(a[1..]);
    }
  }
}
