/** Flattened numpy arrays as sequences of exact reals, and the handful of
    scalar and componentwise operations the step-size rules use. */
module Vectors {

  function Min(x: real, y: real): real
  {
    if x <= y then x else y
  }

  function Max(x: real, y: real): real
  {
    if x >= y then x else y
  }

  function Abs(x: real): real
  {
    if x < 0.0 then -x else x
  }

  /** `numpy.clip(x, lo, hi)`: raise to `lo`, then cap at `hi`. */
  function Clip(x: real, lo: real, hi: real): (r: real)
    requires lo <= hi
    ensures lo <= r <= hi
    ensures lo <= x <= hi ==> r == x
  {
    Min(Max(x, lo), hi)
  }

  lemma MulDivCancel(x: real, y: real)
    requires y != 0.0
    ensures x * y / y == x
  {
  }

  lemma MulLeMono(x: real, y: real, k: real)
    requires x <= y && 0.0 <= k
    ensures x * k <= y * k
  {
  }

  lemma MulLtMono(x: real, y: real, k: real)
    requires x < y && 0.0 < k
    ensures x * k < y * k
  {
  }

  /** Multiplying a positive number by a factor in (0, 1] keeps it positive
      and does not make it larger. */
  lemma ShrinkPositive(x: real, f: real)
    requires 0.0 < x && 0.0 < f <= 1.0
    ensures 0.0 < x * f <= x
  {
    MulLeMono(f, 1.0, x);
    MulLtMono(0.0, f, x);
    assert x * f == f * x;
  }

  lemma MulNonNegative(x: real, y: real)
    requires 0.0 <= x && 0.0 <= y
    ensures 0.0 <= x * y
  {
  }

  lemma SquarePositive(x: real)
    requires x != 0.0
    ensures 0.0 < x * x
  {
    if x < 0.0 {
      MulLtMono(x, 0.0, -x);
    } else {
      MulLtMono(0.0, x, x);
    }
  }

  lemma SquareNonNegative(x: real)
    ensures 0.0 <= x * x
  {
    if x < 0.0 {
      MulLtMono(x, 0.0, -x);
    }
  }

  /** `numpy.ones(n) * x`. */
  function Fill(n: nat, x: real): (r: seq<real>)
    ensures |r| == n
    ensures forall i :: 0 <= i < n ==> r[i] == x
  {
    seq(n, _ => x)
  }

  /** `k * a` for a scalar `k`. */
  function Scale(k: real, a: seq<real>): (r: seq<real>)
    ensures |r| == |a|
    ensures forall i :: 0 <= i < |a| ==> r[i] == k * a[i]
  {
    seq(|a|, i requires 0 <= i < |a| => k * a[i])
  }

  /** Componentwise product `a * b` of two arrays of one shape. */
  function Mul(a: seq<real>, b: seq<real>): (r: seq<real>)
    requires |a| == |b|
    ensures |r| == |a|
    ensures forall i :: 0 <= i < |a| ==> r[i] == a[i] * b[i]
  {
    seq(|a|, i requires 0 <= i < |a| => a[i] * b[i])
  }

  /** Componentwise square `a**2`; every entry is non-negative. */
  function Square(a: seq<real>): (r: seq<real>)
    ensures |r| == |a|
    ensures forall i :: 0 <= i < |a| ==> r[i] == a[i] * a[i] && 0.0 <= r[i]
  {
    seq(|a|, i requires 0 <= i < |a| => a[i] * a[i])
  }

  /** `k * a - b`, the shape of `gamma * phi_tp - phi_t`. */
  function ScaledDiff(k: real, a: seq<real>, b: seq<real>): (r: seq<real>)
    requires |a| == |b|
    ensures |r| == |a|
    ensures forall i :: 0 <= i < |a| ==> r[i] == k * a[i] - b[i]
  {
    seq(|a|, i requires 0 <= i < |a| => k * a[i] - b[i])
  }

  /** `numpy.dot` of two flat arrays. */
  function Dot(a: seq<real>, b: seq<real>): real
    requires |a| == |b|
    decreases |a|
  {
    if |a| == 0 then 0.0 else a[0] * b[0] + Dot(a[1..], b[1..])
  }

  /** `x[x == 0] = 1.0` on a copy: the result is a safe divisor that agrees
      with `a` wherever `a` is already nonzero. */
  function NonZero(a: seq<real>): (r: seq<real>)
    ensures |r| == |a|
    ensures forall i :: 0 <= i < |a| ==> r[i] != 0.0
    ensures forall i :: 0 <= i < |a| && a[i] != 0.0 ==> r[i] == a[i]
    ensures forall i :: 0 <= i < |a| && a[i] == 0.0 ==> r[i] == 1.0
  {
    seq(|a|, i requires 0 <= i < |a| => if a[i] == 0.0 then 1.0 else a[i])
  }

  /** Multiplying by a filled array is scaling by its one value. */
  lemma MulFill(k: real, a: seq<real>)
    ensures Mul(Fill(|a|, k), a) == Scale(k, a)
  {
    assert forall i :: 0 <= i < |a| ==> Mul(Fill(|a|, k), a)[i] == Scale(k, a)[i];
  }

  predicate NonNegative(a: seq<real>)
  {
    forall i :: 0 <= i < |a| ==> 0.0 <= a[i]
  }
}
