/** `STC`, search-then-converge: a scalar rate that stays near `a0` for roughly
    `N` calls and then decays. */
module StcStepSize {
  import opened Params
  import opened Vectors
  import opened StepSize

  const KeyC := "stc_c"
  const DefaultC := 1000000.0
  const KeyN := "stc_N"
  const DefaultN := 500000.0

  /** `alpha` is the agent's learning-rate field, which this strategy rewrites
      at every call; `pivot` is `stc_N`; `counter` is the Python int `stc_counter`. */
  datatype State = State(stepSizes: seq<real>, alpha: real, a0: real, c: real, pivot: real, counter: int)

  function Init(n: nat, alpha: real, params: Params): (r: Initialized<State>)
    ensures r.state.alpha == alpha && r.state.a0 == alpha
    ensures r.state.c == Resolved(params, KeyC, DefaultC)
    ensures r.state.pivot == Resolved(params, KeyN, DefaultN)
    ensures r.state.counter == 0
    ensures r.params == params[KeyC := r.state.c][KeyN := r.state.pivot]
    ensures Extends(params, r.params, {KeyC, KeyN})
    ensures r.state.stepSizes == Fill(n, alpha)
  {
    var c := SetDefault(params, KeyC, DefaultC);
    var pivot := SetDefault(c.params, KeyN, DefaultN);
    Initialized(State(Fill(n, alpha), alpha, alpha, c.value, pivot.value, 0), pivot.params)
  }

  /** The search term `(c / a0) * (k / N)` at counter k. */
  function Search(c: real, a0: real, pivot: real, k: int): real
    requires a0 * pivot != 0.0
  {
    c * k as real / (a0 * pivot)
  }

  /** The converge term `N * k^2 / N^2`, as the code writes it (it is `k^2 / N`). */
  function Converge(pivot: real, k: int): real
    requires pivot != 0.0
  {
    pivot * (k as real * k as real) / (pivot * pivot)
  }

  /** The class docstring's factor `(1 + s) / (1 + s + k^2 / N)` for the search
      term s. */
  function Factor(c: real, a0: real, pivot: real, k: int): real
    requires a0 * pivot != 0.0
    requires 1.0 + Search(c, a0, pivot, k) + Converge(pivot, k) != 0.0
  {
    (1.0 + Search(c, a0, pivot, k)) / (1.0 + Search(c, a0, pivot, k) + Converge(pivot, k))
  }

  /** The converge term is the non-negative `k^2 / N` for a positive N. */
  lemma ConvergeSimplifies(pivot: real, k: int)
    requires pivot > 0.0
    ensures Converge(pivot, k) == (k as real * k as real) / pivot
    ensures 0.0 <= Converge(pivot, k)
  {
    var y := Converge(pivot, k);
    assert y * (pivot * pivot) == pivot * (k as real * k as real);
    assert (y * pivot - k as real * k as real) * pivot == 0.0;
    assert y * pivot == k as real * k as real;
    MulDivCancel(y, pivot);
    SquareNonNegative(k as real);
    if y < 0.0 {
      MulLtMono(y, 0.0, pivot);
      assert false;
    }
  }

  /** One call multiplies alpha by `1 + s`, divides it by `1 + s + N*k^2/N^2`,
      fills the step sizes with the new alpha and advances the counter. Python
      raises `ZeroDivisionError` when `a0 * N` is zero (even at k = 0, where the
      code still divides `0.0` by it) or when the second divisor is zero. */
  function Rescale(s: State, x: Step): (r: Result<Rescaled<State>>)
    requires |x.direction| == |s.stepSizes|
    ensures s.a0 * s.pivot == 0.0 ==> r.Failure?
    ensures s.a0 * s.pivot != 0.0 ==>
      (r.Failure? <==> 1.0 + Search(s.c, s.a0, s.pivot, s.counter) + Converge(s.pivot, s.counter) == 0.0)
    ensures r.Success? ==>
      && r.value.state.alpha == s.alpha * Factor(s.c, s.a0, s.pivot, s.counter)
      && r.value.state.stepSizes == Fill(|s.stepSizes|, r.value.state.alpha)
      && r.value.state.counter == s.counter + 1
      && r.value.state.a0 == s.a0 && r.value.state.c == s.c && r.value.state.pivot == s.pivot
      && r.value.update == Mul(r.value.state.stepSizes, x.direction)
  {
    if s.a0 * s.pivot == 0.0 then Failure(DivisionByZero)
    else if 1.0 + Search(s.c, s.a0, s.pivot, s.counter) + Converge(s.pivot, s.counter) == 0.0 then
      Failure(DivisionByZero)
    else
      var alpha := Decayed(s.alpha, s.c, s.a0, s.pivot, s.counter);
      var steps := Fill(|s.stepSizes|, alpha);
      Success(Rescaled(s.(stepSizes := steps, alpha := alpha, counter := s.counter + 1), Mul(steps, x.direction)))
  }

  /** The two in-place updates of alpha, `alpha *= 1 + s` and then
      `alpha /= 1 + s + N*k^2/N^2`: together they multiply alpha by the factor. */
  function Decayed(alpha: real, c: real, a0: real, pivot: real, k: int): (r: real)
    requires a0 * pivot != 0.0
    requires 1.0 + Search(c, a0, pivot, k) + Converge(pivot, k) != 0.0
    ensures r == alpha * Factor(c, a0, pivot, k)
  {
    var grown := alpha * (1.0 + Search(c, a0, pivot, k));
    var divisor := 1.0 + Search(c, a0, pivot, k) + Converge(pivot, k);
    assert grown / divisor == alpha * Factor(c, a0, pivot, k) by {
      var f := Factor(c, a0, pivot, k);
      assert f * divisor == 1.0 + Search(c, a0, pivot, k);
      assert (alpha * f) * divisor == grown;
    }
    grown / divisor
  }

  function Run(s: State, xs: seq<Step>): (r: Result<Trace<State>>)
    requires forall j :: 0 <= j < |xs| ==> |xs[j].direction| == |s.stepSizes|
    ensures r.Success? ==> |r.value.updates| == |xs| && |r.value.state.stepSizes| == |s.stepSizes|
    decreases |xs|
  {
    if |xs| == 0 then Success(Trace(s, []))
    else match Rescale(s, xs[0])
      case Failure(e) => Failure(e)
      case Success(first) =>
        match Run(first.state, xs[1..])
        case Failure(e) => Failure(e)
        case Success(rest) => Success(Trace(rest.state, [first.update] + rest.updates))
  }

  /** For `c >= 0` and `a0, N > 0` the factor lies in (0, 1], and is exactly 1
      at counter 0. */
  lemma FactorInUnitInterval(c: real, a0: real, pivot: real, k: int)
    requires 0.0 <= c && 0.0 < a0 && 0.0 < pivot && 0 <= k
    ensures a0 * pivot != 0.0
    ensures 1.0 + Search(c, a0, pivot, k) + Converge(pivot, k) > 0.0
    ensures 0.0 < Factor(c, a0, pivot, k) <= 1.0
    ensures k == 0 ==> Factor(c, a0, pivot, k) == 1.0
  {
    MulNonNegative(a0, pivot);
    assert a0 * pivot > 0.0 by {
      MulLtMono(0.0, a0, pivot);
    }
    MulNonNegative(c, k as real);
    var search := Search(c, a0, pivot, k);
    assert 0.0 <= search;
    ConvergeSimplifies(pivot, k);
    var tail := Converge(pivot, k);
    assert 0.0 <= tail;
    var top := 1.0 + search;
    var bottom := top + tail;
    var f := top / bottom;
    assert f * bottom == top;
    if f <= 0.0 {
      MulLeMono(f, 0.0, bottom);
      assert false;
    }
    if f > 1.0 {
      MulLtMono(1.0, f, bottom);
      assert false;
    }
  }

  /** With `c >= 0`, `a0, N > 0`, a positive alpha and a non-negative counter,
      a run never fails and alpha stays positive and never grows. */
  lemma {:induction false} RunDecaysPositively(s: State, xs: seq<Step>)
    requires forall j :: 0 <= j < |xs| ==> |xs[j].direction| == |s.stepSizes|
    requires 0.0 <= s.c && 0.0 < s.a0 && 0.0 < s.pivot && 0 <= s.counter && 0.0 < s.alpha
    ensures Run(s, xs).Success?
    ensures Run(s, xs).value.state.counter == s.counter + |xs|
    ensures 0.0 < Run(s, xs).value.state.alpha <= s.alpha
    decreases |xs|
  {
    if |xs| > 0 {
      FactorInUnitInterval(s.c, s.a0, s.pivot, s.counter);
      var first := Rescale(s, xs[0]).value.state;
      var f := Factor(s.c, s.a0, s.pivot, s.counter);
      assert first.alpha == s.alpha * f;
      ShrinkPositive(s.alpha, f);
      RunDecaysPositively(first, xs[1..]);
    }
  }

  /** From init with a positive alpha, a non-negative `stc_c` and a positive
      `stc_N`, any run succeeds, counts every call, and ends with alpha in
      (0, a0]. */
  lemma InitThenRun(n: nat, alpha: real, params: Params, xs: seq<Step>)
    requires forall j :: 0 <= j < |xs| ==> |xs[j].direction| == n
    requires 0.0 < alpha
    requires 0.0 <= Resolved(params, KeyC, DefaultC) && 0.0 < Resolved(params, KeyN, DefaultN)
    ensures var r := Run(Init(n, alpha, params).state, xs);
      && r.Success?
      && r.value.state.counter == |xs|
      && 0.0 < r.value.state.alpha <= alpha
  {
    RunDecaysPositively(Init(n, alpha, params).state, xs);
  }

  /** The first call after init leaves alpha at `a0`. */
  lemma FirstCallKeepsA0(n: nat, alpha: real, params: Params, x: Step)
    requires |x.direction| == n
    requires alpha * Resolved(params, KeyN, DefaultN) != 0.0
    ensures var r := Rescale(Init(n, alpha, params).state, x);
      r.Success? && r.value.state.alpha == alpha && r.value.update == Scale(alpha, x.direction)
  {
    var s := Init(n, alpha, params).state;
    FactorAtZero(s.c, s.a0, s.pivot);
    var r := Rescale(s, x);
    assert r.value.state.alpha == alpha * 1.0;
    MulFill(alpha, x.direction);
  }

  /** At counter 0 both terms vanish and the factor is exactly one. */
  lemma FactorAtZero(c: real, a0: real, pivot: real)
    requires a0 * pivot != 0.0
    ensures 1.0 + Search(c, a0, pivot, 0) + Converge(pivot, 0) == 1.0
    ensures Factor(c, a0, pivot, 0) == 1.0
  {
    assert Search(c, a0, pivot, 0) == 0.0 by {
      assert c * 0 as real == 0.0;
    }
    assert pivot != 0.0 by {
      assert a0 * 0.0 == 0.0;
    }
    assert Converge(pivot, 0) == 0.0 by {
      SquarePositive(pivot);
      assert pivot * (0 as real * 0 as real) == 0.0;
      assert 0.0 / (pivot * pivot) == 0.0;
    }
  }
}
