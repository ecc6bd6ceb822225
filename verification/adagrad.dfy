/** `AdagradDiagonal`: per-component step sizes `alpha * sqrt(t) / sqrt(h)`
    over the running sum `h` of squared descent directions. The square root is
    a parameter: nothing here depends on how it is computed beyond what each
    contract states. */
module AdagradStepSize {
  import opened Params
  import opened Vectors
  import opened StepSize

  /** `counter` is the float `adagrad_counter`. */
  datatype State = State(stepSizes: seq<real>, h: seq<real>, counter: real)

  /** What a square root must at least do for the division to be defined. */
  ghost predicate PositiveOnPositives(sqrt: real -> real)
  {
    forall x :: 0.0 < x ==> 0.0 < sqrt(x)
  }

  /** A true square root on the non-negative reals. */
  ghost predicate IsSqrt(sqrt: real -> real)
  {
    forall x :: 0.0 <= x ==> 0.0 <= sqrt(x) && sqrt(x) * sqrt(x) == x
  }

  function Init(n: nat, alpha: real, params: Params): (r: Initialized<State>)
    ensures r.state.stepSizes == Fill(n, alpha)
    ensures r.state.h == Fill(n, 0.0)
    ensures r.state.counter == 0.0
    ensures r.params == params
  {
    Initialized(State(Fill(n, alpha), Fill(n, 0.0), 0.0), params)
  }

  /** `h += direction**2`, computed componentwise. */
  function Accumulate(h: seq<real>, d: seq<real>): (r: seq<real>)
    requires |h| == |d|
    ensures |r| == |h|
    ensures forall i :: 0 <= i < |h| ==> r[i] == h[i] + d[i] * d[i] && h[i] <= r[i]
  {
    seq(|h|, i requires 0 <= i < |h| => (SquareNonNegative(d[i]); h[i] + d[i] * d[i]))
  }

  /** One call counts itself and accumulates the squared direction. From the
      second call on, every component restarts at alpha and, where `h` is
      nonzero, is scaled by `sqrt(counter) / sqrt(h)`; components with `h == 0`
      keep alpha. The first call leaves the step sizes as init set them. */
  function Rescale(s: State, alpha: real, x: Step, sqrt: real -> real): (r: Rescaled<State>)
    requires |x.direction| == |s.stepSizes| == |s.h|
    requires NonNegative(s.h)
    requires PositiveOnPositives(sqrt)
    ensures r.state.counter == s.counter + 1.0
    ensures r.state.h == Accumulate(s.h, x.direction)
    ensures NonNegative(r.state.h)
    ensures |r.state.stepSizes| == |s.stepSizes|
    ensures r.state.counter <= 1.0 ==> r.state.stepSizes == s.stepSizes
    ensures r.state.counter > 1.0 ==> forall i :: 0 <= i < |s.h| ==>
      if r.state.h[i] == 0.0 then r.state.stepSizes[i] == alpha
      else r.state.stepSizes[i] * sqrt(r.state.h[i]) == alpha * sqrt(r.state.counter)
    ensures r.update == Mul(r.state.stepSizes, x.direction)
  {
    var counter := s.counter + 1.0;
    var h := Accumulate(s.h, x.direction);
    var steps := if counter > 1.0 then Restart(h, alpha, counter, sqrt) else s.stepSizes;
    Rescaled(State(steps, h, counter), Mul(steps, x.direction))
  }

  /** `step_sizes = alpha`, then `step_sizes[h != 0] *= sqrt(counter) / sqrt(h[h != 0])`. */
  function Restart(h: seq<real>, alpha: real, counter: real, sqrt: real -> real): (r: seq<real>)
    requires NonNegative(h) && PositiveOnPositives(sqrt)
    ensures |r| == |h|
    ensures forall i :: 0 <= i < |h| ==>
      if h[i] == 0.0 then r[i] == alpha else r[i] * sqrt(h[i]) == alpha * sqrt(counter)
  {
    var r := seq(|h|, i requires 0 <= i < |h| =>
      if h[i] != 0.0 then alpha * (sqrt(counter) / sqrt(h[i])) else alpha);
    RootScaling(r, h, alpha, counter, sqrt);
    r
  }

  lemma RootScaling(steps: seq<real>, h: seq<real>, alpha: real, counter: real, sqrt: real -> real)
    requires |steps| == |h| && NonNegative(h) && PositiveOnPositives(sqrt)
    requires forall i :: 0 <= i < |h| && h[i] != 0.0 ==> steps[i] == alpha * (sqrt(counter) / sqrt(h[i]))
    ensures forall i :: 0 <= i < |h| && h[i] != 0.0 ==> steps[i] * sqrt(h[i]) == alpha * sqrt(counter)
  {
    forall i | 0 <= i < |h| && h[i] != 0.0
      ensures steps[i] * sqrt(h[i]) == alpha * sqrt(counter)
    {
      var root := sqrt(h[i]);
      assert 0.0 < root;
      assert (sqrt(counter) / root) * root == sqrt(counter);
    }
  }

  /** With a true square root the scaling is exact in squares:
      `step^2 * h == alpha^2 * counter` wherever `h` is nonzero. */
  lemma SquaredStep(s: State, alpha: real, x: Step, sqrt: real -> real, i: int)
    requires |x.direction| == |s.stepSizes| == |s.h|
    requires NonNegative(s.h)
    requires PositiveOnPositives(sqrt) && IsSqrt(sqrt)
    requires 0 <= i < |s.h|
    requires s.counter >= 1.0
    requires Rescale(s, alpha, x, sqrt).state.h[i] != 0.0
    ensures var r := Rescale(s, alpha, x, sqrt).state;
      r.stepSizes[i] * r.stepSizes[i] * r.h[i] == alpha * alpha * r.counter
  {
    var r := Rescale(s, alpha, x, sqrt).state;
    var p := r.stepSizes[i];
    var sh := sqrt(r.h[i]);
    var sc := sqrt(r.counter);
    assert p * sh == alpha * sc;
    assert sh * sh == r.h[i];
    assert sc * sc == r.counter;
    calc {
      p * p * r.h[i];
      p * p * (sh * sh);
      (p * sh) * (p * sh);
      (alpha * sc) * (alpha * sc);
      alpha * alpha * (sc * sc);
      alpha * alpha * r.counter;
    }
  }

  /** The first call after init scales by alpha itself. */
  lemma FirstCallUsesAlpha(n: nat, alpha: real, params: Params, x: Step, sqrt: real -> real)
    requires |x.direction| == n
    requires PositiveOnPositives(sqrt)
    ensures Rescale(Init(n, alpha, params).state, alpha, x, sqrt).update == Scale(alpha, x.direction)
  {
    MulFill(alpha, x.direction);
  }

  /** The sum over a run of the squares of component i of the directions. */
  function SumSquares(xs: seq<Step>, i: nat): real
    requires forall j :: 0 <= j < |xs| ==> i < |xs[j].direction|
    decreases |xs|
  {
    if |xs| == 0 then 0.0
    else xs[0].direction[i] * xs[0].direction[i] + SumSquares(xs[1..], i)
  }

  predicate Shaped(n: nat, xs: seq<Step>)
  {
    forall j :: 0 <= j < |xs| ==> |xs[j].direction| == n
  }

  function Run(s: State, alpha: real, xs: seq<Step>, sqrt: real -> real): (r: Trace<State>)
    requires |s.stepSizes| == |s.h| && NonNegative(s.h)
    requires Shaped(|s.h|, xs)
    requires PositiveOnPositives(sqrt)
    ensures |r.updates| == |xs| && |r.state.h| == |s.h|
    decreases |xs|
  {
    if |xs| == 0 then Trace(s, [])
    else
      var first := Rescale(s, alpha, xs[0], sqrt);
      var rest := Run(first.state, alpha, xs[1..], sqrt);
      Trace(rest.state, [first.update] + rest.updates)
  }

  /** After a run the counter has counted every call and each `h[i]` has grown
      by exactly the sum of the squares of component i of the directions. */
  lemma {:induction false} RunAccumulates(s: State, alpha: real, xs: seq<Step>, sqrt: real -> real)
    requires |s.stepSizes| == |s.h| && NonNegative(s.h)
    requires Shaped(|s.h|, xs)
    requires PositiveOnPositives(sqrt)
    ensures Run(s, alpha, xs, sqrt).state.counter == s.counter + |xs| as real
    ensures forall i :: 0 <= i < |s.h| ==> Run(s, alpha, xs, sqrt).state.h[i] == s.h[i] + SumSquares(xs, i)
    decreases |xs|
  {
    if |xs| > 0 {
      var first := Rescale(s, alpha, xs[0], sqrt).state;
      RunAccumulates(first, alpha, xs[1..], sqrt);
      forall i | 0 <= i < |s.h|
        ensures Run(s, alpha, xs, sqrt).state.h[i] == s.h[i] + SumSquares(xs, i)
      {
        assert first.h[i] == s.h[i] + xs[0].direction[i] * xs[0].direction[i];
      }
    }
  }
}
