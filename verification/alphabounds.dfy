/** `AlphaBounds`: a scalar rate that only ever shrinks, bounded by one over the
    magnitude of the traces' projection onto `gamma * phi_tp - phi_t`. */
module AlphaBoundsStepSize {
  import opened Params
  import opened Vectors
  import opened StepSize

  /** `alpha` is the agent's learning-rate field, reset to 1.0 at init. */
  datatype State = State(stepSizes: seq<real>, alpha: real)

  /** Ignores the agent's alpha and the parameters: alpha restarts at 1.0. */
  function Init(n: nat, params: Params): (r: Initialized<State>)
    ensures r.state.alpha == 1.0
    ensures r.state.stepSizes == Fill(n, 1.0)
    ensures r.params == params
  {
    Initialized(State(Fill(n, 1.0), 1.0), params)
  }

  /** `dot(traces, gamma * phi_tp - phi_t)`. */
  function Projection(gamma: real, x: Step): real
    requires |x.phiT| == |x.phiTp| == |x.traces|
  {
    Dot(x.traces, ScaledDiff(gamma, x.phiTp, x.phiT))
  }

  /** `alpha = min(alpha, 1/|d|)` for the projection d. The source computes this
      on a numpy float, so a zero d gives `1/0 = inf` and the min keeps alpha. */
  function Rescale(s: State, gamma: real, x: Step): (r: Rescaled<State>)
    requires |x.phiT| == |x.phiTp| == |x.traces|
    requires |x.direction| == |s.stepSizes|
    ensures r.state.alpha <= s.alpha
    ensures Projection(gamma, x) == 0.0 ==> r.state.alpha == s.alpha
    ensures Projection(gamma, x) != 0.0 ==> r.state.alpha * Abs(Projection(gamma, x)) <= 1.0
    ensures r.state.alpha == s.alpha || r.state.alpha * Abs(Projection(gamma, x)) == 1.0
    ensures r.state.stepSizes == Fill(|s.stepSizes|, r.state.alpha)
    ensures r.update == Mul(r.state.stepSizes, x.direction)
  {
    var d := Projection(gamma, x);
    var alpha := if d == 0.0 then s.alpha else (BoundTimesAbs(s.alpha, d); Min(s.alpha, 1.0 / Abs(d)));
    var steps := Fill(|s.stepSizes|, alpha);
    Rescaled(State(steps, alpha), Mul(steps, x.direction))
  }

  lemma BoundTimesAbs(alpha: real, d: real)
    requires d != 0.0
    ensures Min(alpha, 1.0 / Abs(d)) * Abs(d) <= 1.0
    ensures Min(alpha, 1.0 / Abs(d)) == alpha || Min(alpha, 1.0 / Abs(d)) * Abs(d) == 1.0
  {
    var m := Abs(d);
    assert (1.0 / m) * m == 1.0;
    if alpha < 1.0 / m {
      MulLeMono(alpha, 1.0 / m, m);
    }
  }

  /** A positive alpha stays positive: the bound `1/|d|` is positive too. */
  lemma StaysPositive(s: State, gamma: real, x: Step)
    requires |x.phiT| == |x.phiTp| == |x.traces|
    requires |x.direction| == |s.stepSizes|
    requires 0.0 < s.alpha
    ensures 0.0 < Rescale(s, gamma, x).state.alpha
  {
    var d := Projection(gamma, x);
    if d != 0.0 {
      assert 0.0 < 1.0 / Abs(d);
    }
  }

  predicate Shaped(n: nat, xs: seq<Step>)
  {
    forall j :: 0 <= j < |xs| ==>
      |xs[j].direction| == n && |xs[j].phiT| == |xs[j].phiTp| == |xs[j].traces|
  }

  function Run(s: State, gamma: real, xs: seq<Step>): (r: Trace<State>)
    requires Shaped(|s.stepSizes|, xs)
    ensures |r.updates| == |xs| && |r.state.stepSizes| == |s.stepSizes|
    decreases |xs|
  {
    if |xs| == 0 then Trace(s, [])
    else
      var first := Rescale(s, gamma, xs[0]);
      var rest := Run(first.state, gamma, xs[1..]);
      Trace(rest.state, [first.update] + rest.updates)
  }

  /** Over a whole run alpha never grows and, from a positive start, never
      reaches zero; from init it therefore stays in (0, 1]. */
  lemma {:induction false} RunShrinksPositively(s: State, gamma: real, xs: seq<Step>)
    requires Shaped(|s.stepSizes|, xs)
    requires 0.0 < s.alpha
    ensures 0.0 < Run(s, gamma, xs).state.alpha <= s.alpha
    decreases |xs|
  {
    if |xs| > 0 {
      StaysPositive(s, gamma, xs[0]);
      RunShrinksPositively(Rescale(s, gamma, xs[0]).state, gamma, xs[1..]);
    }
  }

  lemma InitThenRun(n: nat, params: Params, gamma: real, xs: seq<Step>)
    requires Shaped(n, xs)
    ensures 0.0 < Run(Init(n, params).state, gamma, xs).state.alpha <= 1.0
  {
    RunShrinksPositively(Init(n, params).state, gamma, xs);
  }
}
