/** `AdaptiveStepSize`, the "Fixed StepSize" strategy: the step sizes are set to
    the agent's `alpha` once, at init, and every call multiplies by them. */
module FixedStepSize {
  import opened Params
  import opened Vectors
  import opened StepSize

  datatype State = State(stepSizes: seq<real>)

  function Init(n: nat, alpha: real, params: Params): (r: Initialized<State>)
    ensures r.state.stepSizes == Fill(n, alpha)
    ensures r.params == params
  {
    Initialized(State(Fill(n, alpha)), params)
  }

  /** Leaves the state alone and returns the stored step sizes times the direction. */
  function Rescale(s: State, x: Step): (r: Rescaled<State>)
    requires |x.direction| == |s.stepSizes|
    ensures r.state == s
    ensures r.update == Mul(s.stepSizes, x.direction)
  {
    Rescaled(s, Mul(s.stepSizes, x.direction))
  }

  function Run(s: State, xs: seq<Step>): (r: Trace<State>)
    requires forall j :: 0 <= j < |xs| ==> |xs[j].direction| == |s.stepSizes|
    ensures |r.updates| == |xs|
    decreases |xs|
  {
    if |xs| == 0 then Trace(s, [])
    else
      var first := Rescale(s, xs[0]);
      var rest := Run(first.state, xs[1..]);
      Trace(rest.state, [first.update] + rest.updates)
  }

  /** However many calls follow init, each one returns exactly
      `alpha * descent_direction` and the state never moves. */
  lemma {:induction false} RunScalesByAlpha(n: nat, alpha: real, s: State, xs: seq<Step>)
    requires s.stepSizes == Fill(n, alpha)
    requires forall j :: 0 <= j < |xs| ==> |xs[j].direction| == n
    ensures Run(s, xs).state == s
    ensures forall j :: 0 <= j < |xs| ==> Run(s, xs).updates[j] == Scale(alpha, xs[j].direction)
    decreases |xs|
  {
    if |xs| > 0 {
      RunScalesByAlpha(n, alpha, s, xs[1..]);
      MulFill(alpha, xs[0].direction);
      forall j | 1 <= j < |xs|
        ensures Run(s, xs).updates[j] == Scale(alpha, xs[j].direction)
      {
        assert Run(s, xs).updates[j] == Run(s, xs[1..]).updates[j - 1];
        assert xs[1..][j - 1] == xs[j];
      }
    }
  }

  /** Weights of shape (3,), alpha = 0.1, direction [1, 2, 3]: the update is [0.1, 0.2, 0.3]. */
  lemma ScenarioShape3()
    ensures Rescale(Init(3, 0.1, map[]).state, Step([0.0, 0.0, 0.0], [0.0, 0.0, 0.0], 0.0, 0.0, [1.0, 2.0, 3.0], [0.0, 0.0, 0.0])).update
            == [0.1, 0.2, 0.3]
  {
    var s := Init(3, 0.1, map[]).state;
    var u := Rescale(s, Step([0.0, 0.0, 0.0], [0.0, 0.0, 0.0], 0.0, 0.0, [1.0, 2.0, 3.0], [0.0, 0.0, 0.0])).update;
    assert u[0] == 0.1 && u[1] == 0.2 && u[2] == 0.3;
  }
}
