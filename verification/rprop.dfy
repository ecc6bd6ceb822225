/** `RProp`: per-component step sizes chosen by a sign test against the last
    update and the eligibility traces. */
module RPropStepSize {
  import opened Params
  import opened Vectors
  import opened StepSize

  const KeyLow := "rprop_eta_low"
  const DefaultLow := 0.01
  const KeyHigh := "rprop_eta_high"
  const DefaultHigh := 1.2

  datatype State = State(stepSizes: seq<real>, lastUpdate: seq<real>, etaLow: real, etaHigh: real)

  /** The step sizes start at alpha, `last_update` at zero; `rprop_eta_low` is
      resolved before `rprop_eta_high`. */
  function Init(n: nat, alpha: real, params: Params): (r: Initialized<State>)
    ensures r.state.stepSizes == Fill(n, alpha)
    ensures r.state.lastUpdate == Fill(n, 0.0)
    ensures r.state.etaLow == Resolved(params, KeyLow, DefaultLow)
    ensures r.state.etaHigh == Resolved(params, KeyHigh, DefaultHigh)
    ensures r.params == params[KeyLow := r.state.etaLow][KeyHigh := r.state.etaHigh]
    ensures Extends(params, r.params, {KeyLow, KeyHigh})
  {
    var low := SetDefault(params, KeyLow, DefaultLow);
    var high := SetDefault(low.params, KeyHigh, DefaultHigh);
    Initialized(State(Fill(n, alpha), Fill(n, 0.0), low.value, high.value), high.params)
  }

  /** The sign test of component i: `last_update[i] * delta * traces[i] <= 0`. */
  predicate SignChange(s: State, x: Step, i: int)
    requires 0 <= i < |s.lastUpdate| == |x.traces|
  {
    s.lastUpdate[i] * x.delta * x.traces[i] <= 0.0
  }

  /** Every component that passes the sign test gets `eta_low`, every other one
      `eta_high`; `last_update` itself is never written. */
  function Rescale(s: State, x: Step): (r: Rescaled<State>)
    requires |x.direction| == |s.stepSizes| == |s.lastUpdate| == |x.traces|
    ensures |r.state.stepSizes| == |s.stepSizes|
    ensures forall i :: 0 <= i < |s.stepSizes| ==>
      (SignChange(s, x, i) ==> r.state.stepSizes[i] == s.etaLow) &&
      (!SignChange(s, x, i) ==> r.state.stepSizes[i] == s.etaHigh)
    ensures r.state.lastUpdate == s.lastUpdate
    ensures r.state.etaLow == s.etaLow && r.state.etaHigh == s.etaHigh
    ensures r.update == Mul(r.state.stepSizes, x.direction)
  {
    var steps := seq(|s.stepSizes|, i requires 0 <= i < |s.stepSizes| =>
      if SignChange(s, x, i) then s.etaLow else s.etaHigh);
    Rescaled(s.(stepSizes := steps), Mul(steps, x.direction))
  }

  predicate Shaped(n: nat, xs: seq<Step>)
  {
    forall j :: 0 <= j < |xs| ==> |xs[j].direction| == n && |xs[j].traces| == n
  }

  function Run(s: State, xs: seq<Step>): (r: Trace<State>)
    requires |s.stepSizes| == |s.lastUpdate|
    requires Shaped(|s.stepSizes|, xs)
    ensures |r.updates| == |xs|
    decreases |xs|
  {
    if |xs| == 0 then Trace(s, [])
    else
      var first := Rescale(s, xs[0]);
      var rest := Run(first.state, xs[1..]);
      Trace(rest.state, [first.update] + rest.updates)
  }

  /** `last_update` starts at zero and is never written, so the sign test
      passes everywhere and every call scales by `eta_low`. */
  lemma {:induction false} RunAlwaysLow(s: State, xs: seq<Step>)
    requires |s.stepSizes| == |s.lastUpdate|
    requires s.lastUpdate == Fill(|s.lastUpdate|, 0.0)
    requires Shaped(|s.stepSizes|, xs)
    ensures Run(s, xs).state.lastUpdate == s.lastUpdate
    ensures forall j :: 0 <= j < |xs| ==> Run(s, xs).updates[j] == Scale(s.etaLow, xs[j].direction)
    decreases |xs|
  {
    if |xs| > 0 {
      var first := Rescale(s, xs[0]);
      forall i | 0 <= i < |s.lastUpdate|
        ensures SignChange(s, xs[0], i)
      {
        assert s.lastUpdate[i] == 0.0;
      }
      assert first.state.stepSizes == Fill(|s.stepSizes|, s.etaLow);
      MulFill(s.etaLow, xs[0].direction);
      RunAlwaysLow(first.state, xs[1..]);
      var t := Run(s, xs);
      var rest := Run(first.state, xs[1..]);
      forall j | 1 <= j < |xs|
        ensures t.updates[j] == Scale(s.etaLow, xs[j].direction)
      {
        assert t.updates[j] == rest.updates[j - 1];
        assert xs[1..][j - 1] == xs[j];
      }
    }
  }

  lemma InitThenAlwaysLow(n: nat, alpha: real, params: Params, xs: seq<Step>)
    requires Shaped(n, xs)
    ensures var s := Init(n, alpha, params).state;
      forall j :: 0 <= j < |xs| ==>
        Run(s, xs).updates[j] == Scale(Resolved(params, KeyLow, DefaultLow), xs[j].direction)
  {
    RunAlwaysLow(Init(n, alpha, params).state, xs);
  }
}
