/** `Almeida`: per-component step sizes multiplied at every call by
    `1 + rate * <previous direction, direction> / v`, where `v` is an
    exponential trace of the squared direction. */
module AlmeidaStepSize {
  import opened Params
  import opened Vectors
  import opened StepSize

  const KeyGamma := "almeida_gamma"
  const DefaultGamma := 0.999
  const KeyRate := "almeida_stepsize"
  const DefaultRate := 0.00001

  /** `prevGrad` is `prev_grad`, `None` until the first call; `gamma` and
      `rate` are `almeida_gamma` and `almeida_stepsize`. */
  datatype State = State(stepSizes: seq<real>, prevGrad: Option<seq<real>>, v: seq<real>, gamma: real, rate: real)

  /** The shape every call keeps: one entry per weight in each array. */
  predicate Valid(s: State)
  {
    && |s.v| == |s.stepSizes|
    && (s.prevGrad.Some? ==> |s.prevGrad.value| == |s.stepSizes|)
  }

  /** The step sizes start at alpha, `v` at one and `prev_grad` empty;
      `almeida_gamma` is resolved before `almeida_stepsize`. */
  function Init(n: nat, alpha: real, params: Params): (r: Initialized<State>)
    ensures Valid(r.state)
    ensures r.state.stepSizes == Fill(n, alpha)
    ensures r.state.prevGrad == None
    ensures r.state.v == Fill(n, 1.0)
    ensures r.state.gamma == Resolved(params, KeyGamma, DefaultGamma)
    ensures r.state.rate == Resolved(params, KeyRate, DefaultRate)
    ensures r.params == params[KeyGamma := r.state.gamma][KeyRate := r.state.rate]
    ensures Extends(params, r.params, {KeyGamma, KeyRate})
  {
    var gamma := SetDefault(params, KeyGamma, DefaultGamma);
    var rate := SetDefault(gamma.params, KeyRate, DefaultRate);
    Initialized(State(Fill(n, alpha), None, Fill(n, 1.0), gamma.value, rate.value), rate.params)
  }

  /** `v = gamma * v + (1 - gamma) * d**2`, componentwise. */
  function Decay(gamma: real, v: seq<real>, d: seq<real>): (r: seq<real>)
    requires |v| == |d|
    ensures |r| == |v|
  {
    seq(|v|, i requires 0 <= i < |v| => gamma * v[i] + (1.0 - gamma) * (d[i] * d[i]))
  }

  /** For a discount in [0, 1] the trace is a convex mix of two non-negative
      values, so a non-negative `v` stays non-negative. */
  lemma TraceNonNegative(gamma: real, v: seq<real>, d: seq<real>)
    requires |v| == |d| && NonNegative(v) && 0.0 <= gamma <= 1.0
    ensures NonNegative(Decay(gamma, v, d))
  {
    forall i | 0 <= i < |v|
      ensures 0.0 <= Decay(gamma, v, d)[i]
    {
      MulNonNegative(gamma, v[i]);
      SquareNonNegative(d[i]);
      MulNonNegative(1.0 - gamma, d[i] * d[i]);
    }
  }

  /** The multiplier `1 + rate * dot / vbar` of one component. */
  function Gain(rate: real, dot: real, vbar: real): real
    requires vbar != 0.0
  {
    1.0 + rate * dot / vbar
  }

  /** One call updates the trace. The first call only records the direction;
      every later one multiplies each step size by its gain, dividing by `v`
      with its zero entries replaced by one, and then records the direction. */
  function Rescale(s: State, x: Step): (r: Rescaled<State>)
    requires Valid(s)
    requires |x.direction| == |s.stepSizes|
    ensures Valid(r.state)
    ensures r.state.prevGrad == Some(x.direction)
    ensures r.state.v == Decay(s.gamma, s.v, x.direction)
    ensures r.state.gamma == s.gamma && r.state.rate == s.rate
    ensures |r.state.stepSizes| == |s.stepSizes|
    ensures s.prevGrad.None? ==> r.state.stepSizes == s.stepSizes
    ensures s.prevGrad.Some? ==> Amplified(s.stepSizes, r.state.stepSizes, s.rate,
      Dot(s.prevGrad.value, x.direction), NonZero(r.state.v))
    ensures r.update == Mul(r.state.stepSizes, x.direction)
  {
    var v := Decay(s.gamma, s.v, x.direction);
    var steps :=
      match s.prevGrad
      case None => s.stepSizes
      case Some(prev) => Amplify(s.stepSizes, s.rate, Dot(prev, x.direction), NonZero(v));
    Rescaled(State(steps, Some(x.direction), v, s.gamma, s.rate), Mul(steps, x.direction))
  }

  /** Each new step size, times its divisor, is the old one times the divisor
      plus `rate * dot`: the step size was multiplied by its gain. */
  predicate Amplified(steps: seq<real>, next: seq<real>, rate: real, dot: real, vbar: seq<real>)
    requires |next| == |steps| == |vbar|
  {
    forall i :: 0 <= i < |steps| ==> next[i] * vbar[i] == steps[i] * (vbar[i] + rate * dot)
  }

  /** `step_sizes *= 1 + rate * dot / vbar`, componentwise. */
  function Amplify(steps: seq<real>, rate: real, dot: real, vbar: seq<real>): (r: seq<real>)
    requires |vbar| == |steps| && forall i :: 0 <= i < |vbar| ==> vbar[i] != 0.0
    ensures |r| == |steps|
    ensures Amplified(steps, r, rate, dot, vbar)
  {
    var r := seq(|steps|, i requires 0 <= i < |steps| => steps[i] * Gain(rate, dot, vbar[i]));
    assert forall i :: 0 <= i < |steps| ==> r[i] * vbar[i] == steps[i] * (vbar[i] + rate * dot) by {
      forall i | 0 <= i < |steps|
        ensures r[i] * vbar[i] == steps[i] * (vbar[i] + rate * dot)
      {
        GainTimesDivisor(rate, dot, vbar[i]);
      }
    }
    r
  }

  lemma GainTimesDivisor(rate: real, dot: real, vbar: real)
    requires vbar != 0.0
    ensures Gain(rate, dot, vbar) * vbar == vbar + rate * dot
  {
    assert (rate * dot / vbar) * vbar == rate * dot;
  }

  /** With a positive divisor, a positive rate and a positive step size, the
      step grows exactly when the two directions agree (positive dot product),
      shrinks exactly when they disagree, and stays when they are orthogonal. */
  lemma GainFollowsAgreement(step: real, rate: real, dot: real, vbar: real, next: real)
    requires 0.0 < vbar && 0.0 < rate && 0.0 < step
    requires next * vbar == step * (vbar + rate * dot)
    ensures next > step <==> dot > 0.0
    ensures next < step <==> dot < 0.0
    ensures next == step <==> dot == 0.0
  {
    var e := next - step;
    var push := step * (rate * dot);
    assert e * vbar == push;
    if dot > 0.0 {
      MulLtMono(0.0, rate, dot);
      MulLtMono(0.0, rate * dot, step);
    } else if dot < 0.0 {
      MulLtMono(dot, 0.0, rate);
      MulLtMono(rate * dot, 0.0, step);
    } else {
      assert push == 0.0;
    }
    if e > 0.0 {
      MulLtMono(0.0, e, vbar);
    } else if e < 0.0 {
      MulLtMono(e, 0.0, vbar);
    }
  }

  /** The same statement about one call: once `v` is non-negative and the
      discount is in [0, 1], the divisor `vbar` is positive, so each step size
      moves in the direction of the agreement of consecutive directions. */
  lemma StepFollowsAgreement(s: State, x: Step, i: int)
    requires Valid(s) && |x.direction| == |s.stepSizes|
    requires NonNegative(s.v) && 0.0 <= s.gamma <= 1.0 && 0.0 < s.rate
    requires s.prevGrad.Some?
    requires 0 <= i < |s.stepSizes| && 0.0 < s.stepSizes[i]
    ensures var next := Rescale(s, x).state.stepSizes[i];
      var dot := Dot(s.prevGrad.value, x.direction);
      && (next > s.stepSizes[i] <==> dot > 0.0)
      && (next < s.stepSizes[i] <==> dot < 0.0)
      && (next == s.stepSizes[i] <==> dot == 0.0)
  {
    var r := Rescale(s, x).state;
    TraceNonNegative(s.gamma, s.v, x.direction);
    var vbar := NonZero(r.v);
    assert 0.0 < vbar[i] by {
      assert 0.0 <= r.v[i];
    }
    var dot := Dot(s.prevGrad.value, x.direction);
    assert Amplified(s.stepSizes, r.stepSizes, s.rate, dot, vbar);
    GainFollowsAgreement(s.stepSizes[i], s.rate, dot, vbar[i], r.stepSizes[i]);
  }

  /** The first call after init scales by alpha itself. */
  lemma FirstCallUsesAlpha(n: nat, alpha: real, params: Params, x: Step)
    requires |x.direction| == n
    ensures Rescale(Init(n, alpha, params).state, x).update == Scale(alpha, x.direction)
  {
    MulFill(alpha, x.direction);
  }

  predicate Shaped(n: nat, xs: seq<Step>)
  {
    forall j :: 0 <= j < |xs| ==> |xs[j].direction| == n
  }

  function Run(s: State, xs: seq<Step>): (r: Trace<State>)
    requires Valid(s) && Shaped(|s.stepSizes|, xs)
    ensures Valid(r.state) && |r.state.stepSizes| == |s.stepSizes|
    ensures |r.updates| == |xs|
    decreases |xs|
  {
    if |xs| == 0 then Trace(s, [])
    else
      var first := Rescale(s, xs[0]);
      var rest := Run(first.state, xs[1..]);
      Trace(rest.state, [first.update] + rest.updates)
  }

  /** Over a whole run from a state with non-negative `v` and a discount in
      [0, 1], `v` stays non-negative and, after at least one call, `prev_grad`
      holds the last call's direction. */
  lemma {:induction false} RunKeepsTrace(s: State, xs: seq<Step>)
    requires Valid(s) && Shaped(|s.stepSizes|, xs)
    requires NonNegative(s.v) && 0.0 <= s.gamma <= 1.0
    ensures NonNegative(Run(s, xs).state.v)
    ensures Run(s, xs).state.gamma == s.gamma
    ensures |xs| > 0 ==> Run(s, xs).state.prevGrad == Some(xs[|xs| - 1].direction)
    decreases |xs|
  {
    if |xs| > 0 {
      var first := Rescale(s, xs[0]).state;
      TraceNonNegative(s.gamma, s.v, xs[0].direction);
      RunKeepsTrace(first, xs[1..]);
      if |xs| > 1 {
        assert xs[1..][|xs[1..]| - 1] == xs[|xs| - 1];
      }
    }
  }

  /** Init establishes the invariant of the run lemma whenever the resolved
      discount lies in [0, 1]. */
  lemma InitThenRun(n: nat, alpha: real, params: Params, xs: seq<Step>)
    requires Shaped(n, xs)
    requires 0.0 <= Resolved(params, KeyGamma, DefaultGamma) <= 1.0
    ensures NonNegative(Run(Init(n, alpha, params).state, xs).state.v)
  {
    RunKeepsTrace(Init(n, alpha, params).state, xs);
  }
}
