/** `McClains`: a scalar rate that decays by McClain's recursion
    `alpha_t = alpha_{t-1} / (1 + alpha_{t-1} - a)` towards the target `a`. */
module McClainStepSize {
  import opened Params
  import opened Vectors
  import opened StepSize

  const Key := "mcclain_a"
  const DefaultA := 0.01

  /** `alpha` is the agent's own learning-rate field, which this strategy
      overwrites at init and decays at every call; `a` is `mcclain_param`. */
  datatype State = State(stepSizes: seq<real>, alpha: real, a: real)

  /** Resolves `mcclain_a`; if the agent's alpha is the smaller of the two they
      are swapped, and the smaller one is written back as `mcclain_a`. */
  function Init(n: nat, alpha: real, params: Params): (r: Initialized<State>)
    ensures multiset{r.state.alpha, r.state.a} == multiset{alpha, Resolved(params, Key, DefaultA)}
    ensures r.state.a <= r.state.alpha
    ensures r.params == params[Key := r.state.a]
    ensures r.state.stepSizes == Fill(n, r.state.alpha)
  {
    var first := SetDefault(params, Key, DefaultA);
    var swapped :=
      if alpha < first.value then
        (var again := SetDefault(first.params, Key, DefaultA);
         (again.value, again.params[Key := alpha]))
      else (alpha, first.params);
    var resolved := SetDefault(swapped.1, Key, DefaultA);
    Initialized(State(Fill(n, swapped.0), swapped.0, resolved.value), resolved.params)
  }

  /** One call applies the current alpha, then divides it by `1 + alpha - a`.
      A zero divisor raises `ZeroDivisionError`; by then the source has already
      refilled the step sizes with alpha, but the model drops the state on
      failure, since the caller never sees it. */
  function Rescale(s: State, x: Step): (r: Result<Rescaled<State>>)
    requires |x.direction| == |s.stepSizes|
    ensures r.Failure? <==> 1.0 + s.alpha - s.a == 0.0
    ensures r.Success? ==>
      && r.value.state.stepSizes == Fill(|s.stepSizes|, s.alpha)
      && r.value.state.alpha * (1.0 + s.alpha - s.a) == s.alpha
      && r.value.state.a == s.a
      && r.value.update == Mul(r.value.state.stepSizes, x.direction)
  {
    var divisor := 1.0 + s.alpha - s.a;
    if divisor == 0.0 then Failure(DivisionByZero)
    else
      var steps := Fill(|s.stepSizes|, s.alpha);
      Success(Rescaled(State(steps, s.alpha / divisor, s.a), Mul(steps, x.direction)))
  }

  function Run(s: State, xs: seq<Step>): (r: Result<Trace<State>>)
    requires forall j :: 0 <= j < |xs| ==> |xs[j].direction| == |s.stepSizes|
    ensures r.Success? ==> |r.value.updates| == |xs| && |r.value.state.stepSizes| == |s.stepSizes|
    decreases |xs|
  {
    if |xs| == 0 then Success(Trace(s, []))
    else match Rescale(s, xs[0])
      case Failure(e) => Failure(e)
      case Success(first) =>
        match Run(first.state, xs[1..])
        case Failure(e) => Failure(e)
        case Success(rest) => Success(Trace(rest.state, [first.update] + rest.updates))
  }

  /** The arithmetic of one decay step: `next = alpha / (1 + alpha - a)`. */
  lemma StepBetween(alpha: real, a: real, next: real)
    requires 0.0 <= a <= alpha
    requires next * (1.0 + alpha - a) == alpha
    ensures next <= alpha
    ensures a <= 1.0 ==> a <= next
  {
    var d := 1.0 + alpha - a;
    if next < 0.0 {
      MulLtMono(next, 0.0, d);
      assert false;
    }
    MulLeMono(1.0, d, next);
    assert next <= alpha;
    if a <= 1.0 {
      assert alpha - a * d == (alpha - a) * (1.0 - a);
      MulNonNegative(alpha - a, 1.0 - a);
      if next < a {
        MulLtMono(next, a, d);
        assert false;
      }
    }
  }

  /** While `alpha >= a >= 0` a call cannot fail and alpha does not grow; when
      also `a <= 1`, alpha stays at or above `a`, so the condition holds again
      for the next call. */
  lemma DecaysTowardTarget(s: State, x: Step)
    requires |x.direction| == |s.stepSizes|
    requires 0.0 <= s.a <= s.alpha
    ensures Rescale(s, x).Success?
    ensures Rescale(s, x).value.state.alpha <= s.alpha
    ensures s.a <= 1.0 ==> s.a <= Rescale(s, x).value.state.alpha
  {
    StepBetween(s.alpha, s.a, Rescale(s, x).value.state.alpha);
  }

  /** From `0 <= a <= alpha` with `a <= 1`, any run succeeds and leaves alpha
      between the target `a` and where it started. */
  lemma {:induction false} RunStaysBetween(s: State, xs: seq<Step>)
    requires forall j :: 0 <= j < |xs| ==> |xs[j].direction| == |s.stepSizes|
    requires 0.0 <= s.a <= s.alpha && s.a <= 1.0
    ensures Run(s, xs).Success?
    ensures Run(s, xs).value.state.a == s.a
    ensures s.a <= Run(s, xs).value.state.alpha <= s.alpha
    decreases |xs|
  {
    if |xs| > 0 {
      DecaysTowardTarget(s, xs[0]);
      RunStaysBetween(Rescale(s, xs[0]).value.state, xs[1..]);
    }
  }

  /** Init always establishes `a <= alpha`, so with a target in [0, 1] every
      later run keeps decaying. */
  lemma InitThenRun(n: nat, alpha: real, params: Params, xs: seq<Step>)
    requires forall j :: 0 <= j < |xs| ==> |xs[j].direction| == n
    requires 0.0 <= alpha <= 1.0 && 0.0 <= Resolved(params, Key, DefaultA) <= 1.0
    ensures var s := Init(n, alpha, params).state;
      && Run(s, xs).Success?
      && s.a <= Run(s, xs).value.state.alpha <= s.alpha
  {
    var s := Init(n, alpha, params).state;
    assert s.a == alpha || s.a == Resolved(params, Key, DefaultA) by {
      assert s.a in multiset{alpha, Resolved(params, Key, DefaultA)};
    }
    RunStaysBetween(s, xs);
  }
}
