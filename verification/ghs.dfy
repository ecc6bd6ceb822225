/** `GHS`, the generalized harmonic step size: a scalar rate that decays
    harmonically with a call counter. */
module GhsStepSize {
  import opened Params
  import opened Vectors
  import opened StepSize

  const Key := "ghs_a"
  const DefaultA := 10.0

  /** `counter` is the Python int `ghs_counter`; `a` is `ghs_param`. */
  datatype State = State(stepSizes: seq<real>, a: real, counter: int)

  function Init(n: nat, alpha: real, params: Params): (r: Initialized<State>)
    ensures r.state.counter == 1
    ensures r.state.a == Resolved(params, Key, DefaultA)
    ensures r.params == params[Key := r.state.a]
    ensures Extends(params, r.params, {Key})
    ensures r.state.stepSizes == Fill(n, alpha)
  {
    var a := SetDefault(params, Key, DefaultA);
    Initialized(State(Fill(n, alpha), a.value, 1), a.params)
  }

  /** The harmonic schedule at the k-th call, `alpha * a / (a + k - 1)`. The
      class docstring writes `a_0 * (a / a + t - 1)`; the parenthesisation of the
      code is the one meant. */
  function Harmonic(alpha: real, a: real, k: int): real
    requires a + k as real - 1.0 != 0.0
  {
    alpha * a / (a + k as real - 1.0)
  }

  /** One call: fill the step sizes with the current schedule value, advance the
      counter. A zero `a + counter - 1` raises `ZeroDivisionError` before anything
      changes. */
  function Rescale(s: State, alpha: real, x: Step): (r: Result<Rescaled<State>>)
    requires |x.direction| == |s.stepSizes|
    ensures r.Failure? <==> s.a + s.counter as real - 1.0 == 0.0
    ensures r.Success? ==>
      && r.value.state.stepSizes == Fill(|s.stepSizes|, Harmonic(alpha, s.a, s.counter))
      && r.value.state.a == s.a
      && r.value.state.counter == s.counter + 1
      && r.value.update == Mul(r.value.state.stepSizes, x.direction)
  {
    var denominator := s.a + s.counter as real - 1.0;
    if denominator == 0.0 then Failure(DivisionByZero)
    else
      var s' := s.(stepSizes := Fill(|s.stepSizes|, Harmonic(alpha, s.a, s.counter)), counter := s.counter + 1);
      Success(Rescaled(s', Mul(s'.stepSizes, x.direction)))
  }

  /** Feeds the steps to `Rescale` in order, stopping at the first error. */
  function Run(s: State, alpha: real, xs: seq<Step>): (r: Result<Trace<State>>)
    requires forall j :: 0 <= j < |xs| ==> |xs[j].direction| == |s.stepSizes|
    ensures r.Success? ==> |r.value.updates| == |xs| && |r.value.state.stepSizes| == |s.stepSizes|
    decreases |xs|
  {
    if |xs| == 0 then Success(Trace(s, []))
    else match Rescale(s, alpha, xs[0])
      case Failure(e) => Failure(e)
      case Success(first) =>
        match Run(first.state, alpha, xs[1..])
        case Failure(e) => Failure(e)
        case Success(rest) => Success(Trace(rest.state, [first.update] + rest.updates))
  }

  /** The first call uses exactly `alpha`. */
  lemma FirstFactorIsAlpha(alpha: real, a: real)
    requires a != 0.0
    ensures Harmonic(alpha, a, 1) == alpha
  {
    assert a + 1 as real - 1.0 == a;
    MulDivCancel(alpha, a);
  }

  /** For `a > 0` and `alpha >= 0` the factor never grows from one call to the next. */
  lemma FactorNonIncreasing(alpha: real, a: real, k: int)
    requires a > 0.0 && alpha >= 0.0 && k >= 1
    ensures Harmonic(alpha, a, k + 1) <= Harmonic(alpha, a, k)
    ensures 0.0 <= Harmonic(alpha, a, k + 1)
  {
    var d := a + k as real - 1.0;
    assert d > 0.0;
    var q1 := a / (d + 1.0);
    var q0 := a / d;
    assert q1 * (d + 1.0) == a && q0 * d == a;
    assert q1 <= q0 by {
      assert q1 * d <= q1 * (d + 1.0);
    }
    assert Harmonic(alpha, a, k + 1) == alpha * q1;
    assert Harmonic(alpha, a, k) == alpha * q0;
  }

  /** Starting from any counter k >= 1 with `a > 0`, a run never fails, the j-th
      call returns the schedule value for call `k + j` times its direction, and the
      counter ends at `k + |xs|`. */
  lemma {:induction false} RunFollowsSchedule(s: State, alpha: real, xs: seq<Step>)
    requires s.a > 0.0 && s.counter >= 1
    requires forall j :: 0 <= j < |xs| ==> |xs[j].direction| == |s.stepSizes|
    ensures Run(s, alpha, xs).Success?
    ensures Run(s, alpha, xs).value.state.counter == s.counter + |xs|
    ensures Run(s, alpha, xs).value.state.a == s.a
    ensures forall j :: 0 <= j < |xs| ==>
      Run(s, alpha, xs).value.updates[j] == Scale(Harmonic(alpha, s.a, s.counter + j), xs[j].direction)
    decreases |xs|
  {
    if |xs| > 0 {
      var first := Rescale(s, alpha, xs[0]).value;
      RunFollowsSchedule(first.state, alpha, xs[1..]);
      MulFill(Harmonic(alpha, s.a, s.counter), xs[0].direction);
      var t := Run(s, alpha, xs).value;
      var rest := Run(first.state, alpha, xs[1..]).value;
      assert t.updates == [first.update] + rest.updates;
      forall j | 1 <= j < |xs|
        ensures t.updates[j] == Scale(Harmonic(alpha, s.a, s.counter + j), xs[j].direction)
      {
        assert t.updates[j] == rest.updates[j - 1];
        assert xs[1..][j - 1] == xs[j];
      }
    }
  }

  /** Shape (3,), alpha = 0.1, `ghs_a` = 10, three calls on [1, 1, 1]: the
      factors are 0.1, 0.1 * 10/11 and 0.1 * 10/12. */
  lemma ScenarioThreeCalls(x: Step)
    requires x.direction == [1.0, 1.0, 1.0]
    ensures var r := Run(Init(3, 0.1, map[Key := 10.0]).state, 0.1, [x, x, x]);
      && r.Success?
      && r.value.updates == [[0.1, 0.1, 0.1], Fill(3, 1.0 / 11.0), Fill(3, 1.0 / 12.0)]
  {
    var s := Init(3, 0.1, map[Key := 10.0]).state;
    RunFollowsSchedule(s, 0.1, [x, x, x]);
    var u := Run(s, 0.1, [x, x, x]).value.updates;
    FirstFactorIsAlpha(0.1, 10.0);
    assert Harmonic(0.1, 10.0, 2) == 1.0 / 11.0;
    assert Harmonic(0.1, 10.0, 3) == 1.0 / 12.0;
    assert u[0] == Scale(0.1, x.direction) == [0.1, 0.1, 0.1];
    assert u[1] == Scale(1.0 / 11.0, x.direction) == Fill(3, 1.0 / 11.0);
    assert u[2] == Scale(1.0 / 12.0, x.direction) == Fill(3, 1.0 / 12.0);
  }
}
