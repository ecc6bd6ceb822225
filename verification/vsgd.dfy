/** `vSGD`: per-component step sizes `g^2 / (h * v)`, capped at one, from running
    averages of the direction `g`, its square `v` and a curvature estimate `h`,
    each averaged with weight `1/t`; after a slow start, `t` adapts itself. */
module VsgdStepSize {
  import opened Params
  import opened Vectors
  import opened StepSize

  const KeyInitMeta := "vsgd_initmeta"
  const DefaultInitMeta := 100.0
  const KeySlowStart := "vsgd_slowstart"
  const DefaultSlowStart := 50.0

  /** The lower clip bound `1.e-15` of the memory adaptation. */
  const ClipFloor := 0.000000000000001

  /** `t` is the per-component memory size; `slowStart` counts down the calls
      before `t` starts to adapt. */
  datatype State = State(stepSizes: seq<real>, g: seq<real>, v: seq<real>, h: seq<real>, t: seq<real>, slowStart: real)

  predicate Shaped(s: State)
  {
    |s.g| == |s.v| == |s.h| == |s.t| == |s.stepSizes|
  }

  /** The state every call keeps, given a memory size of at least one: `t` is
      at least one, and the averages of squares are non-negative. */
  predicate Valid(s: State)
  {
    && Shaped(s)
    && (forall i :: 0 <= i < |s.t| ==> 1.0 <= s.t[i])
    && NonNegative(s.v)
    && NonNegative(s.h)
  }

  /** The averages start at zero and `t` at `vsgd_initmeta`, which is resolved
      before `vsgd_slowstart`. */
  function Init(n: nat, alpha: real, params: Params): (r: Initialized<State>)
    ensures Shaped(r.state) && |r.state.stepSizes| == n
    ensures r.state.stepSizes == Fill(n, alpha)
    ensures r.state.g == Fill(n, 0.0) && r.state.v == Fill(n, 0.0) && r.state.h == Fill(n, 0.0)
    ensures r.state.t == Fill(n, Resolved(params, KeyInitMeta, DefaultInitMeta))
    ensures r.state.slowStart == Resolved(params, KeySlowStart, DefaultSlowStart)
    ensures r.params == params[KeyInitMeta := Resolved(params, KeyInitMeta, DefaultInitMeta)]
                              [KeySlowStart := r.state.slowStart]
    ensures Extends(params, r.params, {KeyInitMeta, KeySlowStart})
    ensures 1.0 <= Resolved(params, KeyInitMeta, DefaultInitMeta) ==> Valid(r.state)
  {
    var meta := SetDefault(params, KeyInitMeta, DefaultInitMeta);
    var slow := SetDefault(meta.params, KeySlowStart, DefaultSlowStart);
    var zeros := Fill(n, 0.0);
    Initialized(State(Fill(n, alpha), zeros, zeros, zeros, Fill(n, meta.value), slow.value), slow.params)
  }

  /** `x *= -(1/t - 1); x += (1/t) * sample`, componentwise. */
  function Blend(prior: seq<real>, t: seq<real>, sample: seq<real>): (r: seq<real>)
    requires |prior| == |t| == |sample|
    requires forall i :: 0 <= i < |t| ==> t[i] != 0.0
    ensures |r| == |prior|
  {
    seq(|prior|, i requires 0 <= i < |prior| => prior[i] * -(1.0 / t[i] - 1.0) + (1.0 / t[i]) * sample[i])
  }

  /** The weight `1/t` of a memory size `t >= 1` lies in (0, 1]. */
  lemma WeightInUnitInterval(t: real)
    requires 1.0 <= t
    ensures 0.0 < 1.0 / t <= 1.0
  {
    var w := 1.0 / t;
    assert w * t == 1.0;
    if w > 1.0 {
      MulLtMono(1.0, w, t);
      assert false;
    }
  }

  /** With weights in (0, 1], the blend is a convex mix: between the prior value
      and the sample, so non-negative inputs give a non-negative result. */
  lemma BlendIsConvex(prior: seq<real>, t: seq<real>, sample: seq<real>, i: int)
    requires |prior| == |t| == |sample| && 0 <= i < |prior|
    requires forall k :: 0 <= k < |t| ==> 1.0 <= t[k]
    ensures Min(prior[i], sample[i]) <= Blend(prior, t, sample)[i] <= Max(prior[i], sample[i])
  {
    var w := 1.0 / t[i];
    WeightInUnitInterval(t[i]);
    assert Blend(prior, t, sample)[i] == prior[i] + w * (sample[i] - prior[i]);
    ConvexStep(prior[i], sample[i], w);
  }

  /** The scalar fact behind the blend: `p + w * (q - p)` lies between p and q. */
  lemma ConvexStep(p: real, q: real, w: real)
    requires 0.0 <= w <= 1.0
    ensures Min(p, q) <= p + w * (q - p) <= Max(p, q)
  {
    if p <= q {
      ConvexStepUp(p, q, w);
    } else {
      ConvexStepUp(q, p, 1.0 - w);
      assert p + w * (q - p) == q + (1.0 - w) * (p - q);
    }
  }

  lemma ConvexStepUp(p: real, q: real, w: real)
    requires 0.0 <= w <= 1.0 && p <= q
    ensures p <= p + w * (q - p) <= q
  {
    MulLeMono(0.0, w, q - p);
    MulLeMono(w, 1.0, q - p);
  }

  lemma BlendNonNegative(prior: seq<real>, t: seq<real>, sample: seq<real>)
    requires |prior| == |t| == |sample|
    requires forall k :: 0 <= k < |t| ==> 1.0 <= t[k]
    requires NonNegative(prior) && NonNegative(sample)
    ensures NonNegative(Blend(prior, t, sample))
  {
    forall i | 0 <= i < |prior|
      ensures 0.0 <= Blend(prior, t, sample)[i]
    {
      BlendIsConvex(prior, t, sample, i);
    }
  }

  /** `(gamma * phi_tp - phi_t)**2`, the curvature sample. */
  function HessianSample(gamma: real, x: Step): (r: seq<real>)
    requires |x.phiTp| == |x.phiT|
    ensures |r| == |x.phiT| && NonNegative(r)
  {
    Square(ScaledDiff(gamma, x.phiTp, x.phiT))
  }

  /** The shapes one call needs, and `t` nonzero so that `1/t` is a number. */
  predicate Ready(s: State, x: Step)
  {
    && Shaped(s)
    && |x.direction| == |x.phiT| == |x.phiTp| == |s.stepSizes|
    && (forall i :: 0 <= i < |s.t| ==> s.t[i] != 0.0)
  }

  /** Whether the call divides by a zero entry of the new `v`: this happens only
      when `t` adapts, and nothing in the code guards it. */
  predicate Adapts(s: State) { s.slowStart <= 0.0 }

  predicate Defined(s: State, x: Step)
  {
    && Ready(s, x)
    && (Adapts(s) ==> forall i :: 0 <= i < |s.v| ==> Blend(s.v, s.t, Square(x.direction))[i] != 0.0)
  }

  /** One step size: `g^2 / denom`, capped at one. The cap is reached exactly
      when the divisor is positive and at most `g^2`. */
  function Ratio(g: real, denom: real): (r: real)
    requires denom != 0.0
    ensures r <= 1.0
    ensures r < 1.0 ==> r * denom == g * g
    ensures r == 1.0 <==> 0.0 < denom && denom <= g * g
    ensures 0.0 < denom ==> 0.0 <= r
  {
    QuotientOfSquare(g, denom);
    Min(g * g / denom, 1.0)
  }

  lemma QuotientOfSquare(g: real, denom: real)
    requires denom != 0.0
    ensures (g * g / denom) * denom == g * g
    ensures 0.0 < denom ==> 0.0 <= g * g / denom
    ensures 1.0 <= g * g / denom <==> 0.0 < denom && denom <= g * g
  {
    var q := g * g / denom;
    assert q * denom == g * g;
    SquareNonNegative(g);
    if 0.0 < denom {
      if q < 0.0 {
        MulLtMono(q, 0.0, denom);
        assert false;
      }
      if 1.0 <= q {
        MulLeMono(1.0, q, denom);
      } else {
        MulLtMono(q, 1.0, denom);
      }
    } else if 1.0 <= q {
      MulLtMono(denom, 0.0, q);
      assert false;
    }
  }

  /** The memory factor `1 - g^2 / v` of one component, before clipping: at
      most one for a positive `v`, at least one for a negative `v`, and it
      scales a positive `v` to `v - g^2`. */
  lemma MemoryFactor(g: real, v: real)
    requires v != 0.0
    ensures var f := -(g * g / v - 1.0);
      && (0.0 < v ==> f <= 1.0 && f * v == v - g * g)
      && (v < 0.0 ==> 1.0 <= f)
      && (g == 0.0 ==> f == 1.0)
  {
    var q := g * g / v;
    QuotientOfSquare(g, v);
    SquareNonNegative(g);
    if v < 0.0 && 0.0 < q {
      MulLtMono(v, 0.0, q);
      assert false;
    }
  }

  /** `t *= clip(-(g^2 / v - 1), 1e-15, 1); t += 1` for one component. The
      memory keeps the share `1 - g^2 / v` of itself, but never less than
      `1e-15` and never more than all of it, and then grows by one: a zero
      direction or a negative `v` keeps all of it. */
  function AdaptOne(t: real, g: real, v: real): (r: real)
    requires v != 0.0
    ensures 0.0 <= t ==> 1.0 <= r <= t + 1.0
    ensures 0.0 < t ==> 1.0 < r
    ensures g == 0.0 || v < 0.0 ==> r == t + 1.0
    ensures 0.0 < v && ClipFloor * v <= v - g * g ==> (r - 1.0) * v == t * (v - g * g)
    ensures 0.0 < v && v - g * g < ClipFloor * v ==> r == t * ClipFloor + 1.0
  {
    KeptShare(t, g, v);
    t * Clip(-(g * g / v - 1.0), ClipFloor, 1.0) + 1.0
  }

  lemma KeptShare(t: real, g: real, v: real)
    requires v != 0.0
    ensures var c := Clip(-(g * g / v - 1.0), ClipFloor, 1.0);
      && (0.0 <= t ==> 0.0 <= t * c <= t)
      && (0.0 < t ==> 0.0 < t * c)
      && (g == 0.0 || v < 0.0 ==> c == 1.0)
      && (0.0 < v && ClipFloor * v <= v - g * g ==> (t * c) * v == t * (v - g * g))
      && (0.0 < v && v - g * g < ClipFloor * v ==> c == ClipFloor)
  {
    var f := -(g * g / v - 1.0);
    var c := Clip(f, ClipFloor, 1.0);
    MemoryFactor(g, v);
    if 0.0 <= t {
      MulLeMono(0.0, c, t);
      MulLeMono(c, 1.0, t);
    }
    if 0.0 < t {
      MulLtMono(0.0, c, t);
    }
    if 0.0 < v {
      if ClipFloor * v <= v - g * g {
        if f < ClipFloor {
          MulLtMono(f, ClipFloor, v);
          assert false;
        }
        assert (t * c) * v == t * (c * v);
      } else if ClipFloor <= f {
        MulLeMono(ClipFloor, f, v);
        assert false;
      }
    }
  }

  /** `t *= clip(-(g^2 / v - 1), 1e-15, 1); t += 1`, componentwise. */
  function Adapt(t: seq<real>, g: seq<real>, v: seq<real>): (r: seq<real>)
    requires |t| == |g| == |v| && forall i :: 0 <= i < |v| ==> v[i] != 0.0
    ensures |r| == |t|
    ensures forall i :: 0 <= i < |t| ==> r[i] == AdaptOne(t[i], g[i], v[i])
  {
    seq(|t|, i requires 0 <= i < |t| => AdaptOne(t[i], g[i], v[i]))
  }

  /** `(g**2 / denom).clip(max=1.0)` for the safe divisor `denom`. */
  function Steps(g: seq<real>, denom: seq<real>): (r: seq<real>)
    requires |g| == |denom| && forall i :: 0 <= i < |denom| ==> denom[i] != 0.0
    ensures |r| == |g|
    ensures Capped(r, g, denom)
  {
    seq(|denom|, i requires 0 <= i < |denom| => Ratio(g[i], denom[i]))
  }

  /** Every step size is at most one, below one it is exactly `g^2 / denom`,
      it is exactly one where the divisor is positive and at most `g^2`, and it
      is non-negative wherever the divisor is positive. */
  predicate Capped(steps: seq<real>, g: seq<real>, denom: seq<real>)
    requires |steps| == |g| == |denom|
  {
    forall i :: 0 <= i < |steps| ==>
      && steps[i] <= 1.0
      && (steps[i] < 1.0 ==> steps[i] * denom[i] == g[i] * g[i])
      && (steps[i] == 1.0 <==> 0.0 < denom[i] && denom[i] <= g[i] * g[i])
      && (0.0 < denom[i] ==> 0.0 <= steps[i])
  }

  /** One call: blend the three averages with weight `1/t`, set every step
      size from them, adapt `t` once the slow start has run out, and count the
      slow start down. */
  function Rescale(s: State, gamma: real, x: Step): (r: Rescaled<State>)
    requires Defined(s, x)
    ensures Shaped(r.state) && |r.state.stepSizes| == |s.stepSizes|
    ensures r.state.g == Blend(s.g, s.t, x.direction)
    ensures r.state.v == Blend(s.v, s.t, Square(x.direction))
    ensures r.state.h == Blend(s.h, s.t, HessianSample(gamma, x))
    ensures Capped(r.state.stepSizes, r.state.g, NonZero(Mul(r.state.h, r.state.v)))
    ensures !Adapts(s) ==> r.state.t == s.t
    ensures Adapts(s) ==> r.state.t == Adapt(s.t, r.state.g, r.state.v)
    ensures r.state.slowStart == s.slowStart - 1.0
    ensures r.update == Mul(r.state.stepSizes, x.direction)
  {
    var g := Blend(s.g, s.t, x.direction);
    var v := Blend(s.v, s.t, Square(x.direction));
    var h := Blend(s.h, s.t, HessianSample(gamma, x));
    var steps := Steps(g, NonZero(Mul(h, v)));
    var t := if Adapts(s) then Adapt(s.t, g, v) else s.t;
    Rescaled(State(steps, g, v, h, t, s.slowStart - 1.0), Mul(steps, x.direction))
  }

  /** A call from a valid state keeps it valid and yields step sizes in [0, 1]. */
  lemma RescaleKeepsValid(s: State, gamma: real, x: Step)
    requires Valid(s) && Defined(s, x)
    ensures Valid(Rescale(s, gamma, x).state)
    ensures forall i :: 0 <= i < |s.stepSizes| ==> 0.0 <= Rescale(s, gamma, x).state.stepSizes[i] <= 1.0
  {
    var r := Rescale(s, gamma, x).state;
    BlendNonNegative(s.v, s.t, Square(x.direction));
    BlendNonNegative(s.h, s.t, HessianSample(gamma, x));
    var denom := NonZero(Mul(r.h, r.v));
    forall i | 0 <= i < |s.stepSizes|
      ensures 0.0 < denom[i]
    {
      MulNonNegative(r.h[i], r.v[i]);
    }
  }

  /** The calls of a run, each defined in the state the previous ones leave. */
  predicate DefinedRun(s: State, gamma: real, xs: seq<Step>)
    decreases |xs|
  {
    |xs| == 0 || (Defined(s, xs[0]) && DefinedRun(Rescale(s, gamma, xs[0]).state, gamma, xs[1..]))
  }

  function Run(s: State, gamma: real, xs: seq<Step>): (r: Trace<State>)
    requires DefinedRun(s, gamma, xs)
    ensures |r.updates| == |xs|
    decreases |xs|
  {
    if |xs| == 0 then Trace(s, [])
    else
      var first := Rescale(s, gamma, xs[0]);
      var rest := Run(first.state, gamma, xs[1..]);
      Trace(rest.state, [first.update] + rest.updates)
  }

  /** Over a whole run from a valid state, the state stays valid, the slow start
      counts down once per call and `t` never grows by more than one per call. */
  lemma {:induction false} RunKeepsValid(s: State, gamma: real, xs: seq<Step>)
    requires Valid(s) && DefinedRun(s, gamma, xs)
    ensures Valid(Run(s, gamma, xs).state)
    ensures |Run(s, gamma, xs).state.t| == |s.t|
    ensures Run(s, gamma, xs).state.slowStart == s.slowStart - |xs| as real
    ensures forall i :: 0 <= i < |s.t| ==> Run(s, gamma, xs).state.t[i] <= s.t[i] + |xs| as real
    decreases |xs|
  {
    if |xs| > 0 {
      var first := Rescale(s, gamma, xs[0]).state;
      RescaleKeepsValid(s, gamma, xs[0]);
      assert forall i :: 0 <= i < |s.t| ==> first.t[i] <= s.t[i] + 1.0;
      RunKeepsValid(first, gamma, xs[1..]);
    }
  }

  /** Before the slow start runs out, `t` does not move at all. */
  lemma {:induction false} SlowStartKeepsMemory(s: State, gamma: real, xs: seq<Step>)
    requires DefinedRun(s, gamma, xs)
    requires |xs| as real <= s.slowStart
    ensures Run(s, gamma, xs).state.t == s.t
    decreases |xs|
  {
    if |xs| > 0 {
      SlowStartKeepsMemory(Rescale(s, gamma, xs[0]).state, gamma, xs[1..]);
    }
  }
}
