# Step-size strategies of PyRL, in Dafny

This project models the step-size strategies in `pyrl/agents/stepsizes.py`: the mix-in classes a
reinforcement-learning agent inherits to decide how far to move its weights at each learning step.
It also models `genAdaptiveAgent`, which composes one of them with an agent class.

Each strategy is a small state machine:

- `init_stepsize(weights_shape, params)` resolves its hyper-parameters with `params.setdefault`,
  writing the defaults back into the agent's dictionary, and allocates its state.
- `rescale_update(phi_t, phi_tp, delta, reward, descent_direction)` updates that state and returns
  `step_sizes * descent_direction`.
- `randomize_parameters(**args)` draws every hyper-parameter the caller did not fix, stores it in
  the agent's dictionary and returns the values in a fixed order.

The model is functional. Arrays are `seq<real>` over the flattened weight shape. The parameter
dictionary is a `map<string, real>` (module `Params`). Each strategy has its own module: a `State`
datatype, a pure `Init`, a pure `Rescale` returning the new state and the update, and a `Run` that
feeds a sequence of steps through `Rescale`. The agent fields a strategy reads are explicit inputs:

- `alpha`, the learning rate;
- `gamma`, the discount;
- `traces`, the eligibility traces, carried in the `Step` record.

McClain's, STC and AlphaBounds rewrite the agent's `alpha`, so that field lives in their state.

Modules:

- `Vectors`: the numpy element-wise operations used.
- `Params`: `setdefault`.
- `StepSize`: the call records and the `Result` type.
- One module per strategy: `FixedStepSize`, `GhsStepSize`, `McClainStepSize`, `StcStepSize`,
  `RPropStepSize`, `AlphaBoundsStepSize`, `AdagradStepSize`, `AlmeidaStepSize`, `VsgdStepSize`.
- `Registry`: class names and `randomize_parameters`.
- `Strategies`: all strategies behind one interface.
- `Composer`: `genAdaptiveAgent`.

Python's `ZeroDivisionError` on a float division by zero is modelled as `Failure(DivisionByZero)`.
This applies to GHS (line 95), McClain's (line 121) and STC (lines 145-146). AlphaBounds divides a
numpy float, where `1/0` is `inf` and the `min` keeps alpha; the model states exactly that.

## Model

| member | source | states |
|---|---|---|
| Params.SetDefault | pyrl/agents/stepsizes.py:91 | an existing entry wins and leaves the dictionary alone; otherwise the default is inserted; either way no existing entry changes and only the key is added |
| Params.SetDefaultIdempotent | pyrl/agents/stepsizes.py:111-117 | a second `setdefault` on the same key (as McClain's init does) finds the first one's entry, whatever its default |
| FixedStepSize.Init | pyrl/agents/stepsizes.py:54-55 | every step size starts at the agent's alpha and the parameter dictionary is left as it was |
| FixedStepSize.Rescale | pyrl/agents/stepsizes.py:54-58 | the state never changes and the update is the stored step sizes times the direction |
| FixedStepSize.RunScalesByAlpha | pyrl/agents/stepsizes.py:54-58 | after init, every call of any run returns exactly `alpha * direction` |
| FixedStepSize.ScenarioShape3 | pyrl/agents/stepsizes.py:54-58 | shape (3,), alpha 0.1, direction [1, 2, 3] gives [0.1, 0.2, 0.3] |
| GhsStepSize.Init | pyrl/agents/stepsizes.py:88-92 | counter starts at 1, `ghs_a` resolved with default 10.0 and written back, step sizes at alpha |
| GhsStepSize.Rescale | pyrl/agents/stepsizes.py:94-97 | fails exactly when `a + counter - 1` is zero; otherwise fills the step sizes with `alpha*a/(a+counter-1)`, advances the counter by one, keeps `a` |
| GhsStepSize.FirstFactorIsAlpha | pyrl/agents/stepsizes.py:92-95 | at counter 1 the schedule value is alpha itself |
| GhsStepSize.FactorNonIncreasing | pyrl/agents/stepsizes.py:95 | for `a > 0`, `alpha >= 0` the schedule value is non-negative and never grows from one call to the next |
| GhsStepSize.RunFollowsSchedule | pyrl/agents/stepsizes.py:94-97 | with `a > 0` a run never fails, the j-th call scales by the schedule value at counter `k + j`, and the counter ends at `k + n` |
| GhsStepSize.ScenarioThreeCalls | pyrl/agents/stepsizes.py:88-97 | alpha 0.1, `ghs_a` 10, three calls on [1, 1, 1] return 0.1, 1/11 and 1/12 in every component |
| McClainStepSize.Init | pyrl/agents/stepsizes.py:110-117 | the pair {alpha, `mcclain_a`} is kept as a multiset with the larger one becoming alpha and the smaller written back as `mcclain_a`; step sizes at the new alpha |
| McClainStepSize.Rescale | pyrl/agents/stepsizes.py:119-122 | fails exactly when `1 + alpha - a` is zero; otherwise the step sizes take the pre-update alpha and the new alpha times `1 + alpha - a` is the old alpha |
| McClainStepSize.StepBetween | pyrl/agents/stepsizes.py:121 | for `0 <= a <= alpha` one decay step does not increase alpha, and with `a <= 1` it does not go below `a` |
| McClainStepSize.DecaysTowardTarget | pyrl/agents/stepsizes.py:119-122 | while `alpha >= a >= 0` a call cannot fail and alpha does not grow; with `a <= 1` the condition holds again afterwards |
| McClainStepSize.RunStaysBetween | pyrl/agents/stepsizes.py:119-122 | from `0 <= a <= alpha`, `a <= 1`, any run succeeds and ends with alpha between `a` and its start |
| McClainStepSize.InitThenRun | pyrl/agents/stepsizes.py:110-122 | init always leaves `a <= alpha`, so with both in [0, 1] every run decays toward `a` |
| StcStepSize.Init | pyrl/agents/stepsizes.py:137-142 | `a0` is alpha, counter 0, `stc_c` and `stc_N` resolved in that order and written back |
| StcStepSize.ConvergeSimplifies | pyrl/agents/stepsizes.py:146 | the converge term `N*k^2/N^2` equals `k^2/N` and is non-negative for `N > 0` |
| StcStepSize.Rescale | pyrl/agents/stepsizes.py:144-149 | fails when `a0*N` is zero or the second divisor is zero, and only then; otherwise alpha is multiplied by `(1+s)/(1+s+N*k^2/N^2)`, the step sizes take it and the counter advances |
| StcStepSize.Decayed | pyrl/agents/stepsizes.py:145-146 | the two in-place updates of alpha together multiply it by that factor |
| StcStepSize.FactorInUnitInterval | pyrl/agents/stepsizes.py:145-146 | for `c >= 0`, `a0, N > 0` and `k >= 0` the factor lies in (0, 1] |
| StcStepSize.FactorAtZero | pyrl/agents/stepsizes.py:142-146 | at counter 0 both terms vanish and the factor is exactly 1 |
| StcStepSize.RunDecaysPositively | pyrl/agents/stepsizes.py:144-149 | under those conditions a run never fails, alpha stays positive and never grows, and the counter counts every call |
| StcStepSize.InitThenRun | pyrl/agents/stepsizes.py:137-149 | from init with a positive alpha, `stc_c >= 0` and `stc_N > 0`, any run succeeds, counts every call and keeps alpha in (0, a0] |
| StcStepSize.FirstCallKeepsA0 | pyrl/agents/stepsizes.py:137-149 | the first call after init leaves alpha at `a0` and scales the direction by it |
| RPropStepSize.Init | pyrl/agents/stepsizes.py:165-169 | step sizes at alpha, `last_update` zero, `rprop_eta_low` then `rprop_eta_high` resolved and written back |
| RPropStepSize.Rescale | pyrl/agents/stepsizes.py:171-175 | component i gets `eta_low` if `last_update[i]*delta*traces[i] <= 0` and `eta_high` otherwise; `last_update` is never written |
| RPropStepSize.RunAlwaysLow | pyrl/agents/stepsizes.py:167-175 | with a zero `last_update`, every call of any run scales by `eta_low` |
| RPropStepSize.InitThenAlwaysLow | pyrl/agents/stepsizes.py:165-175 | after init every call scales by the resolved `rprop_eta_low` |
| AlphaBoundsStepSize.Init | pyrl/agents/stepsizes.py:229-231 | alpha restarts at 1.0 whatever the agent had, parameters untouched |
| AlphaBoundsStepSize.Rescale | pyrl/agents/stepsizes.py:233-238 | alpha never grows; a zero projection leaves it; otherwise `alpha*abs(d) <= 1`, and either alpha is kept or `alpha*abs(d) == 1` |
| AlphaBoundsStepSize.BoundTimesAbs | pyrl/agents/stepsizes.py:236 | `min(alpha, 1/abs(d)) * abs(d) <= 1` and the min is one of its two arguments |
| AlphaBoundsStepSize.StaysPositive | pyrl/agents/stepsizes.py:236 | a positive alpha stays positive |
| AlphaBoundsStepSize.RunShrinksPositively | pyrl/agents/stepsizes.py:233-238 | over a run alpha never grows and never reaches zero |
| AlphaBoundsStepSize.InitThenRun | pyrl/agents/stepsizes.py:229-238 | from init, alpha stays in (0, 1] forever |
| AdagradStepSize.Init | pyrl/agents/stepsizes.py:276-279 | step sizes at alpha, `h` zero, counter 0.0 |
| AdagradStepSize.Accumulate | pyrl/agents/stepsizes.py:283 | `h[i] + d[i]^2` componentwise, never below `h[i]` |
| AdagradStepSize.Rescale | pyrl/agents/stepsizes.py:281-288 | counter advances by one and `h` accumulates; at counter <= 1 the step sizes are untouched; otherwise components with zero `h` get alpha and the others satisfy `step * sqrt(h) == alpha * sqrt(counter)` |
| AdagradStepSize.Restart | pyrl/agents/stepsizes.py:285-287 | the zero mask: zero entries of `h` keep alpha, the others are scaled by `sqrt(counter)/sqrt(h)` |
| AdagradStepSize.SquaredStep | pyrl/agents/stepsizes.py:287 | from the second call on, with a true square root, `step^2 * h == alpha^2 * counter` wherever `h` is nonzero |
| AdagradStepSize.FirstCallUsesAlpha | pyrl/agents/stepsizes.py:279-288 | the first call after init scales the direction by alpha |
| AdagradStepSize.RunAccumulates | pyrl/agents/stepsizes.py:282-283 | after a run the counter has counted every call and `h[i]` has grown by exactly the sum of the squared i-th components |
| AlmeidaStepSize.Init | pyrl/agents/stepsizes.py:298-303 | step sizes at alpha, no previous direction, `v` at one, `almeida_gamma` then `almeida_stepsize` resolved and written back |
| AlmeidaStepSize.TraceNonNegative | pyrl/agents/stepsizes.py:306-307 | for a discount in [0, 1] the trace `v` stays non-negative |
| AlmeidaStepSize.Rescale | pyrl/agents/stepsizes.py:305-317 | the trace is updated; the first call leaves the step sizes; later calls multiply each step size by `1 + rate*dot/vbar` with zero entries of `v` replaced by 1; `prev_grad` ends as the current direction |
| AlmeidaStepSize.Amplify | pyrl/agents/stepsizes.py:312-314 | each new step size times its divisor is the old one times the divisor plus `rate*dot` |
| AlmeidaStepSize.GainTimesDivisor | pyrl/agents/stepsizes.py:314 | the gain times `vbar` is `vbar + rate*dot` |
| AlmeidaStepSize.GainFollowsAgreement | pyrl/agents/stepsizes.py:314 | with positive divisor, rate and step, the step grows iff the dot product is positive, shrinks iff negative, stays iff zero |
| AlmeidaStepSize.StepFollowsAgreement | pyrl/agents/stepsizes.py:305-315 | the same three equivalences for one call on a state with non-negative `v` |
| AlmeidaStepSize.FirstCallUsesAlpha | pyrl/agents/stepsizes.py:299-310 | the first call after init scales the direction by alpha |
| AlmeidaStepSize.RunKeepsTrace | pyrl/agents/stepsizes.py:305-315 | over a run `v` stays non-negative, the discount is kept and `prev_grad` is the last call's direction |
| AlmeidaStepSize.InitThenRun | pyrl/agents/stepsizes.py:298-315 | init establishes that invariant whenever the resolved discount is in [0, 1] |
| VsgdStepSize.Init | pyrl/agents/stepsizes.py:334-340 | averages at zero, `t` at `vsgd_initmeta`, slow start at `vsgd_slowstart`, both written back; valid when `vsgd_initmeta >= 1` |
| VsgdStepSize.WeightInUnitInterval | pyrl/agents/stepsizes.py:350-357 | the weight `1/t` of a memory size `t >= 1` lies in (0, 1] |
| VsgdStepSize.BlendIsConvex | pyrl/agents/stepsizes.py:350-357 | each running average lands between its prior value and the sample |
| VsgdStepSize.BlendNonNegative | pyrl/agents/stepsizes.py:353-357 | non-negative averages of non-negative samples stay non-negative |
| VsgdStepSize.HessianSample | pyrl/agents/stepsizes.py:349 | the curvature sample `(gamma*phi_tp - phi_t)^2` is non-negative |
| VsgdStepSize.Ratio | pyrl/agents/stepsizes.py:360 | one step size is at most 1, equals `g^2/denom` when below 1, is exactly 1 iff the divisor is positive and at most `g^2`, and is non-negative for a positive divisor |
| VsgdStepSize.AdaptOne | pyrl/agents/stepsizes.py:363-364 | one memory size keeps the share `1 - g^2/v` of itself and grows by one: `(t' - 1)*v == t*(v - g^2)` while that share is at least `1e-15`, `t' == t*1e-15 + 1` below it, `t' == t + 1` for a zero direction or a negative `v`; for `t >= 0` it lies in [1, t + 1], above 1 for `t > 0` |
| VsgdStepSize.Adapt | pyrl/agents/stepsizes.py:363-364 | every component of the adapted memory is `AdaptOne` of that component |
| VsgdStepSize.Steps | pyrl/agents/stepsizes.py:358-360 | every step size is capped at one, reaches the cap exactly where `0 < denom <= g^2`, and is `g^2/denom` below the cap |
| VsgdStepSize.Rescale | pyrl/agents/stepsizes.py:347-367 | the three averages are blended with weight `1/t`, each step size is 1 exactly where `0 < denom <= g^2` and otherwise `g^2/denom`, for the divisor `h*v` with zero entries replaced by 1, `t` is unchanged before the slow start has run out and is afterwards `Adapt` of the old `t` with the new `g` and `v`, and the slow start drops by one |
| VsgdStepSize.RescaleKeepsValid | pyrl/agents/stepsizes.py:347-367 | from a valid state (`t >= 1`, `v, h >= 0`) a call keeps it valid and yields step sizes in [0, 1] |
| VsgdStepSize.RunKeepsValid | pyrl/agents/stepsizes.py:347-367 | over a run the state stays valid, the slow start drops by one per call and `t` grows by at most one per call |
| VsgdStepSize.SlowStartKeepsMemory | pyrl/agents/stepsizes.py:362-365 | while the slow start has not run out, `t` does not move |
| Registry.Name | pyrl/agents/stepsizes.py:52-333 | the class attribute `name` of each modelled strategy; no contract of its own, its distinctness is `Registry.NamesDistinct` |
| Registry.NamesDistinct | pyrl/agents/stepsizes.py:52-333 | no two strategy classes share a `name` |
| Registry.Assign | pyrl/agents/stepsizes.py:100 | the assignments add exactly their keys, keep every other entry, and store the caller's value for every fixed key |
| Registry.AssignPair | pyrl/agents/stepsizes.py:178-179 | of two assignments, the second sees the first one's write |
| Registry.Consistent | pyrl/agents/stepsizes.py:178-180 | every strategy reads only parameters it has already stored and returns only keys it assigns |
| Registry.Randomize | pyrl/agents/stepsizes.py:99-180 | the list has one value per returned key, each equal to what was stored under that key, fixed keys give the caller's value, and other entries are kept |
| Registry.AssignIgnoresDraws | pyrl/agents/stepsizes.py:100 | with every key fixed by the caller the draws make no difference |
| Registry.RandomizeIgnoresDraws | pyrl/agents/stepsizes.py:319-322 | the same for a whole `randomize_parameters` |
| Registry.GhsRange | pyrl/agents/stepsizes.py:99-101 | a drawn `ghs_a` lies in [0, 10000) |
| Registry.McClainRange | pyrl/agents/stepsizes.py:124-126 | a drawn `mcclain_a` lies in [0, alpha) for a positive alpha |
| Registry.RPropRange | pyrl/agents/stepsizes.py:177-180 | drawn values satisfy `0 <= eta_low <= eta_high < 2`, returned low first |
| Registry.StcRange | pyrl/agents/stepsizes.py:151-154 | when the caller fixes neither, `stc_c` is `u1*1e10` in [0, 1e10) and `stc_N` is `u2*1e6` in [0, 1e6), returned in that order |
| Registry.AlmeidaRange | pyrl/agents/stepsizes.py:319-322 | when the caller fixes neither, `almeida_gamma` and `almeida_stepsize` are the two draws themselves, in [0, 1), returned in that order |
| Registry.VsgdRange | pyrl/agents/stepsizes.py:342-345 | the slow start is a whole number in [0, 500) and the initial memory size a whole number in [10, 1010) |
| Strategies.Init | pyrl/agents/stepsizes.py:54-339 | dispatches to the `init_stepsize` of the strategy class asked for; it has no contract of its own, and what it promises is stated by `Strategies.InitShape` and `Strategies.InitExtends` |
| Strategies.InitShape | pyrl/agents/stepsizes.py:54-339 | init builds the strategy asked for and every strategy sets its step sizes to alpha as it stands after init |
| Strategies.InitExtends | pyrl/agents/stepsizes.py:91-340 | init adds exactly the resolved keys and rewrites no existing entry except McClain's `mcclain_a` |
| Strategies.RandomizeCoversInit | pyrl/agents/stepsizes.py:91-345 | the keys `randomize_parameters` draws are exactly the ones `init_stepsize` resolves, for every strategy |
| Strategies.Rescale | pyrl/agents/stepsizes.py:57-367 | only GHS, McClain's and STC can fail; the strategy keeps its kind and shape, and the update is the new step sizes times the direction |
| Strategies.FirstCallScalesByAlpha | pyrl/agents/stepsizes.py:54-317 | right after init, Fixed, GHS, STC, AdagradDiagonal and Almeida scale the first direction by alpha |
| Composer.ComposedName | pyrl/agents/stepsizes.py:24 | the name is `"Adaptive ("`, the strategy's name, `") "` and the agent's name, in that order |
| Composer.CutIsUnique | pyrl/agents/stepsizes.py:24 | two names without `')'`, followed by `") "`, can only be cut in one place |
| Composer.ComposedNameInjective | pyrl/agents/stepsizes.py:22-24 | the composed name determines both the strategy and the agent's name |
| Composer.ComposedRandomize | pyrl/agents/stepsizes.py:28-47 | the list is the agent's list followed by exactly the list the strategy's `randomize_parameters` returns on the dictionary the agent left, so its length is the sum; the dictionary is the one the strategy leaves; the strategy's values are what it stored, or the caller's fixed values |
| Composer.FixedParametersReturned | pyrl/agents/stepsizes.py:45-47 | with every strategy parameter fixed, the list ends in exactly those values in the strategy's order, whatever is drawn |

## Left out

- Autostep (pyrl/agents/stepsizes.py:183-219): it needs `exp`, which has no exact real model.
- AdagradFull (pyrl/agents/stepsizes.py:240-263): it calls `matrix.SMInv` and `scipy.linalg.sqrtm`. `pyrl/misc/matrix.py` is not part of this model.
- InvMaxEigen (pyrl/agents/stepsizes.py:370-422): it needs random normal draws, Euclidean norms, the agent's `weights` and a float-tolerance test.
- `@register_agent` and the RL-Glue registry are not part of this model. Python's multiple inheritance and MRO are not modelled either: the composed class's `__init__` only forwards to the agent class.
- The agent class's own `randomize_parameters` is not part of this model. `Composer.ComposedRandomize` takes it as a function parameter.
- Random draws are parameters. `numpy.random.random()` becomes a value `u`, and `randint(n)` becomes `floor(u * n)`. The range lemmas assume `0 <= u < 1`. One draw is consumed per assignment even when the key is fixed, because Python evaluates the `setdefault` default eagerly.
- GhsStepSize.Rescale, McClainStepSize.Rescale, StcStepSize.Rescale: a zero divisor is a `Failure`, which assumes alpha and the resolved parameters are Python floats. Under numpy float64 values the division would give `inf` or `NaN` instead of raising.
- StcStepSize.Rescale: on failure the model returns no state. When the second divisor (line 146) is zero, the source has already multiplied alpha at line 145 before it raises.
- McClainStepSize.Rescale: on failure the model returns no state. The source has already refilled the step sizes with alpha (line 120) before the division at line 121 raises.
- Floating-point rounding, `inf` and `NaN` are not modelled: the model computes in exact reals. The only `inf` whose effect is modelled is AlphaBounds' `1/0`, where the `min` keeps alpha.
- numpy broadcasting and shape errors become `requires` clauses on array lengths.
- AdagradStepSize.Rescale: numpy's `sqrt` is a function parameter. The contract assumes only that it is positive on positive inputs, which the division needs. `SquaredStep` adds the assumption that it is a true square root.
- VsgdStepSize.Rescale: requires every `t[i]` to be nonzero. numpy's `1/0 = inf` is not modelled.
- VsgdStepSize.Rescale: when `t` adapts, requires every entry of the new `v` to be nonzero. The division at line 363 is unguarded, and numpy would give `inf` or `NaN`.
- GHS allocates `last_update` (line 90) but never reads it, so the GHS state leaves it out.
- GhsStepSize.Rescale: the counter is a Python int and `alpha` is read from the agent at each call. It is a parameter of `Rescale`, not part of the state.
- Strategies.Rescale: states only the shape of the result and which strategies can fail. The per-strategy facts are stated by each module's own `Rescale`.
- Strategies.FirstCallScalesByAlpha: McClain's, AlphaBounds, RProp and vSGD are excluded. Their first call does not scale by the caller's alpha: McClain's may swap it, AlphaBounds resets it, RProp uses `eta_low`, and vSGD computes a ratio.
- The docstrings' formulas are not modelled where the code differs. GHS's docstring writes `a_0 * (a / a + t - 1)`; the model follows line 95, `alpha * a / (a + counter - 1)`.
