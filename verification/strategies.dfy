/** Every modelled strategy behind one interface, the way the agent sees a
    step-size class: `init_stepsize` once, then `rescale_update` at every
    learning step, always returning `step_sizes * descent_direction`. */
module Strategies {
  import opened Params
  import opened Vectors
  import opened StepSize
  import opened Registry
  import FixedStepSize
  import GhsStepSize
  import McClainStepSize
  import StcStepSize
  import RPropStepSize
  import AlphaBoundsStepSize
  import AdagradStepSize
  import AlmeidaStepSize
  import VsgdStepSize

  datatype State =
    | FixedState(fixed: FixedStepSize.State)
    | GhsState(ghs: GhsStepSize.State)
    | McClainState(mcclain: McClainStepSize.State)
    | StcState(stc: StcStepSize.State)
    | RPropState(rprop: RPropStepSize.State)
    | AlphaBoundsState(bounds: AlphaBoundsStepSize.State)
    | AdagradState(adagrad: AdagradStepSize.State)
    | AlmeidaState(almeida: AlmeidaStepSize.State)
    | VsgdState(vsgd: VsgdStepSize.State)

  /** The agent fields a strategy reads: the learning rate `alpha`, the
      discount `gamma`, and the square root AdagradDiagonal takes from numpy. */
  datatype Agent = Agent(alpha: real, gamma: real, sqrt: real -> real)

  function KindOf(s: State): Kind
  {
    match s
    case FixedState(_) => Fixed
    case GhsState(_) => GHS
    case McClainState(_) => McClains
    case StcState(_) => STC
    case RPropState(_) => RProp
    case AlphaBoundsState(_) => AlphaBounds
    case AdagradState(_) => AdagradDiagonal
    case AlmeidaState(_) => Almeida
    case VsgdState(_) => VSGD
  }

  function StepSizes(s: State): seq<real>
  {
    match s
    case FixedState(f) => f.stepSizes
    case GhsState(g) => g.stepSizes
    case McClainState(m) => m.stepSizes
    case StcState(c) => c.stepSizes
    case RPropState(p) => p.stepSizes
    case AlphaBoundsState(b) => b.stepSizes
    case AdagradState(a) => a.stepSizes
    case AlmeidaState(a) => a.stepSizes
    case VsgdState(v) => v.stepSizes
  }

  /** The agent's `alpha` as the strategy leaves it: McClain's, STC and
      AlphaBounds own and rewrite it; every other strategy only reads it. */
  function AgentAlpha(s: State, alpha: real): real
  {
    match s
    case McClainState(m) => m.alpha
    case StcState(c) => c.alpha
    case AlphaBoundsState(b) => b.alpha
    case _ => alpha
  }

  /** The parameters `init_stepsize` resolves with `setdefault`. */
  function InitKeys(k: Kind): set<string>
  {
    match k
    case GHS => {GhsStepSize.Key}
    case McClains => {McClainStepSize.Key}
    case STC => {StcStepSize.KeyC, StcStepSize.KeyN}
    case RProp => {RPropStepSize.KeyLow, RPropStepSize.KeyHigh}
    case Almeida => {AlmeidaStepSize.KeyGamma, AlmeidaStepSize.KeyRate}
    case VSGD => {VsgdStepSize.KeyInitMeta, VsgdStepSize.KeySlowStart}
    case _ => {}
  }

  /** `init_stepsize(weights_shape, params)` for n weights. */
  function Init(k: Kind, n: nat, alpha: real, params: Params): Initialized<State>
  {
    match k
    case Fixed =>
      var i := FixedStepSize.Init(n, alpha, params); Initialized(FixedState(i.state), i.params)
    case GHS =>
      var i := GhsStepSize.Init(n, alpha, params); Initialized(GhsState(i.state), i.params)
    case McClains =>
      var i := McClainStepSize.Init(n, alpha, params); Initialized(McClainState(i.state), i.params)
    case STC =>
      var i := StcStepSize.Init(n, alpha, params); Initialized(StcState(i.state), i.params)
    case RProp =>
      var i := RPropStepSize.Init(n, alpha, params); Initialized(RPropState(i.state), i.params)
    case AlphaBounds =>
      var i := AlphaBoundsStepSize.Init(n, params); Initialized(AlphaBoundsState(i.state), i.params)
    case AdagradDiagonal =>
      var i := AdagradStepSize.Init(n, alpha, params); Initialized(AdagradState(i.state), i.params)
    case Almeida =>
      var i := AlmeidaStepSize.Init(n, alpha, params); Initialized(AlmeidaState(i.state), i.params)
    case VSGD =>
      var i := VsgdStepSize.Init(n, alpha, params); Initialized(VsgdState(i.state), i.params)
  }

  /** Init builds the strategy asked for, and every strategy sets its step
      sizes to the agent's alpha as it stands after init. */
  lemma InitShape(k: Kind, n: nat, alpha: real, params: Params)
    ensures var s := Init(k, n, alpha, params).state;
      && KindOf(s) == k
      && StepSizes(s) == Fill(n, AgentAlpha(s, alpha))
  {
    var s := Init(k, n, alpha, params).state;
    match k {
      case Fixed => assert s == FixedState(FixedStepSize.Init(n, alpha, params).state);
      case GHS => assert s == GhsState(GhsStepSize.Init(n, alpha, params).state);
      case McClains => assert s == McClainState(McClainStepSize.Init(n, alpha, params).state);
      case STC => assert s == StcState(StcStepSize.Init(n, alpha, params).state);
      case RProp => assert s == RPropState(RPropStepSize.Init(n, alpha, params).state);
      case AlphaBounds => assert s == AlphaBoundsState(AlphaBoundsStepSize.Init(n, params).state);
      case AdagradDiagonal => assert s == AdagradState(AdagradStepSize.Init(n, alpha, params).state);
      case Almeida => assert s == AlmeidaState(AlmeidaStepSize.Init(n, alpha, params).state);
      case VSGD => assert s == VsgdState(VsgdStepSize.Init(n, alpha, params).state);
    }
  }

  /** What `init_stepsize` does to the parameter dictionary: it gains exactly
      the resolved keys, and every entry it already had is kept, except for
      McClain's `mcclain_a`, which the swap may rewrite. */
  lemma InitExtends(k: Kind, n: nat, alpha: real, params: Params)
    ensures var r := Init(k, n, alpha, params);
      && r.params.Keys == params.Keys + InitKeys(k)
      && (k != McClains ==> Extends(params, r.params, InitKeys(k)))
      && forall key :: key in params && key != McClainStepSize.Key ==> r.params[key] == params[key]
  {
    match k {
      case Fixed =>
      case GHS =>
      case McClains =>
      case STC =>
      case RProp =>
      case AlphaBounds =>
      case AdagradDiagonal =>
      case Almeida =>
      case VSGD =>
    }
  }

  /** The parameters `randomize_parameters` draws are exactly the ones
      `init_stepsize` resolves, for every strategy. */
  lemma RandomizeCoversInit(k: Kind)
    ensures Keys(Assigned(k)) == InitKeys(k)
  {
    var specs := Assigned(k);
    if |specs| == 2 {
      assert Keys(specs) == {specs[0].key, specs[1].key} by {
        assert specs[0].key in Keys(specs) && specs[1].key in Keys(specs);
      }
    } else if |specs| == 1 {
      assert Keys(specs) == {specs[0].key} by {
        assert specs[0].key in Keys(specs);
      }
    }
  }

  /** What one `rescale_update` needs of the state and the step: arrays of the
      weights' shape, and each strategy's own conditions for its arithmetic. */
  ghost predicate Ready(s: State, agent: Agent, x: Step)
  {
    && |x.direction| == |StepSizes(s)|
    && match s
      case FixedState(_) => true
      case GhsState(_) => true
      case McClainState(_) => true
      case StcState(_) => true
      case RPropState(p) => |p.lastUpdate| == |x.traces| == |p.stepSizes|
      case AlphaBoundsState(_) => |x.phiT| == |x.phiTp| == |x.traces|
      case AdagradState(a) =>
        |a.h| == |a.stepSizes| && NonNegative(a.h) && AdagradStepSize.PositiveOnPositives(agent.sqrt)
      case AlmeidaState(a) => AlmeidaStepSize.Valid(a)
      case VsgdState(v) => VsgdStepSize.Defined(v, x)
  }

  /** `rescale_update`: the strategy keeps its kind and the returned update is
      the new step sizes times the direction, so it has the direction's shape
      and vanishes with it. Only the three strategies that divide Python
      floats can fail. */
  function Rescale(s: State, agent: Agent, x: Step): (r: Result<Rescaled<State>>)
    requires Ready(s, agent, x)
    ensures r.Failure? ==> KindOf(s) in {GHS, McClains, STC}
    ensures r.Success? ==>
      && KindOf(r.value.state) == KindOf(s)
      && |StepSizes(r.value.state)| == |StepSizes(s)|
      && r.value.update == Mul(StepSizes(r.value.state), x.direction)
  {
    match s
    case FixedState(f) =>
      var r := FixedStepSize.Rescale(f, x); Success(Rescaled(FixedState(r.state), r.update))
    case GhsState(g) =>
      (match GhsStepSize.Rescale(g, agent.alpha, x)
       case Failure(e) => Failure(e)
       case Success(r) => Success(Rescaled(GhsState(r.state), r.update)))
    case McClainState(m) =>
      (match McClainStepSize.Rescale(m, x)
       case Failure(e) => Failure(e)
       case Success(r) => Success(Rescaled(McClainState(r.state), r.update)))
    case StcState(c) =>
      (match StcStepSize.Rescale(c, x)
       case Failure(e) => Failure(e)
       case Success(r) => Success(Rescaled(StcState(r.state), r.update)))
    case RPropState(p) =>
      var r := RPropStepSize.Rescale(p, x); Success(Rescaled(RPropState(r.state), r.update))
    case AlphaBoundsState(b) =>
      var r := AlphaBoundsStepSize.Rescale(b, agent.gamma, x); Success(Rescaled(AlphaBoundsState(r.state), r.update))
    case AdagradState(a) =>
      var r := AdagradStepSize.Rescale(a, agent.alpha, x, agent.sqrt); Success(Rescaled(AdagradState(r.state), r.update))
    case AlmeidaState(a) =>
      var r := AlmeidaStepSize.Rescale(a, x); Success(Rescaled(AlmeidaState(r.state), r.update))
    case VsgdState(v) =>
      var r := VsgdStepSize.Rescale(v, agent.gamma, x); Success(Rescaled(VsgdState(r.state), r.update))
  }

  /** Right after init, the strategies with no arithmetic of their own yet
      (Fixed, GHS, STC, AdagradDiagonal, Almeida) scale the first direction by
      the agent's alpha. */
  lemma FirstCallScalesByAlpha(k: Kind, n: nat, agent: Agent, params: Params, x: Step)
    requires k in {Fixed, GHS, STC, AdagradDiagonal, Almeida}
    requires |x.direction| == n
    requires k == GHS ==> Resolved(params, GhsStepSize.Key, GhsStepSize.DefaultA) != 0.0
    requires k == STC ==> agent.alpha * Resolved(params, StcStepSize.KeyN, StcStepSize.DefaultN) != 0.0
    requires k == AdagradDiagonal ==> AdagradStepSize.PositiveOnPositives(agent.sqrt)
    ensures var s := Init(k, n, agent.alpha, params).state;
      Ready(s, agent, x) &&
      Rescale(s, agent, x).Success? &&
      Rescale(s, agent, x).value.update == Scale(agent.alpha, x.direction)
  {
    var s := Init(k, n, agent.alpha, params).state;
    InitShape(k, n, agent.alpha, params);
    MulFill(agent.alpha, x.direction);
    match k {
      case Fixed =>
      case GHS =>
        GhsStepSize.FirstFactorIsAlpha(agent.alpha, s.ghs.a);
      case STC =>
        StcStepSize.FirstCallKeepsA0(n, agent.alpha, params, x);
      case AdagradDiagonal =>
        AdagradStepSize.FirstCallUsesAlpha(n, agent.alpha, params, x, agent.sqrt);
      case Almeida =>
        AlmeidaStepSize.FirstCallUsesAlpha(n, agent.alpha, params, x);
    }
  }
}
