/** What each strategy class declares besides its update rule: its `name`, and
    its `randomize_parameters`, which draws every hyper-parameter the caller did
    not fix, stores it in the agent's parameter dictionary and returns the
    values in a fixed order. */
module Registry {
  import opened Params
  import Vectors

  datatype Kind =
    | Fixed | GHS | McClains | STC | RProp | AlphaBounds | AdagradDiagonal | Almeida | VSGD

  /** The class attribute `name`. */
  function Name(k: Kind): string
  {
    match k
    case Fixed => "Fixed StepSize"
    case GHS => "GHS"
    case McClains => "McClains"
    case STC => "STC"
    case RProp => "RProp"
    case AlphaBounds => "AlphaBound"
    case AdagradDiagonal => "AdagradDiagonal"
    case Almeida => "Almeida"
    case VSGD => "vSGD"
  }

  /** No two strategies share a name. */
  lemma NamesDistinct(k1: Kind, k2: Kind)
    ensures Name(k1) == Name(k2) <==> k1 == k2
  {
  }

  /** Where a drawn value comes from, for one uniform draw `u` in [0, 1):
      `u * scale`; `u * alpha` for the agent's current alpha; `u` times a
      parameter already stored; or `randint(bound) + offset`, i.e.
      `floor(u * bound) + offset`. */
  datatype Dist =
    | Uniform(scale: real)
    | TimesAlpha
    | TimesParam(source: string)
    | RandInt(bound: nat, offset: real)

  /** One `self.params[key] = args.setdefault(key, <draw>)` line. */
  datatype Spec = Spec(key: string, dist: Dist)

  /** The assignments in the order the method executes them. */
  function Assigned(k: Kind): seq<Spec>
  {
    match k
    case GHS => [Spec("ghs_a", Uniform(10000.0))]
    case McClains => [Spec("mcclain_a", TimesAlpha)]
    case STC => [Spec("stc_c", Uniform(10000000000.0)), Spec("stc_N", Uniform(1000000.0))]
    case RProp => [Spec("rprop_eta_high", Uniform(2.0)), Spec("rprop_eta_low", TimesParam("rprop_eta_high"))]
    case Almeida => [Spec("almeida_gamma", Uniform(1.0)), Spec("almeida_stepsize", Uniform(1.0))]
    case VSGD => [Spec("vsgd_slowstart", RandInt(500, 0.0)), Spec("vsgd_initmeta", RandInt(1000, 10.0))]
    case _ => []
  }

  /** The keys of the returned list, in the order they are returned. */
  function Reported(k: Kind): seq<string>
  {
    match k
    case RProp => ["rprop_eta_low", "rprop_eta_high"]
    case _ => seq(|Assigned(k)|, i requires 0 <= i < |Assigned(k)| => Assigned(k)[i].key)
  }

  function Keys(specs: seq<Spec>): set<string>
  {
    set i | 0 <= i < |specs| :: specs[i].key
  }

  /** Every parameter a draw reads is already in the dictionary when it is read. */
  predicate Readable(specs: seq<Spec>, keys: set<string>)
    decreases |specs|
  {
    |specs| == 0 ||
    ((specs[0].dist.TimesParam? ==> specs[0].dist.source in keys) &&
     Readable(specs[1..], keys + {specs[0].key}))
  }

  /** The value a draw `u` produces. */
  function Draw(d: Dist, u: real, alpha: real, params: Params): real
    requires d.TimesParam? ==> d.source in params
  {
    match d
    case Uniform(scale) => u * scale
    case TimesAlpha => u * alpha
    case TimesParam(source) => u * params[source]
    case RandInt(bound, offset) => (u * bound as real).Floor as real + offset
  }

  /** `args.setdefault(key, <draw>)`: a fixed value wins over the draw. */
  function Value(spec: Spec, args: Params, u: real, alpha: real, params: Params): real
    requires spec.dist.TimesParam? ==> spec.dist.source in params
  {
    if spec.key in args then args[spec.key] else Draw(spec.dist, u, alpha, params)
  }

  /** Runs the assignments in order. Python evaluates the draw before
      `setdefault` looks at the key, so every assignment consumes its draw,
      fixed or not. */
  function Assign(specs: seq<Spec>, args: Params, params: Params, alpha: real, draws: seq<real>): (r: Params)
    requires |draws| == |specs|
    requires Readable(specs, params.Keys)
    ensures r.Keys == params.Keys + Keys(specs)
    ensures forall key :: key in params && key !in Keys(specs) ==> r[key] == params[key]
    ensures forall key :: key in args && key in Keys(specs) ==> r[key] == args[key]
    decreases |specs|
  {
    if |specs| == 0 then params
    else
      var next := params[specs[0].key := Value(specs[0], args, draws[0], alpha, params)];
      assert next.Keys == params.Keys + {specs[0].key};
      KeysOfTail(specs);
      Assign(specs[1..], args, next, alpha, draws[1..])
  }

  lemma KeysOfTail(specs: seq<Spec>)
    requires |specs| > 0
    ensures Keys(specs) == {specs[0].key} + Keys(specs[1..])
  {
    assert forall i :: 1 <= i < |specs| ==> specs[i].key == specs[1..][i - 1].key;
    assert forall i :: 0 <= i < |specs| - 1 ==> specs[1..][i].key == specs[i + 1].key;
  }

  /** Two assignments, written out: the second one sees the first one's write. */
  lemma AssignPair(a: Spec, b: Spec, args: Params, params: Params, alpha: real, u1: real, u2: real)
    requires Readable([a, b], params.Keys)
    ensures a.dist.TimesParam? ==> a.dist.source in params
    ensures var p1 := params[a.key := Value(a, args, u1, alpha, params)];
      && (b.dist.TimesParam? ==> b.dist.source in p1)
      && Assign([a, b], args, params, alpha, [u1, u2]) == p1[b.key := Value(b, args, u2, alpha, p1)]
  {
    var p1 := params[a.key := Value(a, args, u1, alpha, params)];
    assert p1.Keys == params.Keys + {a.key};
    assert [a, b][1..] == [b];
    assert [u1, u2][1..] == [u2];
    assert Assign([b], args, p1, alpha, [u2]) == p1[b.key := Value(b, args, u2, alpha, p1)] by {
      assert [b][1..] == [];
    }
  }

  /** Every strategy only reads parameters it has already stored, and returns
      only keys it assigns. */
  lemma Consistent(k: Kind, keys: set<string>)
    ensures Readable(Assigned(k), keys)
    ensures forall i :: 0 <= i < |Reported(k)| ==> Reported(k)[i] in Keys(Assigned(k))
  {
    var specs := Assigned(k);
    if |specs| > 0 {
      assert specs[0].key in Keys(specs);
    }
    if |specs| > 1 {
      assert specs[1].key in Keys(specs);
      assert specs[1..][1..] == [];
    }
  }

  /** The returned list and the parameter dictionary afterwards. */
  datatype Randomized = Randomized(values: seq<real>, params: Params)

  /** `randomize_parameters(**args)` with one draw per assignment. */
  function Randomize(k: Kind, args: Params, params: Params, alpha: real, draws: seq<real>): (r: Randomized)
    requires |draws| == |Assigned(k)|
    ensures |r.values| == |Reported(k)|
    ensures r.params.Keys == params.Keys + Keys(Assigned(k))
    ensures forall i :: 0 <= i < |Reported(k)| ==> Reported(k)[i] in r.params && r.values[i] == r.params[Reported(k)[i]]
    ensures forall i :: 0 <= i < |Reported(k)| && Reported(k)[i] in args ==> r.values[i] == args[Reported(k)[i]]
    ensures forall key :: key in params && key !in Keys(Assigned(k)) ==> r.params[key] == params[key]
  {
    Consistent(k, params.Keys);
    var after := Assign(Assigned(k), args, params, alpha, draws);
    assert forall i :: 0 <= i < |Reported(k)| ==> Reported(k)[i] in after;
    Randomized(seq(|Reported(k)|, i requires 0 <= i < |Reported(k)| => after[Reported(k)[i]]), after)
  }

  /** When the caller fixes every parameter, the draws make no difference. */
  lemma {:induction false} AssignIgnoresDraws(specs: seq<Spec>, args: Params, params: Params, alpha: real, d1: seq<real>, d2: seq<real>)
    requires |d1| == |d2| == |specs|
    requires Readable(specs, params.Keys)
    requires forall i :: 0 <= i < |specs| ==> specs[i].key in args
    ensures Assign(specs, args, params, alpha, d1) == Assign(specs, args, params, alpha, d2)
    decreases |specs|
  {
    if |specs| > 0 {
      var next := params[specs[0].key := args[specs[0].key]];
      assert next.Keys == params.Keys + {specs[0].key};
      assert forall i :: 0 <= i < |specs[1..]| ==> specs[1..][i].key in args by {
        forall i | 0 <= i < |specs[1..]|
          ensures specs[1..][i].key in args
        {
          assert specs[1..][i] == specs[i + 1];
        }
      }
      AssignIgnoresDraws(specs[1..], args, next, alpha, d1[1..], d2[1..]);
    }
  }

  lemma RandomizeIgnoresDraws(k: Kind, args: Params, params: Params, alpha: real, d1: seq<real>, d2: seq<real>)
    requires |d1| == |d2| == |Assigned(k)|
    requires forall i :: 0 <= i < |Assigned(k)| ==> Assigned(k)[i].key in args
    ensures Randomize(k, args, params, alpha, d1) == Randomize(k, args, params, alpha, d2)
  {
    Consistent(k, params.Keys);
    AssignIgnoresDraws(Assigned(k), args, params, alpha, d1, d2);
  }

  predicate Unit(u: real) { 0.0 <= u < 1.0 }

  /** GHS draws `ghs_a` from [0, 10000). */
  lemma GhsRange(args: Params, params: Params, alpha: real, u: real)
    requires Unit(u) && "ghs_a" !in args
    ensures var v := Randomize(GHS, args, params, alpha, [u]).values;
      |v| == 1 && 0.0 <= v[0] < 10000.0
  {
  }

  /** McClain's draws `mcclain_a` below the agent's current alpha (for a
      positive alpha), so init's swap is then a no-op. */
  lemma McClainRange(args: Params, params: Params, alpha: real, u: real)
    requires Unit(u) && "mcclain_a" !in args && 0.0 < alpha
    ensures var v := Randomize(McClains, args, params, alpha, [u]).values;
      |v| == 1 && 0.0 <= v[0] < alpha
  {
    Vectors.MulLtMono(u, 1.0, alpha);
    Vectors.MulLeMono(0.0, u, alpha);
  }

  /** STC draws `stc_c` from [0, 1e10) and `stc_N` from [0, 1e6), in that order. */
  lemma StcRange(args: Params, params: Params, alpha: real, u1: real, u2: real)
    requires Unit(u1) && Unit(u2)
    requires "stc_c" !in args && "stc_N" !in args
    ensures var v := Randomize(STC, args, params, alpha, [u1, u2]).values;
      && |v| == 2
      && v[0] == u1 * 10000000000.0 && 0.0 <= v[0] < 10000000000.0
      && v[1] == u2 * 1000000.0 && 0.0 <= v[1] < 1000000.0
  {
    var specs := Assigned(STC);
    Consistent(STC, params.Keys);
    assert specs == [specs[0], specs[1]];
    AssignPair(specs[0], specs[1], args, params, alpha, u1, u2);
    var p1 := params["stc_c" := u1 * 10000000000.0];
    assert Assign(specs, args, params, alpha, [u1, u2]) == p1["stc_N" := u2 * 1000000.0];
    Vectors.MulLtMono(u1, 1.0, 10000000000.0);
    Vectors.MulLtMono(u2, 1.0, 1000000.0);
  }

  /** Almeida draws `almeida_gamma` and then `almeida_stepsize`, each from [0, 1). */
  lemma AlmeidaRange(args: Params, params: Params, alpha: real, u1: real, u2: real)
    requires Unit(u1) && Unit(u2)
    requires "almeida_gamma" !in args && "almeida_stepsize" !in args
    ensures var v := Randomize(Almeida, args, params, alpha, [u1, u2]).values;
      |v| == 2 && v[0] == u1 && v[1] == u2
  {
    var specs := Assigned(Almeida);
    Consistent(Almeida, params.Keys);
    assert specs == [specs[0], specs[1]];
    AssignPair(specs[0], specs[1], args, params, alpha, u1, u2);
    var p1 := params["almeida_gamma" := u1 * 1.0];
    assert Assign(specs, args, params, alpha, [u1, u2]) == p1["almeida_stepsize" := u2 * 1.0];
  }

  /** RProp draws `eta_high` from [0, 2) and then `eta_low` below it, and
      returns them low first. */
  lemma RPropRange(args: Params, params: Params, alpha: real, u1: real, u2: real)
    requires Unit(u1) && Unit(u2)
    requires "rprop_eta_high" !in args && "rprop_eta_low" !in args
    ensures var v := Randomize(RProp, args, params, alpha, [u1, u2]).values;
      |v| == 2 && 0.0 <= v[0] <= v[1] < 2.0
  {
    var specs := Assigned(RProp);
    Consistent(RProp, params.Keys);
    assert specs == [specs[0], specs[1]];
    AssignPair(specs[0], specs[1], args, params, alpha, u1, u2);
    var high := u1 * 2.0;
    var p1 := params["rprop_eta_high" := high];
    assert Value(specs[0], args, u1, alpha, params) == high;
    assert p1["rprop_eta_high"] == high;
    assert Value(specs[1], args, u2, alpha, p1) == Draw(TimesParam("rprop_eta_high"), u2, alpha, p1) == u2 * high;
    assert specs[0].key == "rprop_eta_high" && specs[1].key == "rprop_eta_low";
    assert Assign(specs, args, params, alpha, [u1, u2]) == p1["rprop_eta_low" := u2 * high];
    Vectors.MulLeMono(u2, 1.0, high);
    Vectors.MulLeMono(0.0, u2, high);
  }

  /** vSGD draws a whole `vsgd_slowstart` in [0, 500) and a whole
      `vsgd_initmeta` in [10, 1010), so the memory size starts at least 10. */
  lemma VsgdRange(args: Params, params: Params, alpha: real, u1: real, u2: real)
    requires Unit(u1) && Unit(u2)
    requires "vsgd_slowstart" !in args && "vsgd_initmeta" !in args
    ensures var v := Randomize(VSGD, args, params, alpha, [u1, u2]).values;
      && |v| == 2
      && v[0] == v[0].Floor as real && 0.0 <= v[0] < 500.0
      && v[1] == v[1].Floor as real && 10.0 <= v[1] < 1010.0
  {
    var specs := Assigned(VSGD);
    Consistent(VSGD, params.Keys);
    assert specs == [specs[0], specs[1]];
    AssignPair(specs[0], specs[1], args, params, alpha, u1, u2);
    var slow := (u1 * 500.0).Floor;
    var meta := (u2 * 1000.0).Floor;
    var p1 := params["vsgd_slowstart" := slow as real];
    assert Assign(specs, args, params, alpha, [u1, u2]) == p1["vsgd_initmeta" := meta as real + 10.0];
    Vectors.MulLtMono(u1, 1.0, 500.0);
    Vectors.MulLtMono(u2, 1.0, 1000.0);
    Vectors.MulLeMono(0.0, u1, 500.0);
    Vectors.MulLeMono(0.0, u2, 1000.0);
    assert 0 <= slow < 500 && 0 <= meta < 1000;
    assert (meta as real + 10.0).Floor == meta + 10;
  }
}
