/** `genAdaptiveAgent(stepsize_class, agent_class)`: a new agent class that
    learns like `agent_class` with its step sizes set by `stepsize_class`.
    What the composition itself decides is the class name and the order in
    which the two parents' random parameters are returned. */
module Composer {
  import opened Params
  import opened Registry

  const Prefix := "Adaptive ("
  const Separator := ") "

  /** `"Adaptive (" + stepsize_class.name + ") " + agent_class.name`. */
  function ComposedName(stepsize: string, agent: string): (r: string)
    ensures |r| == |Prefix| + |stepsize| + |Separator| + |agent|
    ensures r[..|Prefix|] == Prefix
    ensures r[|Prefix|..|Prefix| + |stepsize|] == stepsize
    ensures r[|Prefix| + |stepsize|..|Prefix| + |stepsize| + |Separator|] == Separator
    ensures r[|Prefix| + |stepsize| + |Separator|..] == agent
  {
    Prefix + stepsize + Separator + agent
  }

  /** No strategy name contains a closing parenthesis. */
  lemma NoParenInNames(k: Kind)
    ensures ')' !in Name(k)
  {
  }

  /** Two strings followed by `") "` can only be cut in one place when neither
      contains `')'`. */
  lemma {:induction false} CutIsUnique(s1: string, a1: string, s2: string, a2: string)
    requires ')' !in s1 && ')' !in s2
    requires s1 + Separator + a1 == s2 + Separator + a2
    ensures s1 == s2 && a1 == a2
  {
    var w1 := s1 + Separator + a1;
    var w2 := s2 + Separator + a2;
    if |s1| < |s2| {
      SeparatorAt(s1, a1);
      SeparatorAt(s2, a2);
      assert false;
    } else if |s2| < |s1| {
      SeparatorAt(s1, a1);
      SeparatorAt(s2, a2);
      assert false;
    }
    assert s1 == w1[..|s1|] == w2[..|s2|] == s2;
    assert a1 == w1[|s1| + 2..] == w2[|s2| + 2..] == a2;
  }

  /** Where the separator starts in `s + ") " + a`, and what comes before it. */
  lemma SeparatorAt(s: string, a: string)
    ensures (s + Separator + a)[|s|] == ')'
    ensures forall i :: 0 <= i < |s| ==> (s + Separator + a)[i] == s[i]
  {
  }

  /** The composed name determines both parents: the step-size strategy and
      the agent class's name. */
  lemma {:induction false} ComposedNameInjective(k1: Kind, agent1: string, k2: Kind, agent2: string)
    requires ComposedName(Name(k1), agent1) == ComposedName(Name(k2), agent2)
    ensures k1 == k2 && agent1 == agent2
  {
    var n1 := ComposedName(Name(k1), agent1);
    var n2 := ComposedName(Name(k2), agent2);
    assert n1[|Prefix|..] == Name(k1) + Separator + agent1;
    assert n2[|Prefix|..] == Name(k2) + Separator + agent2;
    NoParenInNames(k1);
    NoParenInNames(k2);
    CutIsUnique(Name(k1), agent1, Name(k2), agent2);
    NamesDistinct(k1, k2);
  }

  /** The composed `randomize_parameters(**args)`: the agent class's method runs
      first, on the agent's parameter dictionary, and the strategy's runs
      second on the dictionary the agent's left. Each receives its own copy of
      `args`. The agent class's method is not part of this model, so it is a
      parameter: it takes `args` and the dictionary, and returns its list and
      the dictionary afterwards. */
  function ComposedRandomize(
    agentRandomize: (Params, Params) -> Randomized,
    k: Kind, args: Params, params: Params, alpha: real, draws: seq<real>): (r: Randomized)
    requires |draws| == |Assigned(k)|
    ensures var first := agentRandomize(args, params);
      && |r.values| == |first.values| + |Reported(k)|
      && r.values[..|first.values|] == first.values
      && r.params.Keys == first.params.Keys + Keys(Assigned(k))
      && (forall i :: 0 <= i < |Reported(k)| ==>
            Reported(k)[i] in r.params && r.values[|first.values| + i] == r.params[Reported(k)[i]])
      && (forall i :: 0 <= i < |Reported(k)| && Reported(k)[i] in args ==>
            r.values[|first.values| + i] == args[Reported(k)[i]])
    ensures var first := agentRandomize(args, params);
      var second := Randomize(k, args, first.params, alpha, draws);
      && r.values[|first.values|..] == second.values
      && r.params == second.params
  {
    var first := agentRandomize(args, params);
    var second := Randomize(k, args, first.params, alpha, draws);
    Randomized(first.values + second.values, second.params)
  }

  /** With every strategy parameter fixed by the caller, the composed list
      ends in exactly the fixed values, in the strategy's order, whatever is
      drawn. */
  lemma FixedParametersReturned(
    agentRandomize: (Params, Params) -> Randomized,
    k: Kind, args: Params, params: Params, alpha: real, d1: seq<real>, d2: seq<real>)
    requires |d1| == |d2| == |Assigned(k)|
    requires forall i :: 0 <= i < |Assigned(k)| ==> Assigned(k)[i].key in args
    ensures var r := ComposedRandomize(agentRandomize, k, args, params, alpha, d1);
      var n := |agentRandomize(args, params).values|;
      && r == ComposedRandomize(agentRandomize, k, args, params, alpha, d2)
      && |r.values| == n + |Reported(k)|
      && forall i :: 0 <= i < |Reported(k)| ==> Reported(k)[i] in args && r.values[n + i] == args[Reported(k)[i]]
  {
    var first := agentRandomize(args, params);
    RandomizeIgnoresDraws(k, args, first.params, alpha, d1, d2);
    Consistent(k, first.params.Keys);
  }
}
