/** The parameter dictionary every strategy reads its settings from and writes
    its resolved defaults back into. */
module Params {

  type Params = map<string, real>

  /** What `dict.setdefault` hands back: the value, and the dictionary afterwards. */
  datatype Lookup = Lookup(value: real, params: Params)

  /** The value `setdefault(key, default)` resolves to, without the write. */
  function Resolved(p: Params, key: string, default: real): real
  {
    if key in p then p[key] else default
  }

  /** `q` is `p` with `keys` added and every entry `p` already had left as it
      was. */
  predicate Extends(p: Params, q: Params, keys: set<string>)
  {
    && q.Keys == p.Keys + keys
    && forall key :: key in p ==> key in q && q[key] == p[key]
  }

  /** `p.setdefault(key, default)`: an existing entry wins and the dictionary is
      left alone; otherwise the default is inserted and returned. */
  function SetDefault(p: Params, key: string, default: real): (r: Lookup)
    ensures r.value == Resolved(p, key, default)
    ensures r.params == p[key := r.value]
    ensures key in p ==> r.params == p
    ensures Extends(p, r.params, {key})
  {
    if key in p then Lookup(p[key], p) else Lookup(default, p[key := default])
  }

  /** A second `setdefault` on the same key finds the first one's entry, whatever
      default it is given: the value and the dictionary stay as they were. */
  lemma SetDefaultIdempotent(p: Params, key: string, d1: real, d2: real)
    ensures SetDefault(SetDefault(p, key, d1).params, key, d2) == SetDefault(p, key, d1)
  {
  }
}
