/** The Python values an evaluation setting stores, and the built-ins it applies to them. */
module Values {
  import opened Wrappers

  /** A Python value as it appears in a configuration or in keyword arguments.
      Dictionaries are keyed by strings, as keyword arguments are. */
  datatype Value =
    | Bool(b: bool)
    | Int(i: int)
    | Float(x: real)
    | Str(s: string)
    | List(items: seq<Value>)
    | Dict(entries: map<string, Value>)

  /** `config[key]`: the configuration answers None for a key it does not hold
      (a key explicitly holding None is modelled as an absent key). */
  function Lookup(config: map<string, Value>, key: string): (r: Option<Value>)
    ensures r.Some? <==> key in config
    ensures r.Some? ==> r.value == config[key]
  {
    if key in config then Some(config[key]) else None
  }

  /** Python's `len`: the number of characters of a string, of elements of a list,
      of keys of a dictionary; None where `len` raises TypeError. */
  function Len(v: Value): (r: Option<nat>)
    ensures r.Some? <==> v.Str? || v.List? || v.Dict?
  {
    match v
    case Str(s) => Some(|s|)
    case List(xs) => Some(|xs|)
    case Dict(m) => Some(|m|)
    case _ => None
  }

  /** `[True] * n` */
  function Trues(n: nat): (r: seq<Value>)
    ensures |r| == n
    ensures forall k :: 0 <= k < n ==> r[k] == Bool(true)
  {
    seq(n, _ => Bool(true))
  }

  /** A list of Python ints. */
  function Ints(xs: seq<int>): (r: seq<Value>)
    ensures |r| == |xs|
    ensures forall k :: 0 <= k < |xs| ==> r[k] == Int(xs[k])
  {
    seq(|xs|, k requires 0 <= k < |xs| => Int(xs[k]))
  }
}
