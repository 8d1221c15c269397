/** The nullable-reference idiom of the modelled function app, made explicit. */
module Wrappers {

  /** `None` stands for a C# `null`; `Some(v)` for a present value. */
  datatype Option<+T> = None | Some(value: T)

  /**
   A dictionary read that yields `null` for a missing key: both the query's
   `TryGetValue` and the memory cache's read behave this way.
   */
  function Lookup<K, V>(m: map<K, V>, key: K): (v: Option<V>)
    ensures v.Some? <==> key in m
    ensures v.Some? ==> v.value == m[key]
  {
    if key in m then Some(m[key]) else None
  }
}
