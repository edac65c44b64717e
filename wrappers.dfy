/** Optional values: Python's `None` beside a present value. */
module Wrappers {

  datatype Option<+T> = None | Some(value: T)

  /** The value under `key`, or `None` when the map has no such key. */
  function Lookup<K, V>(m: map<K, V>, key: K): (r: Option<V>)
    ensures r.Some? <==> key in m
    ensures r.Some? ==> r.value == m[key]
  {
    if key in m then Some(m[key]) else None
  }
}
