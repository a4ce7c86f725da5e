/** The optional-value type used wherever the application has a "not found"
    or "not a number" outcome. */
module Wrappers {

  datatype Option<+T> = None | Some(value: T) {

    /** The value, or `default` when there is none (the `x || default` idiom). */
    function GetOr(default: T): T {
      match this
      case Some(v) => v
      case None => default
    }
  }

  /** Lookup in a map, with absence as `None` (an object property read that may be undefined). */
  function Get<K, V>(m: map<K, V>, k: K): (r: Option<V>)
    ensures r.None? <==> k !in m
    ensures r.Some? ==> r.value == m[k]
  {
    if k in m then Some(m[k]) else None
  }

  /** `table[key] || []`: the list stored under `key`, or the empty list
      when the key is unknown. */
  function LookupOrEmpty<K, V>(table: map<K, seq<V>>, key: K): (r: seq<V>)
    ensures key !in table ==> r == []
    ensures key in table ==> r == table[key]
  {
    Get(table, key).GetOr([])
  }
}
