/**
 The URL query the main page reads and rewrites. A browser `URLSearchParams`
 object is modelled as a mutable key-to-value map: `get` yields the value or
 nothing, and `set` replaces the value under one key and leaves every other
 key alone.
 */
module UrlQuery {

  datatype Option<T> = None | Some(value: T)

  type Query = map<string, string>

  /** `query.get(key)`: the value under `key`, or nothing (JavaScript's `null`). */
  function Lookup(q: Query, key: string): (v: Option<string>)
    ensures v.Some? <==> key in q
    ensures v.Some? ==> v.value == q[key]
  {
    if key in q then Some(q[key]) else None
  }

  /** JavaScript's `value || fallback` on a string-or-null: both `null` and `''` are falsy. */
  function OrElse(v: Option<string>, fallback: string): (r: string)
    ensures r == fallback || (v.Some? && r == v.value)
    ensures r == fallback <== (v.None? || v.value == "")
    ensures v.Some? && v.value != "" ==> r == v.value
  {
    match v
    case Some(s) => if s != "" then s else fallback
    case None => fallback
  }

  /** A `URLSearchParams` object, updated in place through `Set`. */
  class QueryParams {
    var entries: Query

    /** `new URLSearchParams(search)`; `new URLSearchParams()` is the empty map. */
    constructor (search: Query)
      ensures entries == search
    {
      entries := search;
    }

    /** `query.get(key)`. */
    function Get(key: string): (v: Option<string>)
      reads this
      ensures v == Lookup(entries, key)
    {
      Lookup(entries, key)
    }

    /** `query.set(key, value)`: one value under `key`, every other key untouched. */
    method Set(key: string, value: string)
      modifies this
      ensures entries == old(entries)[key := value]
      ensures forall k :: k in old(entries) && k != key ==> k in entries && entries[k] == old(entries)[k]
    {
      entries := entries[key := value];
    }
  }
}
