/** Optional values, and the JavaScript reading of a possibly missing string. */
module Wrappers {

  /** A value that may be absent: `undefined` or `null` on the JavaScript side. */
  datatype Option<+T> = None | Some(value: T)

  /** A string is truthy in JavaScript when it is present and not empty. */
  predicate Truthy(s: Option<string>)
  {
    s.Some? && s.value != ""
  }

  /** JavaScript's `s || fallback` on a possibly missing string. */
  function OrElse(s: Option<string>, fallback: string): (r: string)
    ensures Truthy(s) ==> r == s.value
    ensures !Truthy(s) ==> r == fallback
    ensures fallback != "" ==> r != ""
  {
    match s
    case Some(v) => if v != "" then v else fallback
    case None => fallback
  }

  /** JavaScript's `s || null`: an empty string reads as null. */
  function OrNull(s: Option<string>): (r: Option<string>)
    ensures Truthy(s) ==> r == s
    ensures !Truthy(s) ==> r == None
    ensures r == None || Truthy(r)
  {
    if s.Some? && s.value != "" then s else None
  }

  /** `obj?.key`: the value stored under `key`, if any (Stripe metadata, a store item). */
  function Field<V>(m: map<string, V>, key: string): (r: Option<V>)
    ensures r.Some? <==> key in m
    ensures r.Some? ==> r.value == m[key]
  {
    if key in m then Some(m[key]) else None
  }
}
