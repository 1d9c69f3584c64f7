/**
 * The few pieces of JavaScript semantics the route handlers lean on:
 * truthiness of an optional string, the `||` default operator, and how a
 * value is turned into a property key or a string argument.
 *
 * An optional field of a parsed JSON object, or of a form, is an
 * `Option<string>`: `None` stands for `undefined`.
 */
module Js {
  import opened Wrappers

  /** A string is truthy exactly when it is non-empty; `undefined` is falsy. */
  predicate Truthy(v: Option<string>)
    ensures Truthy(v) <==> v != None && v != Some("")
  {
    v.Some? && v.value != ""
  }

  /** `v || default`: the left operand when it is truthy, otherwise the right one. */
  function Or(v: Option<string>, default: string): (r: string)
    ensures Truthy(v) ==> r == v.value
    ensures !Truthy(v) ==> r == default
    ensures r == default || Some(r) == v
  {
    if v.Some? && v.value != "" then v.value else default
  }

  /**
   * `String(v)`: what a value becomes when it is used as a property key
   * (`row[v]`) or handed to a function that expects a string
   * (`JSON.parse(v)`). `undefined` becomes the text "undefined".
   */
  function ToJsString(v: Option<string>): (r: string)
    ensures v.Some? ==> r == v.value
    ensures v.None? ==> r == "undefined"
  {
    match v
    case Some(s) => s
    case None => "undefined"
  }

  /** `obj[key]` on an object whose own properties are the map's entries. */
  function Get(obj: map<string, string>, key: string): (r: Option<string>)
    ensures key in obj <==> r.Some?
    ensures key in obj ==> r == Some(obj[key])
  {
    if key in obj then Some(obj[key]) else None
  }

  /** `s.slice(0, n)`: the first `n` characters, or all of `s` when it is shorter. */
  function Slice(s: string, n: nat): (r: string)
    ensures |r| == if |s| < n then |s| else n
    ensures r <= s
  {
    if |s| < n then s else s[..n]
  }
}
