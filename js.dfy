/** The few JavaScript string semantics the plugin relies on: a settings value
    may be a string, `null` or `undefined`, and the plugin reads it with
    optional chaining, nullish coalescing, truthiness and template literals. */
module Js {

  /** A settings value of string type as the store can hand it out. */
  datatype JsString = Undefined | Null | Str(s: string)

  /** `v ?? d`: falls back only on `null` and `undefined`; an empty string is kept. */
  function Coalesce(v: JsString, d: string): (r: string)
    ensures v.Str? ==> r == v.s
    ensures !v.Str? ==> r == d
  {
    match v
    case Str(s) => s
    case _ => d
  }

  /** JavaScript truthiness of a string value: `""`, `null` and `undefined` are falsy. */
  predicate Truthy(v: JsString)
    ensures Truthy(v) <==> !(v == Undefined || v == Null || v == Str(""))
  {
    v.Str? && v.s != ""
  }

  /** `${v}` inside a template literal. */
  function Interpolate(v: JsString): (r: string)
    ensures v.Str? ==> r == v.s
    ensures v.Undefined? ==> r == "undefined"
    ensures v.Null? ==> r == "null"
  {
    match v
    case Undefined => "undefined"
    case Null => "null"
    case Str(s) => s
  }

  /** `s.startsWith(p)`, comparing character by character from the front. */
  function StartsWith(s: string, p: string): (r: bool)
    ensures r <==> p <= s
  {
    if p == [] then true
    else if s == [] then false
    else s[0] == p[0] && StartsWith(s[1..], p[1..])
  }
}
