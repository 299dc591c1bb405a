/** JavaScript values as the screens see them: a property that may be
    `undefined`/`null`, the truthiness of a string, and plain JSON objects
    whose members are strings. */
module Js {

  /** A property that may be missing: `None` stands for `undefined` or `null`. */
  datatype Option<+T> = None | Some(value: T) {
    function GetOr(default: T): (r: T)
      ensures Some? ==> r == value
      ensures None? ==> r == default
    {
      match this
      case Some(v) => v
      case None => default
    }
  }

  /** A property where `undefined` and `null` must be told apart, as under `!==`. */
  datatype Prop<+T> = Undefined | Null | Defined(value: T)

  /** An `Option` read as a property: a missing value is `undefined`. */
  function AsProp<T>(o: Option<T>): (p: Prop<T>)
    ensures p.Undefined? <==> o.None?
    ensures o.Some? ==> p == Defined(o.value)
  {
    if o.Some? then Defined(o.value) else Undefined
  }

  /** A string value is truthy in JavaScript iff it is present and not empty. */
  predicate Truthy(s: Option<string>) {
    s.Some? && s.value != ""
  }

  /** `s || fallback` where `s` is a possibly missing string. */
  function OrElse(s: Option<string>, fallback: string): (r: string)
    ensures Truthy(s) ==> r == s.value
    ensures !Truthy(s) ==> r == fallback
  {
    if s.Some? && s.value != "" then s.value else fallback
  }

  /** A JSON object with string members, as stored by `JSON.stringify`. */
  type JsonObject = map<string, string>

  /** Property access `o.k`; a missing member reads as `undefined`. */
  function Member(o: JsonObject, k: string): (r: Option<string>)
    ensures r.Some? <==> k in o
    ensures r.Some? ==> r.value == o[k]
  {
    if k in o then Some(o[k]) else None
  }
}
