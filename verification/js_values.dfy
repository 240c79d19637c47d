/** The few JavaScript values and lookups the modelled components depend on. */
module JsValues {
  import opened Wrappers

  /** A JavaScript value as far as these components can tell values apart.
      `Undefined` is also what reading an absent property gives. */
  datatype JsValue = Undefined | Null | Bool(b: bool) | Num(n: int) | Str(s: string)

  /** JavaScript truthiness: `undefined`, `null`, `false`, `0` and `''` are
      falsy, everything else is truthy. */
  predicate Truthy(v: JsValue) {
    match v
    case Undefined => false
    case Null => false
    case Bool(b) => b
    case Num(n) => n != 0
    case Str(s) => s != ""
  }

  /** Strict equality `===` on the values modelled here. */
  predicate StrictEquals(a: JsValue, b: JsValue) {
    a == b
  }

  /** Lodash's `_.get(object, key, fallback)` for one key: the fallback
      replaces the looked-up value only when that value is `undefined`, which
      is also the case when the object itself is `null` or `undefined`. A
      `null`, `false` or `''` property is returned as it is. */
  function Get(property: Option<JsValue>, fallback: JsValue): (r: JsValue)
    ensures r == fallback <==> property.None? || property.value == Undefined || property.value == fallback
    ensures property.Some? && property.value != Undefined ==> r == property.value
  {
    match property
    case None => fallback
    case Some(v) => if v == Undefined then fallback else v
  }
}
