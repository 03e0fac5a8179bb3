/**
 * Values of the JavaScript runtime that the dashboard's logic depends on:
 * optional values (`null` and `undefined` are both `None`, since every
 * operator the code uses on them, `??`, `?.` and `||`, treats the two alike)
 * and the truthiness tests the code applies to numbers and strings.
 */
module Js {

  datatype Option<+T> = None | Some(value: T) {
    /** `x ?? default` */
    function GetOr(default: T): (r: T)
      ensures Some? ==> r == value
      ensures None? ==> r == default
    {
      match this
      case Some(v) => v
      case None => default
    }
  }

  /** A number is truthy unless it is 0 (NaN is not modelled). */
  predicate TruthyNumber(x: Option<real>) {
    x.Some? && x.value != 0.0
  }

  /** A string is truthy unless it is empty. */
  predicate TruthyString(s: Option<string>) {
    s.Some? && s.value != ""
  }
}
