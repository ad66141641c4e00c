/**
 * The few JavaScript value rules the site's scripts depend on: `undefined`
 * properties, truthiness as used by `if (x)` and `x || y`, and the text a
 * template literal produces for a possibly-undefined string.
 */
module Js {

  /** A property that may be `undefined` (None) or hold a value (Some). */
  datatype Option<+T> = None | Some(value: T) {
    function GetOr(default: T): T {
      match this
      case Some(v) => v
      case None => default
    }
  }

  /** The outcome of a promise: resolved with a value, or rejected with an error message. */
  datatype Result<+T> = Ok(value: T) | Err(error: string)

  /** Truthiness of a possibly-undefined string: `undefined` and `''` are falsy. */
  predicate TruthyStr(s: Option<string>) {
    s.Some? && s.value != ""
  }

  /** Truthiness of a possibly-undefined number: `undefined` and `0` are falsy. */
  predicate TruthyNum(n: Option<int>) {
    n.Some? && n.value != 0
  }

  /** Truthiness of a possibly-undefined boolean flag. */
  predicate TruthyBool(b: Option<bool>) {
    b == Some(true)
  }

  /** `a || b` on possibly-undefined strings: `a` when truthy, else `b`. */
  function OrStr(a: Option<string>, b: Option<string>): Option<string> {
    if TruthyStr(a) then a else b
  }

  /** The text `${s}` yields inside a template literal. */
  function Interpolate(s: Option<string>): string {
    match s
    case Some(v) => v
    case None => "undefined"
  }
}
