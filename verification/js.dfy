/**
 * JavaScript values as the front-ends see them: a property read may yield
 * `undefined`, `null` or a value, and `||` / `??` / template strings treat
 * these cases differently.
 */
module Js {

  /** A property or variable that may be undefined, null, or hold a value. */
  datatype Js<+T> = Undefined | Null | Val(v: T) {

    /** `x ?? d` and `x?.f` short-circuit exactly on these two cases. */
    predicate Nullish() {
      Undefined? || Null?
    }
  }

  datatype Option<+T> = None | Some(value: T)

  /** The outcome of an awaited request: its response body, or a rejection. */
  datatype Reply<+T> = Ok(value: T) | Failed

  /** A string value is truthy exactly when it is present and non-empty. */
  predicate TruthyString(x: Js<string>) {
    x.Val? && x.v != ""
  }

  /** `x || fallback` for a possibly missing string. */
  function OrElse(x: Js<string>, fallback: string): string {
    if TruthyString(x) then x.v else fallback
  }

  /** What a template literal `${x}` prints for a possibly missing string. */
  function Interpolate(x: Js<string>): string {
    match x
    case Undefined => "undefined"
    case Null => "null"
    case Val(s) => s
  }
}
