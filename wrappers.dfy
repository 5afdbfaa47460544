/** The optional value of TypeScript's `T | undefined`, with the `??` operator. */
module Wrappers {

  datatype Option<+T> = None | Some(value: T) {

    /** `this ?? other`: keeps a present value, otherwise falls back to `other`. */
    function OrElse(other: Option<T>): Option<T> {
      match this
      case Some(_) => this
      case None => other
    }

    /** `this ?? fallback` for a fallback that is always present. */
    function GetOr(fallback: T): T {
      match this
      case Some(v) => v
      case None => fallback
    }
  }
}
