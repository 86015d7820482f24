/** The few JavaScript value rules the bus code depends on: optional values,
    the `??` and `||` operators, and the truthiness of strings. */
module JsValues {

  /** An optional value (`undefined` or a value). */
  datatype Option<+T> = None | Some(value: T)

  /** A value or the error a call raised. */
  datatype Result<+T, +E> = Success(value: T) | Failure(error: E)

  /** A string is truthy exactly when it is not empty. */
  predicate Truthy(s: string)
  {
    s != ""
  }

  /** An optional string is truthy when present and not empty (`if (topic)`). */
  predicate OptTruthy(o: Option<string>)
  {
    o.Some? && Truthy(o.value)
  }

  /** `o ?? d`: falls back only when the value is absent. */
  function Coalesce<T>(o: Option<T>, d: T): T
  {
    if o.Some? then o.value else d
  }

  /** `o || d` on strings: falls back when the value is absent or empty. */
  function OrElse(o: Option<string>, d: string): string
  {
    if OptTruthy(o) then o.value else d
  }
}
