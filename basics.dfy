/** Small value types shared by every part of the dashboard model. */
module Basics {

  /** A value that may be absent: JavaScript's `null` / `undefined`. */
  datatype Option<+T> = None | Some(value: T)

  /** A computation that either yields a value or stops with a reason. */
  datatype Result<+T, +E> = Success(value: T) | Failure(error: E)

  /** JavaScript truthiness of an optional string: absent and "" are both falsy. */
  predicate Truthy(s: Option<string>) {
    s.Some? && s.value != ""
  }

  /** The `value || ''` idiom: the string itself, or "" when it is absent. */
  function OrEmpty(s: Option<string>): string {
    if s.Some? then s.value else ""
  }
}
