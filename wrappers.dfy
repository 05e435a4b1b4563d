/** An optional value, standing in for JavaScript's `null` / `NaN` where the engine checks for them. */
module Wrappers {
  datatype Option<+T> = None | Some(value: T)
}
