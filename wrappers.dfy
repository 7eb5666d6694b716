/** The optional values the application passes around (`T | null`, `T | undefined`). */
module Wrappers {

  /** Some value, or none (`null`/`undefined` in the source). */
  datatype Option<+T> = None | Some(value: T)
}
