/** The optional-value type used for the TypeScript `?:` fields of the input records. */
module Wrappers {

  /** A value that may be absent (`undefined` in the source). */
  datatype Option<+T> = None | Some(value: T)
}
