/** The optional values the engine uses where the source has `null`. */
module Wrappers {
  datatype Option<+T> = None | Some(value: T)
}
