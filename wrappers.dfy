/** The optional-value type used for table lookups and for results that may be missing. */
module Wrappers {

  datatype Option<+T> = None | Some(value: T)
}
