/** The optional-value datatype used for the configuration's optional fields. */
module Wrappers {
  datatype Option<+T> = None | Some(value: T)
}
