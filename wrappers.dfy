/** The optional-value datatype used by the input layer. */
module Wrappers {

  datatype Option<+T> = None | Some(value: T)
}
