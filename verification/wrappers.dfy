/** The optional-value datatype used for Python arguments that default to `None`. */
module Wrappers {

  datatype Option<+T> = None | Some(value: T)
}
