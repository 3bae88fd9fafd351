/** The optional-value datatype used for parse results and error returns. */
module Wrappers {

  datatype Option<+T> = None | Some(value: T)
}
