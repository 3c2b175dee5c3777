/** The optional-value datatype used for absent results. */
module Wrappers {

  datatype Option<T> = None | Some(value: T)
}
