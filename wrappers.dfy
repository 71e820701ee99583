/** The optional-value type of the abstract-factory pizza model. */
module Wrappers {

  /** A value that may be absent, as `Option<T>` is in the modelled code. */
  datatype Option<+T> = None | Some(value: T)
}
