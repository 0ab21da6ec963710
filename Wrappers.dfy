/** The optional-value datatype used for Python's `Optional[...]` and for lookups that can fail. */
module Wrappers {

  datatype Option<+T> = None | Some(value: T)
}
