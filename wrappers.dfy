/** The optional value a lookup returns: Python's `None` or a record. */
module Wrappers {

  datatype Option<+T> = None | Some(value: T)
}
