/** The optional value used for Python's `None` (a null table cell, a loop
    that has not produced a value). */
module Wrappers {

  datatype Option<+T> = None | Some(value: T)
}
