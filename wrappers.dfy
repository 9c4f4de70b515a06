/** Option type used for pandas' NaN results and for Python's `None` returns. */
module Wrappers {

  datatype Option<+T> = None | Some(value: T)
}
