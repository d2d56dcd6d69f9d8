/** The optional-value type used wherever the browser code has `null` or `undefined`. */
module Wrappers {

  datatype Option<+T> = None | Some(value: T)
}
