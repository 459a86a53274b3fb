/** Option, for values a JavaScript function returns as null or undefined. */
module Wrappers {
  datatype Option<+T> = None | Some(value: T)
}
