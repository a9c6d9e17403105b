/** Option type used for values that may be missing and for external calls that may raise. */
module Wrappers {

  datatype Option<+T> = None | Some(value: T)

}
