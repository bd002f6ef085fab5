/** The optional value used throughout the model: a JavaScript value that may be
    `undefined` (an unset environment variable, a missing session, a `null`
    tri-state) is an `Option`. */
module Wrappers {

  datatype Option<+T> = None | Some(value: T)
}
