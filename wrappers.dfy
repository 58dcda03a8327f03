/** The optional result the helpers return where the JavaScript returns `null`. */
module Wrappers {

  datatype Option<+T> = None | Some(value: T)
}
