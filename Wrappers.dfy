/** Option, for values that an input may or may not supply. */
module Wrappers {

  datatype Option<+T> = None | Some(value: T)
}
