/** The option type that all components share. */
module Wrappers {

  datatype Option<+T> = None | Some(value: T)
}
