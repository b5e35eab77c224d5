/** An optional value: a file that could not be opened, a command that was not issued. */
module Wrappers {
  datatype Option<T> = None | Some(value: T)
}
