/** An optional value: a file that could be read, a count that was reported. */
module Wrappers {

  datatype Option<+T> = None | Some(value: T)
}
