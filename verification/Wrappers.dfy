/** An optional value, for results the source leaves null or undefined and for thrown errors. */
module Wrappers {
  datatype Option<+T> = None | Some(value: T)
}
