/** The optional value used throughout the model (a nullable PHP value). */
module Wrappers {
  datatype Option<+T> = None | Some(value: T)
}
