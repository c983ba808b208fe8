/** An optional value: the model of a JSON field that may be absent. */
module Wrappers {
  datatype Option<+T> = None | Some(value: T)
}
