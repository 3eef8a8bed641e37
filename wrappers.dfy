/** An optional value: a field of a stored record that may be absent. */
module Wrappers {

  datatype Option<+T> = None | Some(value: T)

}
