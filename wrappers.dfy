/** The optional value used where the dashboard code returns None or reads a
    field that may be absent. */
module Wrappers {

  datatype Option<+T> = None | Some(value: T)
}
