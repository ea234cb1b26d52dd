/** The usual Some/None wrapper, used for a lookup that may find nothing
    and for session fields that may be absent. */
module Wrappers {
  datatype Option<+T> = None | Some(value: T)
}
