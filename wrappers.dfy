/** The conventional optional value; `None` plays the role of the source's `null`. */
module Wrappers {
  datatype Option<+T> = None | Some(value: T)
}
