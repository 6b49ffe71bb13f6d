/** Python's `None` / value pair, used for a lane's optional target and the optional hue. */
module Wrappers {
  datatype Option<+T> = None | Some(value: T)
}
