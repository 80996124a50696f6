/** The optional value used wherever a DOM or string lookup may find nothing. */
module Wrappers {
  datatype Option<+T> = None | Some(value: T)
}
