/** The conventional optional value, used for a nullable column or a missing row. */
module Wrappers {
  datatype Option<+T> = None | Some(value: T)
}
