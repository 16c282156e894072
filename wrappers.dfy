/** The optional value used for nullable columns, absent dictionary keys and empty bodies. */
module Wrappers {
  datatype Option<+T> = None | Some(value: T)
}
