/** An optional value, used for a store entry or a saved manifest that may be absent. */
module Wrappers {
  datatype Option<+T> = None | Some(value: T)
}
