/** The two-valued result used where the modelled code has an optional value. */
module Wrappers {
  datatype Option<+T> = None | Some(value: T)
}
