/** The absent-or-present value used for optional request parameters and DOM state. */
module Wrappers {
  datatype Option<+T> = None | Some(value: T)
}
