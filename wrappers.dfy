/** Option, the absent-or-present value shared by both models. */
module Wrappers {

  datatype Option<+T> = None | Some(value: T)
}
