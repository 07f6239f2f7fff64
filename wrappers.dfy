/** An optional value: PHP's `null` (None) or a present value. */
module Wrappers {

  datatype Option<+T> = None | Some(value: T)
}
