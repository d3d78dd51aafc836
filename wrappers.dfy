/** Python's `None` next to a present value. */
module Wrappers {

  datatype Option<+T> = None | Some(value: T)

}
