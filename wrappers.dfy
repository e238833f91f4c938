/** A nullable value: JavaScript's `null` is `None`. */
module Wrappers {

  datatype Option<+T> = None | Some(value: T)
}
