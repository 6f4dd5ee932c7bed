/** A nullable value: JavaScript's `null` (or an absent key) is `None`. */
module Wrappers {

  datatype Option<+T> = None | Some(value: T)
}
