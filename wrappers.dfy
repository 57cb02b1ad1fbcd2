/** The one optional-value type the model needs: an absent hand, a missing store file. */
module Wrappers {
  datatype Option<+T> = None | Some(value: T)
}
