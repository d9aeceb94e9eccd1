/** The optional-value type used where the source raises instead of returning. */
module Wrappers {

  datatype Option<+T> = None | Some(value: T)

}
