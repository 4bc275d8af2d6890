/** The optional value used where the source returns `null` or leaves a state slot empty. */
module Wrappers {

  datatype Option<+T> = None | Some(value: T)
}
