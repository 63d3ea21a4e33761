/** The optional value used for the site's `T | null` state. */
module Wrappers {
  datatype Option<+T> = None | Some(value: T)
}
