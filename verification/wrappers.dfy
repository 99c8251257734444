/** The optional value used for "parameter present or absent" and for lookups that may miss. */
module Wrappers {

  datatype Option<+T> = None | Some(value: T)
}
