/** The optional value used for nullable columns and for lookups that may find nothing. */
module Wrappers {

  datatype Option<+T> = None | Some(value: T)

}
