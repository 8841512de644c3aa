/** The option type used for record fields that the application may leave missing or malformed. */
module Wrappers {

  datatype Option<+T> = None | Some(value: T)
}
