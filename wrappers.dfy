/** The optional value used for the nullable fields of the session (`string | null`). */
module Wrappers {

  datatype Option<+T> = None | Some(value: T)
}
