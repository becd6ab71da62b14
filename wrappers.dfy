/** The optional value used throughout the model for JSON fields that may be
    absent, `null` or otherwise falsy. */
module Wrappers {

  datatype Option<+T> = None | Some(value: T)

}
