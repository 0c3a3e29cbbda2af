/** The optional value used for the page's `answer?` and `error?` state fields
    and for the optional parts of a failed call. */
module Wrappers {

  datatype Option<+T> = None | Some(value: T)
}
