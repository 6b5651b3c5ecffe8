/** The optional value used for form fields that may be missing or unparseable
    and for lookups that may find nothing. */
module Wrappers {
  datatype Option<+T> = None | Some(value: T)
}
