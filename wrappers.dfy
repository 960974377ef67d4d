/** The optional value used for JavaScript's `undefined`, for a failed parse and for an absent request field. */
module Wrappers {
  datatype Option<T> = None | Some(value: T)
}
