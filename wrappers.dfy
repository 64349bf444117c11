/** The optional value used for request-body fields that may be absent. */
module Wrappers {

  /** `None` stands for a field that is absent from the request body (JavaScript `undefined`). */
  datatype Option<+T> = None | Some(value: T)
}
