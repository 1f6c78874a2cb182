/** Small failure-carrying datatypes shared by the rest of the model. */
module Wrappers {

  /** A value that may be absent (JavaScript `undefined`). */
  datatype Option<+T> = None | Some(value: T)

  /** What an awaited call to an external collaborator did: it returned a value, or it threw. */
  datatype Awaited<+T> = Returned(value: T) | Threw
}
