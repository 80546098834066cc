/** Small shared datatypes: values JavaScript may leave undefined, and what an external call did. */
module Wrappers {

  /** A value that may be absent (`undefined` in the source). */
  datatype Option<+T> = None | Some(value: T)

  /** What one call into a collaborator did: it returned a value or it threw. */
  datatype Reply<+T> = Returned(value: T) | Threw
}
