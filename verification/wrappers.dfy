/** The optional-value datatype used where the source returns `null` or leaves a value undefined. */
module Wrappers {

  /** `None` stands for JavaScript's `null`/`undefined`, `Some(v)` for a present value. */
  datatype Option<+T> = None | Some(value: T)
}
