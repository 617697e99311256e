/** The Option datatype used for the builder's "output or null" results. */
module Wrappers {

  /** `None` stands for the source's `null`; `Some(v)` for a present value. */
  datatype Option<+T> = None | Some(value: T)
}
