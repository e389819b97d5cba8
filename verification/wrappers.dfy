/** The optional-value wrapper used for Kotlin's nullable types. */
module Wrappers {

  /** `None` stands for Kotlin's `null`; `Some(v)` for a present value. */
  datatype Option<+T> = None | Some(value: T)
}
