/** The optional-value datatype used for every JavaScript property that may be absent. */
module Wrappers {

  /** `None` is an absent (`undefined` or `null`) property; `Some(v)` a present one. */
  datatype Option<+T> = None | Some(value: T)
}
