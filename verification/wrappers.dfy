/** Optional values, used for parsed numeric form fields and for the pending map click. */
module Wrappers {

  /** `None` is an absent or unusable value; `Some(v)` carries `v`. */
  datatype Option<+T> = None | Some(value: T)
}
