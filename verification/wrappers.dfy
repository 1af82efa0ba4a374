/** Optional values, used for the product record's optional `quantity` field. */
module Wrappers {

  /** `None` models a field that is absent (`undefined`), `Some(v)` one that holds `v`. */
  datatype Option<+T> = None | Some(value: T)
}
