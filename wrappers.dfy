/** Optional values: Swift's `T?`, used for the validator's optional error
    description and for the checked cast of a type-erased step. */
module Wrappers {

  datatype Option<+T> = None | Some(value: T)
}
