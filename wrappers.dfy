/** The conventional optional-value datatype, used for TypeScript's optional
    properties (`name?: string`) and for array reads that yield `undefined`. */
module Wrappers {
  datatype Option<+T> = None | Some(value: T)
}
