/** An optional value: stands for a TypeScript parameter or property that may be `undefined`. */
module Wrappers {

  datatype Option<+T> = None | Some(value: T)
}
