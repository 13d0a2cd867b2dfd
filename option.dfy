/** The optional values of the TypeScript source (`T | undefined`, `T | null`). */
module Opt {
  datatype Option<+T> = None | Some(value: T)
}
