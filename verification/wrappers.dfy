/** The optional value used throughout the model: TypeScript's `T | undefined` / `T | null`. */
module Wrappers {
  datatype Option<+T> = None | Some(value: T)
}
