/** Optional values: JavaScript's `undefined`/`null` results (`Array.find`, a missing map key, an unset state). */
module Wrappers {
  datatype Option<+T> = None | Some(value: T)
}
