/** Optional values: JavaScript's `undefined` results (a failed `find`,
    an index past the end of an array, an unset design) are `None`. */
module Wrappers {
  datatype Option<+T> = None | Some(value: T)
}
