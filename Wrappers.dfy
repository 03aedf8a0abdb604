/** Optional values: JavaScript's `undefined` for a property or a lookup that found nothing. */
module Wrappers {
  datatype Option<+T> = None | Some(value: T)
}
