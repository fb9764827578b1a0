/** Optional values: a JavaScript `undefined`, a NaN from parsing, a key absent from storage. */
module Wrappers {

  datatype Option<+T> = None | Some(value: T)
}
