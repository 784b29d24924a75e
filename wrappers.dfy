/** Optional values: a JavaScript `undefined`/`null` or an absent field. */
module Wrappers {

  datatype Option<+T> = None | Some(value: T)
}
