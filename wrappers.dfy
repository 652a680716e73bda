/** Optional values: JavaScript's `undefined`/`null` where the source uses them as "absent". */
module Wrappers {

  datatype Option<+T> = None | Some(value: T)
}
