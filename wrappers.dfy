/** Optional values: a missing DOM element, an empty storage slot, a cleared timer. */
module Wrappers {

  datatype Option<+T> = None | Some(value: T)

}
