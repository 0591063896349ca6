/** Optional values, used where a lookup or a parse can find nothing. */
module Wrappers {

  datatype Option<+T> = None | Some(value: T)

}
