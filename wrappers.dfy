/** Optional values, used for fields and query payloads that may be absent. */
module Wrappers {

  datatype Option<+T> = None | Some(value: T)

}
