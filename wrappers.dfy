/** Optional values: a sensor reading that may be absent (`null`/`undefined` in the app). */
module Wrappers {

  datatype Option<+T> = None | Some(value: T)
}
