/** Optional values, for decoders that can refuse their input. */
module Wrappers {

  datatype Option<+T> = None | Some(value: T)
}
