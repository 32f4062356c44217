/** Optional values, used for the audio element's source slot, the
    persisted theme entry and the result of parsing a time string. */
module Wrappers {

  datatype Option<+T> = None | Some(value: T)
}
