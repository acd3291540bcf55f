/** Optional values: a JavaScript field that may be `undefined`, or a call
    whose result may be `null`. */
module Wrappers {

  datatype Option<+T> = None | Some(value: T)
}
