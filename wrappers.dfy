/** Optional values: a DOM lookup that may find nothing, a prompt the user may
    cancel, a provider call that may fail. */
module Wrappers {

  datatype Option<+T> = None | Some(value: T)
}
