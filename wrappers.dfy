/** Optional values: a lookup that found nothing, or a slot left undefined. */
module Wrappers {

  datatype Option<+T> = None | Some(value: T)
}
