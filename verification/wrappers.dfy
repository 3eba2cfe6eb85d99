/** Optional values, standing for the source's nullable references and
    nullable structs. */
module Wrappers {

  datatype Option<+T> = None | Some(value: T)
}
