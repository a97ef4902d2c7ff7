/** Optional values; `None` stands for Java's `null` wherever the source keeps a nullable reference. */
module Wrappers {

  datatype Option<+T> = None | Some(value: T)
}
