/** Optional values; `None` stands for PHP's `null` where the plugin produces one. */
module Wrappers {
  datatype Option<+T> = None | Some(value: T)
}
