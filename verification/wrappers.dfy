/** Optional values: `None` stands for a JavaScript `undefined` slot or an absent option. */
module Wrappers {
  datatype Option<+T> = None | Some(value: T)
}
