/** An optional value: `None` stands for JavaScript's `undefined` or for "nothing happened". */
module Wrappers {
  datatype Option<+T> = None | Some(value: T)
}
