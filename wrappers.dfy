/** An optional value: `Some(alias)` when a hook names a database alias,
    `None` where Python's hook returns `None`. */
module Wrappers {

  datatype Option<+T> = None | Some(value: T)

}
