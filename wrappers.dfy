/** The conventional Some/None datatype; `None` stands for a JavaScript
    property that is `undefined` or `null`. */
module Wrappers {

  datatype Option<+T> = None | Some(value: T)
}
