/** The optional-value type shared by the order form and the symbol selection:
    `None` stands for the source's `undefined`/`null`/"not found". */
module Wrappers {

  datatype Option<+T> = None | Some(value: T)
}
