/** The optional-value wrapper used for JavaScript's `undefined` / `null` across the model. */
module Wrappers {

  datatype Option<+T> = None | Some(value: T)
}
