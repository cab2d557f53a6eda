/** The optional-value datatype used throughout the model. A JavaScript
    `undefined` (a property the request body did not carry) is `None`. */
module Wrappers {

  datatype Option<+T> = None | Some(value: T)
}
