/** The optional value used throughout the model: `None` stands for JavaScript's
    `undefined` (an absent field, an empty waiting slot, a missing partner). */
module Wrappers {

  datatype Option<+T> = None | Some(value: T)
}
