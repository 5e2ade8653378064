/** The optional-value wrapper used throughout the model. */
module Wrappers {

  /** `None` stands for a JavaScript `undefined` (or an absent value). */
  datatype Option<+T> = None | Some(value: T)
}
