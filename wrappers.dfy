/** The usual optional-value datatype: `None` stands for the "not found" outcome
    that the registry reports as a message instead of a null reference. */
module Wrappers {

  datatype Option<+T> = None | Some(value: T)

}
