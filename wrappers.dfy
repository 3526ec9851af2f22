/** The optional-value datatype the collaborators' replies use. */
module Wrappers {
  datatype Option<+T> = None | Some(value: T)
}
