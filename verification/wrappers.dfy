/** The optional-value type used across the model. */
module Wrappers {

  /** Either nothing (`None`) or one value (`Some(value)`). A `None` result
      means "nothing here" or, where a member says so, a Go panic. */
  datatype Option<+T> = None | Some(value: T)
}
