/** The nullable values of the component: `null` in the source is `None` here. */
module Wrappers {

  datatype Option<+T> = None | Some(value: T)
}
