/** Option, for values the components may lack (an absent DOM element, no key request). */
module Wrappers {

  datatype Option<+T> = None | Some(value: T)
}
