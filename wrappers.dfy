/** The optional value used for the page's nullable globals (`null` or a string). */
module Wrappers {

  datatype Option<+T> = None | Some(value: T)
}
