/** A value that JavaScript code may leave as `null`. */
module Base {

  datatype Option<+T> = None | Some(value: T)
}
