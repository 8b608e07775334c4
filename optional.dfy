/** The usual Some/None wrapper, for values a JavaScript object may leave undefined. */
module Optional {

  datatype Option<+T> = None | Some(value: T)
}
