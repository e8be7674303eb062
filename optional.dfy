/** Option stands in for a Go pointer or reference value that may be nil. */
module Optional {

  datatype Option<+T> = None | Some(value: T)
}
