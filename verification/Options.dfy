/** The one optional type the whole project shares: a Go pointer that may be nil. */
module Options {

  datatype Option<+T> = None | Some(value: T)
}
