/** The optional values that stand for the pointers the daemon allows to be NULL. */
module Options {
  datatype Option<+T> = None | Some(value: T)
}
