/** The optional value a lookup in one of the dashboard's tables may return. */
module Options {

  datatype Option<+T> = None | Some(value: T)
}
