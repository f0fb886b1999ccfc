/** The optional value used for the source's nullable slots. */
module Options {

  datatype Option<T> = None | Some(value: T)
}
