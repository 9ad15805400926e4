/** The optional value used where the Python source passes or stores `None`. */
module Options {

  datatype Option<+T> = None | Some(value: T)
}
