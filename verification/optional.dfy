/** The optional value used wherever Go returns a nil pointer, a missing map entry or a failed call. */
module Optional {

  datatype Option<+T> = None | Some(value: T)
}
