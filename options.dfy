/** The optional value used throughout the model in place of Go's nil pointers and "not found" results. */
module Options {

  datatype Option<+T> = None | Some(value: T)
}
