/** Values that may be absent: the model's reading of Go's nil pointers. */
module Options {

  datatype Option<+T> = None | Some(value: T)
}
