/** The optional value used throughout the model: Go's `nil` versus a present value. */
module Optional {

  datatype Option<+T> = None | Some(value: T)
}
