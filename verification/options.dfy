/** Values that may be missing: nil pointers, zero times and calls that failed. */
module Options {

  datatype Option<T> = None | Some(value: T)
}
