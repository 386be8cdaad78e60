/** A value that may be missing: C++'s std::optional, a null result or an exception. */
module Options {
  datatype Option<T> = None | Some(value: T)
}
