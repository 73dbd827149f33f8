/** The optional value used where the source returns `std::optional` or a null result. */
module Optional {
  datatype Option<+T> = None | Some(value: T)
}
