/** The optional value used across the model for `std::optional` and for steps that are not enabled. */
module Options {
  datatype Option<+T> = None | Some(value: T)
}
