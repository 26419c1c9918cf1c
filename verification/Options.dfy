/** The stock optional value, standing for std::optional and for nullable pointers to values. */
module Options {
  datatype Option<+T> = None | Some(value: T)
}
