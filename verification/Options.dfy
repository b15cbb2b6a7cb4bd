/** The optional value that the client's std::optional fields become. */
module Options {
  datatype Option<+T> = None | Some(value: T)
}
