/** The optional value the handler's helpers return where the Python code returns `None`. */
module Options {
  datatype Option<+T> = None | Some(value: T)
}
