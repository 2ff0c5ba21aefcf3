/** The optional value that stands for a nullable column or a missing key. */
module Options {
  datatype Option<+T> = None | Some(value: T)
}
