/** The one shared wrapper: a nullable column or an absent row. */
module Options {
  datatype Option<+T> = None | Some(value: T)
}
