/** The datatype for nullable columns and missing values. */
module Options {
  datatype Option<+T> = None | Some(value: T)
}
