/** An optional value: used for the untouched min/max sentinel and for a failed elevation query. */
module Optional {
  datatype Option<+T> = None | Some(value: T)
}
