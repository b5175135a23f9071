/** The value-or-nothing type that stands for the source's `T | null` results. */
module Optional {
  datatype Option<+T> = None | Some(value: T)
}
