/** The optional value that stands for the source's `undefined` results. */
module Common {
  datatype Option<+T> = None | Some(value: T)
}
