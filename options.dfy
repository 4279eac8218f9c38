/** A value that may be absent: stands for JavaScript's `null` where the page stores one. */
module Options {
  datatype Option<T> = None | Some(value: T)
}
