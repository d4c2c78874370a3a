/** The optional value used for the source's nullable state (`null` or a value). */
module Optional {
  datatype Option<T> = None | Some(value: T)
}
