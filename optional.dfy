/** Python's `None` for arguments and attributes that may be absent. */
module Optional {
  datatype Option<T> = None | Some(value: T)
}
