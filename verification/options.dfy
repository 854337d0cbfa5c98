/** A value that may be missing, as a Python dictionary lookup may find no key. */
module Options {

  datatype Option<T> = None | Some(value: T)
}
