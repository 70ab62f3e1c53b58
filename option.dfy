/** An optional value: a memoized field not yet set, or a decoder's failure. */
module Optional {
  datatype Option<T> = None | Some(value: T)
}
