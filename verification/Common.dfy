/** What the parts of the model share. */
module Common {
  const L_SUBFRAME := 40

  datatype Option<T> = None | Some(value: T)
}
