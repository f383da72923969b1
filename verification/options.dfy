/** The optional value shared by both halves of the model: a C pointer that may be NULL. */
module Options {

  datatype Option<+T> = None | Some(value: T)
}
