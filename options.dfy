/** The optional value used where the scripts return `null` or a missing element. */
module Options {

  datatype Option<+T> = None | Some(value: T)
}
