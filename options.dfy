/** The conventional Some/None datatype, used for values JavaScript may leave undefined. */
module Options {

  datatype Option<+T> = None | Some(value: T)

}
