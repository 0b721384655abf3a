/** The optional value used wherever the source tests a reference against `null`. */
module Options {

  datatype Option<+T> = None | Some(value: T)

}
