/** The usual optional value: stands for JavaScript's `null`/`undefined`. */
module Optional {

  datatype Option<+T> = None | Some(value: T)
}
