/** An optional value: the model of a JavaScript value that may be missing (undefined or null). */
module Options {

  datatype Option<+T> = None | Some(value: T)
}
