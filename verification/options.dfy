/** An optional value: stands for a DOM attribute that may be absent. */
module Options {

  datatype Option<+T> = None | Some(value: T)

}
