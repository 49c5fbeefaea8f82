/** An optional value: a JavaScript slot that is either unset or holds a value. */
module Optional {

  datatype Option<+T> = None | Some(value: T)
}
