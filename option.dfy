/** An optional value: a table lookup that may miss, a result that may be absent. */
module Optional {

  datatype Option<+T> = None | Some(value: T)

}
