/** The failure-carrying result used wherever the program raises and catches an exception. */
module Optional {

  datatype Option<+T> = None | Some(value: T)
}
