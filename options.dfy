/** The optional value shared by the modules of the simulator model. */
module Options {
  datatype Option<T> = None | Some(value: T)
}
