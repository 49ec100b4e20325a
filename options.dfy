/** An optional value: `undefined` in the source becomes `None`. */
module Options {

  datatype Option<T> = None | Some(value: T)
}
