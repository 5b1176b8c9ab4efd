/** An optional value: JavaScript's `undefined` on the one side, a present value on the other. */
module Optional {
  datatype Option<T> = None | Some(value: T)
}
