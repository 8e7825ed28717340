/** An optional value: JavaScript's `undefined` (or a thrown step) versus a present value. */
module Options {

  datatype Option<+T> = None | Some(value: T)

}
