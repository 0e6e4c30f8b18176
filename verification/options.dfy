/** An optional value: `None` stands for JavaScript's `undefined` and for
    an operation that threw. */
module Options {

  datatype Option<+T> = None | Some(value: T)

}
