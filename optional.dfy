/** An optional value: the model of a TypeScript field declared with `?`
    (present, or `undefined`). */
module Optional {
  datatype Option<+T> = None | Some(value: T)
}
