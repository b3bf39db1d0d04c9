/** An optional value, for the source's `?`-typed fields and parameters. */
module Options {

  datatype Option<+T> = None | Some(value: T)
}
