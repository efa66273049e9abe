/** An optional value, for the Go source's nil-able results (chiefly `error`). */
module Options {
  datatype Option<+T> = None | Some(value: T)
}
