/** Swift optionals (`String?`, `SKNode?`, `touches.first`) as a value type. */
module Options {
  datatype Option<+T> = None | Some(value: T)
}
